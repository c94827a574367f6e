/** Small helper datatypes shared by the modules of this project. */
module Wrappers {

  /** A value that may be absent: Ruby's `nil` (or `false`) versus a configured value. */
  datatype Option<+T> = None | Some(value: T)

  /** `p` is a suffix of `s`. */
  predicate IsSuffix<T(==)>(p: seq<T>, s: seq<T>)
  {
    |p| <= |s| && s[|s| - |p|..] == p
  }
}
