/**
 * Properties of whole upload runs and of the invalidation request, stated
 * against reference definitions that look only at the files and at the
 * bucket as it was when the run started.
 */
module S3UploaderLemmas {
  import opened Wrappers
  import opened S3AssetsVersioning
  import opened S3Uploader

  // ---------------------------------------------------------------------------
  // Runs compose

  lemma {:induction false} StepsAppend(ctx: Context, s: RunState, a: seq<FileEntry>, b: seq<FileEntry>)
    ensures Steps(ctx, s, a + b) == Steps(ctx, Steps(ctx, s, a), b)
    decreases |b|
  {
    if b == [] {
      assert a + b == a;
    } else {
      var b' := b[..|b| - 1];
      assert (a + b)[..|a + b| - 1] == a + b';
      assert (a + b)[|a + b| - 1] == b[|b| - 1];
      StepsAppend(ctx, s, a, b');
    }
  }

  /** All files the globs expand to, glob by glob. */
  function Expansion(ctx: Context, globs: seq<string>, expand: string -> seq<FileEntry>): seq<FileEntry>
  {
    if globs == [] then []
    else Expansion(ctx, globs[..|globs| - 1], expand) + expand(ctx.config.assetRoot + "/" + globs[|globs| - 1])
  }

  /** A run over several globs is one run over the concatenation of their files. */
  lemma {:induction false} RunGlobsIsSteps(ctx: Context, s: RunState, globs: seq<string>, expand: string -> seq<FileEntry>)
    ensures RunGlobs(ctx, s, globs, expand) == Steps(ctx, s, Expansion(ctx, globs, expand))
  {
    if globs != [] {
      var init := globs[..|globs| - 1];
      RunGlobsIsSteps(ctx, s, init, expand);
      StepsAppend(ctx, s, Expansion(ctx, init, expand), expand(ctx.config.assetRoot + "/" + globs[|globs| - 1]));
    }
  }

  /** The basename of "dir/name" is name when name has no "/". */
  lemma {:induction false} BasenameAfterSlash(dir: string, name: string)
    requires forall i :: 0 <= i < |name| ==> name[i] != '/'
    ensures Basename(dir + "/" + name) == name
    decreases |name|
  {
    var p := dir + "/" + name;
    if name == [] {
      assert p[|p| - 1] == '/';
    } else {
      var init := name[..|name| - 1];
      assert p[..|p| - 1] == dir + "/" + init;
      assert p[|p| - 1] == name[|name| - 1];
      BasenameAfterSlash(dir, init);
      assert init + [name[|name| - 1]] == name;
    }
  }

  /** A basename ending in ".gz" after some other character is a ".gz" extension. */
  lemma GzExtensionExample()
    ensures HasGzExtension("a/app.css.gz")
  {
    BasenameAfterSlash("a", "app.css.gz");
    assert "a" + "/" + "app.css.gz" == "a/app.css.gz";
    var b := Basename("a/app.css.gz");
    assert b[0] == 'a' && b[|b| - 3..] == ".gz";
  }

  /** Leading dots of a basename never start its extension. */
  lemma DotsOnlyGzIsNoExtension()
    ensures !HasGzExtension("a/..gz")
  {
    BasenameAfterSlash("a", "..gz");
    assert "a" + "/" + "..gz" == "a/..gz";
  }

  /** A ".gz" in a directory name is not the file's extension. */
  lemma GzDirectoryIsNoExtension()
    ensures !HasGzExtension("a.gz/app")
  {
    BasenameAfterSlash("a.gz", "app");
    assert "a.gz" + "/" + "app" == "a.gz/app";
  }

  // ---------------------------------------------------------------------------
  // The change set and the log only grow

  lemma {:induction false} RunOnlyAppends(ctx: Context, s: RunState, files: seq<FileEntry>)
    ensures s.changed <= Steps(ctx, s, files).changed
    ensures s.stored <= Steps(ctx, s, files).stored
    ensures !UseInvalidation(ctx.settings) ==> Steps(ctx, s, files).changed == s.changed
  {
    if files != [] {
      RunOnlyAppends(ctx, s, files[..|files| - 1]);
    }
  }

  // ---------------------------------------------------------------------------
  // Versioned mode

  function GzipOf(ctx: Context, f: FileEntry): bool
  {
    PlanFile(ctx.config.assetRoot, f.localPath).gzip
  }

  /** Versioned mode: one object per non-directory file, under its versioned key. */
  function VersionedUploads(ctx: Context, files: seq<FileEntry>): seq<StoredObject>
  {
    if files == [] then []
    else
      var f := files[|files| - 1];
      VersionedUploads(ctx, files[..|files| - 1])
        + if f.isDirectory then [] else [ObjectFor(ctx, VersionedKey(ctx, f), f, GzipOf(ctx, f))]
  }

  /**
   * In versioned mode every non-directory file is stored, under its versioned
   * key, whatever the bucket holds, and the change set is untouched.
   */
  lemma {:induction false} VersionedRun(ctx: Context, s: RunState, files: seq<FileEntry>)
    requires UseVersionedAssets(ctx.settings)
    ensures Steps(ctx, s, files).stored == s.stored + VersionedUploads(ctx, files)
    ensures Steps(ctx, s, files).changed == s.changed
  {
    if files != [] {
      var init := files[..|files| - 1];
      VersionedRun(ctx, s, init);
      assert Steps(ctx, s, files) == Step(ctx, Steps(ctx, s, init), files[|files| - 1]);
    }
  }

  // ---------------------------------------------------------------------------
  // Selective mode

  /** No two non-directory files map to the same remote key. */
  predicate DistinctKeys(ctx: Context, files: seq<FileEntry>)
  {
    forall i, j :: 0 <= i < j < |files| && !files[i].isDirectory && !files[j].isDirectory ==>
      RemoteKey(ctx, files[i]) != RemoteKey(ctx, files[j])
  }

  /** Dropping the last file keeps the keys distinct. */
  lemma DistinctKeysPrefix(ctx: Context, files: seq<FileEntry>)
    requires files != [] && DistinctKeys(ctx, files)
    ensures DistinctKeys(ctx, files[..|files| - 1])
  {
    var init := files[..|files| - 1];
    assert forall i :: 0 <= i < |init| ==> init[i] == files[i];
  }

  /** What one file adds to the selective uploads, judged against `bucket`. */
  function SelectiveUpload(ctx: Context, bucket: map<string, string>, f: FileEntry): seq<StoredObject>
  {
    if !f.isDirectory && NeedsUpload(ctx, bucket, RemoteKey(ctx, f), f)
    then [ObjectFor(ctx, RemoteKey(ctx, f), f, GzipOf(ctx, f))] else []
  }

  /** Selective mode, judged against the bucket as it was: the files that need uploading. */
  function SelectiveUploads(ctx: Context, bucket: map<string, string>, files: seq<FileEntry>): seq<StoredObject>
  {
    if files == [] then []
    else SelectiveUploads(ctx, bucket, files[..|files| - 1]) + SelectiveUpload(ctx, bucket, files[|files| - 1])
  }

  /** The key one file adds to the change set: an existing key with another etag. */
  function ReplacedKey(ctx: Context, bucket: map<string, string>, f: FileEntry): (keys: seq<string>)
    ensures forall k :: k in keys ==> k in bucket
    ensures |keys| <= 1
  {
    var key := RemoteKey(ctx, f);
    if !f.isDirectory && key in bucket && bucket[key] != ctx.md5(f.content) then [key] else []
  }

  /** The keys that existed in the bucket with a different etag. */
  function ReplacedKeys(ctx: Context, bucket: map<string, string>, files: seq<FileEntry>): (keys: seq<string>)
    ensures forall k :: k in keys ==> k in bucket
    ensures |keys| <= |files|
  {
    if files == [] then []
    else ReplacedKeys(ctx, bucket, files[..|files| - 1]) + ReplacedKey(ctx, bucket, files[|files| - 1])
  }

  /** In selective mode one file touches no key but its own. */
  lemma StepFrame(ctx: Context, t: RunState, f: FileEntry, key: string)
    requires !UseVersionedAssets(ctx.settings)
    requires !f.isDirectory ==> RemoteKey(ctx, f) != key
    ensures key in Step(ctx, t, f).bucket <==> key in t.bucket
    ensures key in t.bucket ==> Step(ctx, t, f).bucket[key] == t.bucket[key]
  {
  }

  /** A selective run leaves alone every key none of its files maps to. */
  lemma {:induction false} SelectiveRunFrame(ctx: Context, s: RunState, files: seq<FileEntry>, key: string)
    requires !UseVersionedAssets(ctx.settings)
    requires forall i :: 0 <= i < |files| && !files[i].isDirectory ==> RemoteKey(ctx, files[i]) != key
    ensures key in Steps(ctx, s, files).bucket <==> key in s.bucket
    ensures key in s.bucket ==> Steps(ctx, s, files).bucket[key] == s.bucket[key]
  {
    if files != [] {
      var init, f := files[..|files| - 1], files[|files| - 1];
      SelectiveRunFrame(ctx, s, init, key);
      StepFrame(ctx, Steps(ctx, s, init), f, key);
    }
  }

  /**
   * One selective step judged against the bucket `b` at the start of the run,
   * when the current bucket still agrees with `b` on the file's key.
   */
  lemma SelectiveStep(ctx: Context, b: map<string, string>, t: RunState, f: FileEntry)
    requires !UseVersionedAssets(ctx.settings)
    requires !f.isDirectory ==> (RemoteKey(ctx, f) in t.bucket <==> RemoteKey(ctx, f) in b)
    requires !f.isDirectory && RemoteKey(ctx, f) in b ==> t.bucket[RemoteKey(ctx, f)] == b[RemoteKey(ctx, f)]
    ensures Step(ctx, t, f).stored == t.stored + SelectiveUpload(ctx, b, f)
    ensures Step(ctx, t, f).changed ==
              t.changed + if UseInvalidation(ctx.settings) then ReplacedKey(ctx, b, f) else []
  {
  }

  /** With distinct keys, the files before the last leave the last file's key alone. */
  lemma LastKeyUntouched(ctx: Context, s: RunState, files: seq<FileEntry>)
    requires !UseVersionedAssets(ctx.settings)
    requires files != [] && DistinctKeys(ctx, files) && !files[|files| - 1].isDirectory
    ensures var t, key := Steps(ctx, s, files[..|files| - 1]), RemoteKey(ctx, files[|files| - 1]);
            && (key in t.bucket <==> key in s.bucket)
            && (key in s.bucket ==> t.bucket[key] == s.bucket[key])
  {
    var init, f := files[..|files| - 1], files[|files| - 1];
    forall i | 0 <= i < |init| && !init[i].isDirectory
      ensures RemoteKey(ctx, init[i]) != RemoteKey(ctx, f)
    {
      assert init[i] == files[i];
    }
    SelectiveRunFrame(ctx, s, init, RemoteKey(ctx, f));
  }

  /** The selective-run relation, holding after `init`, still holds after one more file. */
  lemma SelectiveRunExtend(ctx: Context, s: RunState, t: RunState, init: seq<FileEntry>, f: FileEntry)
    requires !UseVersionedAssets(ctx.settings)
    requires t.stored == s.stored + SelectiveUploads(ctx, s.bucket, init)
    requires t.changed == s.changed + if UseInvalidation(ctx.settings) then ReplacedKeys(ctx, s.bucket, init) else []
    requires !f.isDirectory ==>
               && (RemoteKey(ctx, f) in t.bucket <==> RemoteKey(ctx, f) in s.bucket)
               && (RemoteKey(ctx, f) in s.bucket ==> t.bucket[RemoteKey(ctx, f)] == s.bucket[RemoteKey(ctx, f)])
    ensures Step(ctx, t, f).stored == s.stored + (SelectiveUploads(ctx, s.bucket, init) + SelectiveUpload(ctx, s.bucket, f))
    ensures Step(ctx, t, f).changed == s.changed +
              if UseInvalidation(ctx.settings) then ReplacedKeys(ctx, s.bucket, init) + ReplacedKey(ctx, s.bucket, f) else []
  {
    SelectiveStep(ctx, s.bucket, t, f);
  }

  /**
   * With distinct keys, a selective run stores exactly the files that are
   * missing from the bucket or differ from it, and, with invalidation on,
   * its change set grows by exactly the keys that existed with another etag,
   * in file order; newly created keys never enter it.
   */
  lemma {:induction false} SelectiveRun(ctx: Context, s: RunState, files: seq<FileEntry>)
    requires !UseVersionedAssets(ctx.settings)
    requires DistinctKeys(ctx, files)
    ensures Steps(ctx, s, files).stored == s.stored + SelectiveUploads(ctx, s.bucket, files)
    ensures Steps(ctx, s, files).changed ==
              s.changed + if UseInvalidation(ctx.settings) then ReplacedKeys(ctx, s.bucket, files) else []
  {
    if files != [] {
      var init, f := files[..|files| - 1], files[|files| - 1];
      var t := Steps(ctx, s, init);
      DistinctKeysPrefix(ctx, files);
      SelectiveRun(ctx, s, init);
      if !f.isDirectory {
        LastKeyUntouched(ctx, s, files);
      }
      SelectiveRunExtend(ctx, s, t, init, f);
    }
  }

  /** After its own step a file no longer needs uploading. */
  lemma StepBringsKeyUpToDate(ctx: Context, t: RunState, f: FileEntry)
    requires !UseVersionedAssets(ctx.settings)
    requires !f.isDirectory
    ensures !NeedsUpload(ctx, Step(ctx, t, f).bucket, RemoteKey(ctx, f), f)
  {
  }

  /** A file that is up to date stays so across a step for another key. */
  lemma StepKeepsKeyUpToDate(ctx: Context, t: RunState, f: FileEntry, g: FileEntry)
    requires !UseVersionedAssets(ctx.settings)
    requires !NeedsUpload(ctx, t.bucket, RemoteKey(ctx, g), g)
    requires !f.isDirectory ==> RemoteKey(ctx, f) != RemoteKey(ctx, g)
    ensures !NeedsUpload(ctx, Step(ctx, t, f).bucket, RemoteKey(ctx, g), g)
  {
    StepFrame(ctx, t, f, RemoteKey(ctx, g));
  }

  /** After a selective run with distinct keys, the bucket holds every file's content. */
  lemma {:induction false} SelectiveRunBringsBucketUpToDate(ctx: Context, s: RunState, files: seq<FileEntry>, i: nat)
    requires !UseVersionedAssets(ctx.settings)
    requires DistinctKeys(ctx, files)
    requires i < |files| && !files[i].isDirectory
    ensures !NeedsUpload(ctx, Steps(ctx, s, files).bucket, RemoteKey(ctx, files[i]), files[i])
  {
    var init, f := files[..|files| - 1], files[|files| - 1];
    var t := Steps(ctx, s, init);
    if i < |init| {
      var g := files[i];
      DistinctKeysPrefix(ctx, files);
      assert init[i] == g;
      SelectiveRunBringsBucketUpToDate(ctx, s, init, i);
      StepKeepsKeyUpToDate(ctx, t, f, g);
    } else {
      StepBringsKeyUpToDate(ctx, t, f);
    }
  }

  /** A run over files the bucket already holds changes nothing. */
  lemma {:induction false} UpToDateRunIsNoOp(ctx: Context, t: RunState, files: seq<FileEntry>)
    requires !UseVersionedAssets(ctx.settings)
    requires forall i :: 0 <= i < |files| && !files[i].isDirectory ==>
               !NeedsUpload(ctx, t.bucket, RemoteKey(ctx, files[i]), files[i])
    ensures Steps(ctx, t, files) == t
  {
    if files != [] {
      var init := files[..|files| - 1];
      assert forall i :: 0 <= i < |init| ==> init[i] == files[i];
      UpToDateRunIsNoOp(ctx, t, init);
    }
  }

  /** Running the same selective upload twice: the second run stores and invalidates nothing. */
  lemma SecondRunChangesNothing(ctx: Context, s: RunState, files: seq<FileEntry>)
    requires !UseVersionedAssets(ctx.settings)
    requires DistinctKeys(ctx, files)
    ensures Steps(ctx, Steps(ctx, s, files), files) == Steps(ctx, s, files)
  {
    var t := Steps(ctx, s, files);
    forall i | 0 <= i < |files| && !files[i].isDirectory
      ensures !NeedsUpload(ctx, t.bucket, RemoteKey(ctx, files[i]), files[i])
    {
      SelectiveRunBringsBucketUpToDate(ctx, s, files, i);
    }
    UpToDateRunIsNoOp(ctx, t, files);
  }

  // ---------------------------------------------------------------------------
  // The invalidation batch

  lemma {:induction false} PathEntriesCons(key: string, keys: seq<string>)
    ensures PathEntries([key] + keys) == PathEntry(key) + PathEntries(keys)
    decreases |keys|
  {
    if keys != [] {
      var init := keys[..|keys| - 1];
      assert ([key] + keys)[..|keys|] == [key] + init;
      assert ([key] + keys)[|keys|] == keys[|keys| - 1];
      PathEntriesCons(key, init);
    }
  }

  /** The index of the first '<' at or after `from`, or the length. */
  function FindLt(text: string, from: nat): (i: nat)
    requires from <= |text|
    ensures from <= i <= |text|
    ensures forall j :: from <= j < i ==> text[j] != '<'
    ensures i < |text| ==> text[i] == '<'
    decreases |text| - from
  {
    if from == |text| || text[from] == '<' then from else FindLt(text, from + 1)
  }

  /** Reads back the keys of a sequence of `<Path>/key</Path>` entries. */
  function ParsePathEntries(text: string): Option<seq<string>>
    decreases |text|
  {
    if text == "" then Some([])
    else if |text| >= 7 && text[..7] == "<Path>/" then
      var end := FindLt(text, 7);
      if end + 7 <= |text| && text[end..end + 7] == "</Path>" then
        match ParsePathEntries(text[end + 7..])
        case Some(rest) => Some([text[7..end]] + rest)
        case None => None
      else None
    else None
  }

  /** The key of the first entry is everything up to the next '<'. */
  lemma FirstEntry(key: string, rest: string)
    requires '<' !in key
    ensures var text := PathEntry(key) + rest;
            FindLt(text, 7) == 7 + |key|
            && text[..7] == "<Path>/" && text[7..7 + |key|] == key
            && text[7 + |key|..14 + |key|] == "</Path>" && text[14 + |key|..] == rest
  {
    var text := PathEntry(key) + rest;
    assert text == "<Path>/" + key + "</Path>" + rest;
    forall j | 7 <= j < 7 + |key| ensures text[j] != '<' {
      assert text[j] == key[j - 7];
    }
    assert text[7 + |key|] == '<';
  }

  /** Each key becomes exactly one entry, in order: the entries read back as the keys. */
  lemma {:induction false} ParsePathEntriesRoundTrip(keys: seq<string>)
    requires forall i :: 0 <= i < |keys| ==> '<' !in keys[i]
    ensures ParsePathEntries(PathEntries(keys)) == Some(keys)
    decreases |keys|
  {
    if keys != [] {
      var key, rest := keys[0], keys[1..];
      assert keys == [key] + rest;
      PathEntriesCons(key, rest);
      FirstEntry(key, PathEntries(rest));
      ParsePathEntriesRoundTrip(rest);
    }
  }

  /** The batch body opens with `<InvalidationBatch>` followed by the path entries of the keys. */
  lemma BatchBodyStartsWithEntries(keys: seq<string>, distId: string, epochSeconds: nat)
    ensures |BatchBody(keys, distId, epochSeconds)| >= 19 + |PathEntries(keys)|
    ensures BatchBody(keys, distId, epochSeconds)[..19] == "<InvalidationBatch>"
    ensures BatchBody(keys, distId, epochSeconds)[19..19 + |PathEntries(keys)|] == PathEntries(keys)
  {
    EntriesAfterHead(PathEntries(keys), CallerReference(distId, epochSeconds) + "</InvalidationBatch>");
  }

  /** Whatever follows them, the entries sit right after the opening tag. */
  lemma EntriesAfterHead(entries: string, tail: string)
    ensures var body := "<InvalidationBatch>" + entries + tail;
            && |body| >= 19 + |entries|
            && body[..19] == "<InvalidationBatch>"
            && body[19..19 + |entries|] == entries
  {
  }

  /** The caller reference's timestamp reads back as the number it was made from. */
  lemma {:induction false} NatToStringRoundTrip(n: nat)
    ensures DecimalValue(NatToString(n)) == n
  {
    if n >= 10 {
      var prefix := NatToString(n / 10);
      assert (prefix + [DigitChar(n % 10)])[..|prefix|] == prefix;
      NatToStringRoundTrip(n / 10);
    }
  }
}
