/**
 * Asset versioning rules of jammit-s3: when versioned assets or CloudFront
 * invalidation is in use, how an asset path is prefixed with the release's
 * version token, which host serves assets, and how stylesheet URLs are
 * rewritten.  The version token, which the original reads from the process
 * environment, is an explicit parameter here.
 */
module S3AssetsVersioning {
  import opened Wrappers

  /** The `:use_cloudfront` setting: absent or false, or a truthy value.  A
      truthy value is compared with the strings "version" and "invalidate";
      a truthy value that is not a string is any other string here. */
  datatype CloudfrontSetting = Disabled | Enabled(value: string)

  /** A host setting is either one host name or an array of host names. */
  datatype HostSetting = Hostname(name: string) | Hostnames(names: seq<string>)

  /** The `:ssl` setting: the key is absent, or present with a truthy or falsy value. */
  datatype SslSetting = SslUnset | SslSet(enabled: bool)

  /** The part of the Jammit configuration the versioning rules read. */
  datatype Settings = Settings(
    packageAssets: bool,
    useCloudfront: CloudfrontSetting,
    cloudfrontCname: Option<HostSetting>,
    cloudfrontDomain: Option<string>,
    s3Bucket: string,   // a missing bucket name interpolates as ""
    ssl: SslSetting)

  // ---------------------------------------------------------------------------
  // Modes

  /** Versioned assets: every asset lives under a per-release path prefix. */
  function UseVersionedAssets(s: Settings): (r: bool)
    ensures r ==> s.packageAssets && s.useCloudfront.Enabled?
  {
    s.packageAssets && s.useCloudfront == Enabled("version")
  }

  /** CloudFront invalidation: changed objects are invalidated after upload. */
  function UseInvalidation(s: Settings): (r: bool)
    ensures r ==> s.packageAssets && s.useCloudfront.Enabled?
    ensures r ==> !UseVersionedAssets(s)
  {
    s.packageAssets && s.useCloudfront == Enabled("invalidate")
  }

  /** The two modes are never on together, and both are off without packaging. */
  lemma ModesExclusive(s: Settings)
    ensures !(UseVersionedAssets(s) && UseInvalidation(s))
    ensures !s.packageAssets ==> !UseVersionedAssets(s) && !UseInvalidation(s)
  {
  }

  // ---------------------------------------------------------------------------
  // Path versioning

  /** A rooted path starts with "/"; every other path, "" included, is relative. */
  predicate IsRooted(path: string)
  {
    |path| > 0 && path[0] == '/'
  }

  /**
   * The path under which an asset is served in this release.  Rooted paths get
   * "/<version>" in front; relative paths get "<version>/" in front only when
   * `versionRelativePaths` holds, and are otherwise left alone.  Without
   * versioning, for the empty path and for the empty version token the path
   * is unchanged.
   */
  function VersionedPath(s: Settings, version: string, path: string, versionRelativePaths: bool): (r: string)
    ensures !UseVersionedAssets(s) ==> r == path
    ensures path == "" || version == "" ==> r == path
    ensures UseVersionedAssets(s) && version != "" && IsRooted(path) ==> r == "/" + version + path
    ensures UseVersionedAssets(s) && version != "" && path != "" && !IsRooted(path) ==>
              r == if versionRelativePaths then version + "/" + path else path
    ensures IsSuffix(path, r)
    ensures !IsRooted(version) ==> (IsRooted(r) <==> IsRooted(path))
  {
    if !UseVersionedAssets(s) then path
    else if path == "" || (!IsRooted(path) && !versionRelativePaths) then path
    else if version == "" then path
    else
      var prefix := if !IsRooted(path) then version + "/" else "/" + version;
      prefix + path
  }

  /** With versioning off the result never depends on the version token. */
  lemma VersionedPathIgnoresVersionWhenDisabled(s: Settings, v1: string, v2: string, path: string, flag: bool)
    requires !UseVersionedAssets(s)
    ensures VersionedPath(s, v1, path, flag) == VersionedPath(s, v2, path, flag) == path
  {
  }

  /** Removes the prefix that `VersionedPath` adds, by looking at the result only. */
  function UnversionedPath(s: Settings, version: string, r: string, versionRelativePaths: bool): string
  {
    if !UseVersionedAssets(s) || version == "" then r
    else if |r| > |version| && r[..|version| + 1] == "/" + version && IsRooted(r[|version| + 1..]) then
      r[|version| + 1..]
    else if versionRelativePaths && |r| > |version| + 1 && r[..|version| + 1] == version + "/" then
      r[|version| + 1..]
    else r
  }

  /** Versioning a path can be undone, so distinct paths keep distinct versioned paths. */
  lemma {:induction false} UnversionedPathOfVersionedPath(s: Settings, version: string, path: string, flag: bool)
    ensures UnversionedPath(s, version, VersionedPath(s, version, path, flag), flag) == path
  {
    var r := VersionedPath(s, version, path, flag);
    var n := |version| + 1;
    if UseVersionedAssets(s) && version != "" && path != "" {
      if IsRooted(path) {
        assert r == ("/" + version) + path;
        assert r[..n] == "/" + version && r[n..] == path;
      } else if flag {
        assert r == (version + "/") + path;
        assert r[..n] == version + "/" && r[n..] == path;
        assert !(r[..n] == "/" + version && IsRooted(r[n..]));
      } else {
        assert r == path && !IsRooted(r);
      }
    }
  }

  lemma VersionedPathInjective(s: Settings, version: string, p1: string, p2: string, flag: bool)
    requires VersionedPath(s, version, p1, flag) == VersionedPath(s, version, p2, flag)
    ensures p1 == p2
  {
    UnversionedPathOfVersionedPath(s, version, p1, flag);
    UnversionedPathOfVersionedPath(s, version, p2, flag);
  }

  /** The expectations on `versioned_path` for rooted paths, versioning on, version "v1". */
  lemma VersionedPathRootedExamples(s: Settings)
    requires UseVersionedAssets(s)
    ensures VersionedPath(s, "v1", "/", false) == "/v1/"
    ensures VersionedPath(s, "v1", "/dir/file.ext", false) == "/v1/dir/file.ext"
  {
  }

  /** The expectations on `versioned_path` for relative paths, versioning on, version "v1". */
  lemma VersionedPathRelativeExamples(s: Settings)
    requires UseVersionedAssets(s)
    ensures VersionedPath(s, "v1", "../dir/file.ext", false) == "../dir/file.ext"
    ensures VersionedPath(s, "v1", "", true) == ""
    ensures VersionedPath(s, "v1", "./dir/file.ext", true) == "v1/./dir/file.ext"
  {
  }

  // ---------------------------------------------------------------------------
  // Stylesheet URL rewriting

  /**
   * The replacement for Jammit's compressor hook that rewrites `url(path)` in
   * stylesheets: with versioned assets the path is versioned with relative
   * paths left alone, otherwise Jammit's own rewrite (`original`) decides.
   */
  function RewriteAssetPath(s: Settings, version: string, path: string, filePath: string,
                            original: (string, string) -> string): (r: string)
    ensures UseVersionedAssets(s) ==> r == VersionedPath(s, version, path, false)
    ensures !UseVersionedAssets(s) ==> r == original(path, filePath)
    ensures UseVersionedAssets(s) && !IsRooted(path) ==> r == path
    ensures UseVersionedAssets(s) && version != "" && IsRooted(path) ==> r == "/" + version + path
  {
    if UseVersionedAssets(s) then VersionedPath(s, version, path, false)
    else original(path, filePath)
  }

  // ---------------------------------------------------------------------------
  // Asset host selection

  /** ASCII white space; ActiveSupport also counts other Unicode spaces. */
  predicate IsSpace(c: char)
  {
    c == ' ' || c == '\t' || c == '\n' || c == '\r' || c == '\U{000C}' || c == '\U{000B}'
  }

  /** `present?` on a string: it holds some non-space character. */
  predicate IsPresent(text: string)
  {
    exists i :: 0 <= i < |text| && !IsSpace(text[i])
  }

  /** `present?` on a host setting: a non-blank name or a non-empty array. */
  predicate HostPresent(h: HostSetting)
  {
    match h
    case Hostname(name) => IsPresent(name)
    case Hostnames(names) => |names| > 0
  }

  /** CloudFront with both a CNAME and a distribution domain configured. */
  predicate CnameInUse(s: Settings)
  {
    && s.useCloudfront.Enabled?
    && s.cloudfrontCname.Some? && HostPresent(s.cloudfrontCname.value)
    && s.cloudfrontDomain.Some? && IsPresent(s.cloudfrontDomain.value)
  }

  /** CloudFront with a distribution domain configured. */
  predicate DomainInUse(s: Settings)
  {
    s.useCloudfront.Enabled? && s.cloudfrontDomain.Some? && IsPresent(s.cloudfrontDomain.value)
  }

  /** The bucket's own S3 host name. */
  function BucketHost(s: Settings): string
  {
    s.s3Bucket + ".s3.amazonaws.com"
  }

  /** The hosts chosen once when the asset-host procedure is built. */
  datatype AssetHosts = AssetHosts(plain: HostSetting, secure: string)

  function ResolveHosts(s: Settings): (h: AssetHosts)
    ensures h.secure == if DomainInUse(s) then s.cloudfrontDomain.value else BucketHost(s)
    ensures CnameInUse(s) ==> h.plain == s.cloudfrontCname.value
    ensures !CnameInUse(s) ==> h.plain == Hostname(h.secure)
    ensures h.plain.Hostnames? ==> |h.plain.names| > 0
  {
    if CnameInUse(s) then
      AssetHosts(s.cloudfrontCname.value, s.cloudfrontDomain.value)
    else if DomainInUse(s) then
      AssetHosts(Hostname(s.cloudfrontDomain.value), s.cloudfrontDomain.value)
    else
      AssetHosts(Hostname(BucketHost(s)), BucketHost(s))
  }

  /** "http://" exactly when the `:ssl` key is present and falsy, else "https://". */
  function Protocol(ssl: SslSetting): (p: string)
    ensures p == "http://" <==> ssl == SslSet(false)
    ensures p == "http://" || p == "https://"
  {
    match ssl
    case SslUnset => "https://"
    case SslSet(enabled) => if enabled then "https://" else "http://"
  }

  /** Ruby's `hash % size` for a positive size: the remainder with the divisor's sign. */
  function HostIndex(sourceHash: int, size: nat): (i: nat)
    requires size > 0
    ensures i < size
  {
    sourceHash % size
  }

  /**
   * The asset host for one asset request.  `sourceHash` stands for Ruby's
   * `String#hash` of the asset source, which is not stable across processes.
   * Secure requests never go to the CNAME, which CloudFront does not serve
   * over HTTPS.
   */
  function AssetHost(s: Settings, sourceHash: int, requestSsl: bool): (r: string)
    ensures requestSsl || !CnameInUse(s) ==>
              r == Protocol(s.ssl) + if DomainInUse(s) then s.cloudfrontDomain.value else BucketHost(s)
    ensures !requestSsl && CnameInUse(s) && s.cloudfrontCname.value.Hostname? ==>
              r == Protocol(s.ssl) + s.cloudfrontCname.value.name
    ensures !requestSsl && CnameInUse(s) && s.cloudfrontCname.value.Hostnames? ==>
              var names := s.cloudfrontCname.value.names;
              |names| > 0 && r == Protocol(s.ssl) + names[HostIndex(sourceHash, |names|)]
  {
    var hosts := ResolveHosts(s);
    var protocol := Protocol(s.ssl);
    if requestSsl then protocol + hosts.secure
    else
      match hosts.plain
      case Hostnames(names) => protocol + names[HostIndex(sourceHash, |names|)]
      case Hostname(name) => protocol + name
  }
}
