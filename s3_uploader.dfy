/**
 * The S3 uploader of jammit-s3: the list of globs to push, the per-file
 * decision (skip directories, derive the remote key, handle pre-gzipped
 * files, upload everything under a versioned key or only what changed), the
 * stored objects' options, the change set of replaced keys, and the CloudFront
 * invalidation request built from it.
 *
 * MD5, the MIME lookup, glob expansion, HMAC signing and the HTTPS call are
 * foreign; they are function-valued parameters.  The bucket is a map from key
 * to etag.
 */
module S3Uploader {
  import opened Wrappers
  import opened S3AssetsVersioning

  newtype byte = x: int | 0 <= x < 256

  /** One result of expanding a glob: a local path, whether it is a directory, its bytes. */
  datatype FileEntry = FileEntry(localPath: string, isDirectory: bool, content: seq<byte>)

  /** `:s3_upload_images`: only the value `false` turns image upload off. */
  datatype ImagesSetting = ImagesUnset | ImagesFalse | ImagesOther

  /** `:s3_upload_files`: a String, an Array of globs, or anything else (ignored). */
  datatype ExtraFiles = NoExtraGlobs | ExtraGlob(glob: string) | ExtraGlobs(globs: seq<string>)

  /** The uploader's configuration, after options and configuration are merged. */
  datatype UploadConfig = UploadConfig(
    assetRoot: string,
    gzipAssets: bool,
    packagePath: string,
    uploadImages: ImagesSetting,
    uploadFiles: ExtraFiles,
    cacheControl: Option<string>,
    expires: Option<string>,
    acl: Option<string>,
    accessKeyId: string,
    secretAccessKey: string,
    cloudfrontDistId: string)

  /** Everything one run depends on besides the bucket. */
  datatype Context = Context(
    settings: Settings,
    config: UploadConfig,
    version: string,                    // the release's asset version token
    md5: seq<byte> -> string,           // MD5 hex digest
    mime: string -> string,             // content type looked up by path
    hmac: (string, string) -> string)   // Base64 HMAC-SHA1 of (secret, message), newlines removed

  // ---------------------------------------------------------------------------
  // Globs

  function PackageGlob(packagePath: string, pattern: string): string
  {
    "public/" + packagePath + "/**/" + pattern
  }

  const ImagesGlob: string := "public/images/**/*"

  function ExtraGlobList(extra: ExtraFiles): seq<string>
  {
    match extra
    case NoExtraGlobs => []
    case ExtraGlob(glob) => [glob]
    case ExtraGlobs(globs) => globs
  }

  /** How many globs come before the configured extra ones. */
  function BuiltinGlobCount(c: UploadConfig): nat
  {
    (if c.gzipAssets then 1 else 2) + (if c.uploadImages == ImagesFalse then 0 else 1)
  }

  /** The built-in globs differ from one another: each ends in a different character. */
  lemma BuiltinGlobsDistinct(packagePath: string)
    ensures PackageGlob(packagePath, "*.gz") != PackageGlob(packagePath, "*.css")
    ensures PackageGlob(packagePath, "*.gz") != PackageGlob(packagePath, "*.js")
    ensures PackageGlob(packagePath, "*.css") != PackageGlob(packagePath, "*.js")
    ensures ImagesGlob !in [PackageGlob(packagePath, "*.gz"), PackageGlob(packagePath, "*.css"), PackageGlob(packagePath, "*.js")]
  {
    var gz, css, js := PackageGlob(packagePath, "*.gz"), PackageGlob(packagePath, "*.css"), PackageGlob(packagePath, "*.js");
    assert gz[|gz| - 1] == 'z' && css[|css| - 1] == 's' && js[|js| - 1] == 's';
    assert css[|css| - 2] == 's' && js[|js| - 2] == 'j';
    assert ImagesGlob[|ImagesGlob| - 1] == '*';
  }

  /**
   * The globs pushed by one run, in order: the package output (pre-gzipped
   * files only, or stylesheets then scripts), the images unless turned off,
   * then the configured extra globs.
   */
  function GlobList(c: UploadConfig): (globs: seq<string>)
    ensures |globs| == BuiltinGlobCount(c) + |ExtraGlobList(c.uploadFiles)|
    ensures globs[BuiltinGlobCount(c)..] == ExtraGlobList(c.uploadFiles)
    ensures c.gzipAssets ==>
              && globs[0] == PackageGlob(c.packagePath, "*.gz")
              && PackageGlob(c.packagePath, "*.css") !in globs[..BuiltinGlobCount(c)]
              && PackageGlob(c.packagePath, "*.js") !in globs[..BuiltinGlobCount(c)]
    ensures !c.gzipAssets ==>
              && globs[..2] == [PackageGlob(c.packagePath, "*.css"), PackageGlob(c.packagePath, "*.js")]
              && PackageGlob(c.packagePath, "*.gz") !in globs[..BuiltinGlobCount(c)]
    ensures ImagesGlob in globs[..BuiltinGlobCount(c)] <==> c.uploadImages != ImagesFalse
  {
    var package :=
      if c.gzipAssets then [PackageGlob(c.packagePath, "*.gz")]
      else [PackageGlob(c.packagePath, "*.css"), PackageGlob(c.packagePath, "*.js")];
    var images := if c.uploadImages == ImagesFalse then [] else [ImagesGlob];
    BuiltinGlobsDistinct(c.packagePath);
    assert package + images == (package + images + ExtraGlobList(c.uploadFiles))[..BuiltinGlobCount(c)];
    package + images + ExtraGlobList(c.uploadFiles)
  }

  // ---------------------------------------------------------------------------
  // Remote keys

  /** Removes a leading "<asset root>/public/" from a local path. */
  function StripPublicRoot(assetRoot: string, localPath: string): (remote: string)
    ensures assetRoot + "/public/" <= localPath ==> assetRoot + "/public/" + remote == localPath
    ensures !(assetRoot + "/public/" <= localPath) ==> remote == localPath
  {
    var prefix := assetRoot + "/public/";
    if prefix <= localPath then localPath[|prefix|..] else localPath
  }

  /** The last component of a path: everything after its last "/". */
  function Basename(path: string): (b: string)
    ensures IsSuffix(b, path) && '/' !in b
  {
    if path == [] || path[|path| - 1] == '/' then []
    else Basename(path[..|path| - 1]) + [path[|path| - 1]]
  }

  /**
   * The basename is the whole path or starts just after a "/": with
   * `Basename`'s own contract, it is everything after the last "/".
   */
  lemma {:induction false} BasenameFollowsSlash(path: string)
    ensures |Basename(path)| < |path| ==> path[|path| - |Basename(path)| - 1] == '/'
  {
    if path != [] && path[|path| - 1] != '/' {
      var init := path[..|path| - 1];
      BasenameFollowsSlash(init);
      if |Basename(init)| < |init| {
        assert path[|path| - |Basename(path)| - 1] == init[|init| - |Basename(init)| - 1];
      }
    }
  }

  /** `File.extname(path) == ".gz"`: leading dots of the basename do not start an extension. */
  predicate HasGzExtension(path: string)
  {
    var b := Basename(path);
    |b| >= 3 && b[|b| - 3..] == ".gz" && exists i :: 0 <= i < |b| - 3 && b[i] != '.'
  }

  /** A path with a ".gz" extension ends in ".gz", so removing three characters removes it. */
  lemma GzSuffix(path: string)
    requires HasGzExtension(path)
    ensures |path| >= 3 && path[..|path| - 3] + ".gz" == path
  {
    var b := Basename(path);
    assert path[|path| - |b|..] == b;
    assert path[|path| - 3..] == b[|b| - 3..];
    assert path == path[..|path| - 3] + path[|path| - 3..];
  }

  /** The plan for one file before versioning: its key and whether it is pre-gzipped. */
  datatype UploadPlan = UploadPlan(remotePath: string, gzip: bool)

  function PlanFile(assetRoot: string, localPath: string): (plan: UploadPlan)
    ensures plan.gzip <==> HasGzExtension(StripPublicRoot(assetRoot, localPath))
    ensures plan.gzip ==> plan.remotePath + ".gz" == StripPublicRoot(assetRoot, localPath)
    ensures !plan.gzip ==> plan.remotePath == StripPublicRoot(assetRoot, localPath)
  {
    var remote := StripPublicRoot(assetRoot, localPath);
    if HasGzExtension(remote) then
      GzSuffix(remote);
      UploadPlan(remote[..|remote| - 3], true)
    else UploadPlan(remote, false)
  }

  /** The key a non-directory file is compared and stored under in selective mode. */
  function RemoteKey(ctx: Context, f: FileEntry): string
  {
    PlanFile(ctx.config.assetRoot, f.localPath).remotePath
  }

  /** The key a non-directory file is stored under in versioned mode. */
  function VersionedKey(ctx: Context, f: FileEntry): string
  {
    VersionedPath(ctx.settings, ctx.version, RemoteKey(ctx, f), true)
  }

  // ---------------------------------------------------------------------------
  // Stored objects

  datatype OptionKey = CacheControl | ContentType | ContentEncoding | Expires | Access

  /** An object put into the bucket: its key, its body and its options. */
  datatype StoredObject = StoredObject(key: string, body: seq<byte>, options: map<OptionKey, string>)

  /** The options stored with an object. */
  function ObjectOptions(c: UploadConfig, mime: string -> string, remotePath: string, gzip: bool): (opts: map<OptionKey, string>)
    ensures ContentType in opts && opts[ContentType] == mime(remotePath)
    ensures ContentEncoding in opts <==> gzip
    ensures ContentEncoding in opts ==> opts[ContentEncoding] == "gzip"
    ensures CacheControl in opts <==> c.cacheControl.Some?
    ensures CacheControl in opts ==> opts[CacheControl] == c.cacheControl.value
    ensures Expires in opts <==> c.expires.Some?
    ensures Expires in opts ==> opts[Expires] == c.expires.value
    ensures Access in opts <==> c.acl.Some?
    ensures Access in opts ==> opts[Access] == c.acl.value
  {
    var withCache := if c.cacheControl.Some? then map[CacheControl := c.cacheControl.value] else map[];
    var withType := withCache[ContentType := mime(remotePath)];
    var withEncoding := if gzip then withType[ContentEncoding := "gzip"] else withType;
    var withExpires := if c.expires.Some? then withEncoding[Expires := c.expires.value] else withEncoding;
    if c.acl.Some? then withExpires[Access := c.acl.value] else withExpires
  }

  function ObjectFor(ctx: Context, key: string, f: FileEntry, gzip: bool): StoredObject
  {
    StoredObject(key, f.content, ObjectOptions(ctx.config, ctx.mime, key, gzip))
  }

  // ---------------------------------------------------------------------------
  // One run, as values

  /** What a run changes: the bucket's etags, the change set, and the objects stored so far. */
  datatype RunState = RunState(bucket: map<string, string>, changed: seq<string>, stored: seq<StoredObject>)

  /** Putting an object: it is logged and the bucket now reports the MD5 of its body. */
  function Store(ctx: Context, s: RunState, obj: StoredObject): (r: RunState)
    ensures r.stored == s.stored + [obj] && r.changed == s.changed
    ensures r.bucket.Keys == s.bucket.Keys + {obj.key}
    ensures r.bucket[obj.key] == ctx.md5(obj.body)
    ensures forall k :: k in s.bucket && k != obj.key ==> r.bucket[k] == s.bucket[k]
  {
    RunState(s.bucket[obj.key := ctx.md5(obj.body)], s.changed, s.stored + [obj])
  }

  /** The selective-mode change test: no object under the key, or a different etag. */
  predicate NeedsUpload(ctx: Context, bucket: map<string, string>, key: string, f: FileEntry)
  {
    key !in bucket || bucket[key] != ctx.md5(f.content)
  }

  /** The decision for one expanded file. */
  function Step(ctx: Context, s: RunState, f: FileEntry): (r: RunState)
    ensures f.isDirectory ==> r == s
    ensures !f.isDirectory && UseVersionedAssets(ctx.settings) ==>
              r.stored == s.stored + [ObjectFor(ctx, VersionedKey(ctx, f), f, PlanFile(ctx.config.assetRoot, f.localPath).gzip)]
              && r.bucket == s.bucket[VersionedKey(ctx, f) := ctx.md5(f.content)]
              && r.changed == s.changed
    ensures !f.isDirectory && !UseVersionedAssets(ctx.settings) ==>
              var key := RemoteKey(ctx, f);
              && (NeedsUpload(ctx, s.bucket, key, f) ==>
                    && r.stored == s.stored + [ObjectFor(ctx, key, f, PlanFile(ctx.config.assetRoot, f.localPath).gzip)]
                    && r.bucket == s.bucket[key := ctx.md5(f.content)])
              && (!NeedsUpload(ctx, s.bucket, key, f) ==> r == s)
              && r.changed == if UseInvalidation(ctx.settings) && key in s.bucket && NeedsUpload(ctx, s.bucket, key, f)
                              then s.changed + [key] else s.changed
  {
    if f.isDirectory then s
    else
      var plan := PlanFile(ctx.config.assetRoot, f.localPath);
      if UseVersionedAssets(ctx.settings) then
        Store(ctx, s, ObjectFor(ctx, VersionedPath(ctx.settings, ctx.version, plan.remotePath, true), f, plan.gzip))
      else if NeedsUpload(ctx, s.bucket, plan.remotePath, f) then
        var r := Store(ctx, s, ObjectFor(ctx, plan.remotePath, f, plan.gzip));
        if UseInvalidation(ctx.settings) && plan.remotePath in s.bucket then r.(changed := r.changed + [plan.remotePath])
        else r
      else s
  }

  /** The decisions for the files of one glob, in order. */
  function Steps(ctx: Context, s: RunState, files: seq<FileEntry>): RunState
  {
    if files == [] then s
    else Step(ctx, Steps(ctx, s, files[..|files| - 1]), files[|files| - 1])
  }

  /** Dir["<asset root>/<glob>"], for each glob in order. */
  function RunGlobs(ctx: Context, s: RunState, globs: seq<string>, expand: string -> seq<FileEntry>): RunState
  {
    if globs == [] then s
    else Steps(ctx, RunGlobs(ctx, s, globs[..|globs| - 1], expand),
               expand(ctx.config.assetRoot + "/" + globs[|globs| - 1]))
  }

  // ---------------------------------------------------------------------------
  // Invalidation

  function PathEntry(key: string): string
  {
    "<Path>/" + key + "</Path>"
  }

  function PathEntries(keys: seq<string>): string
  {
    if keys == [] then "" else PathEntries(keys[..|keys| - 1]) + PathEntry(keys[|keys| - 1])
  }

  function DigitChar(d: nat): char
    requires d < 10
  {
    ('0' as int + d) as char
  }

  /** Decimal form of a non-negative integer, as Ruby's `Integer#to_s`. */
  function NatToString(n: nat): (r: string)
    ensures |r| > 0
    ensures forall i :: 0 <= i < |r| ==> '0' <= r[i] <= '9'
  {
    if n < 10 then [DigitChar(n)] else NatToString(n / 10) + [DigitChar(n % 10)]
  }

  /** The value of a string of decimal digits. */
  function DecimalValue(digits: string): nat
    requires forall i :: 0 <= i < |digits| ==> '0' <= digits[i] <= '9'
  {
    if digits == [] then 0
    else 10 * DecimalValue(digits[..|digits| - 1]) + (digits[|digits| - 1] as int - '0' as int)
  }

  /** The caller reference: the distribution id and the request's Unix time. */
  function CallerReference(distId: string, epochSeconds: nat): string
  {
    "<CallerReference>" + distId + "_" + NatToString(epochSeconds) + "</CallerReference>"
  }

  /** The batch body: one path entry per key in order, then the caller reference. */
  function BatchBody(keys: seq<string>, distId: string, epochSeconds: nat): string
  {
    "<InvalidationBatch>" + PathEntries(keys) + (CallerReference(distId, epochSeconds) + "</InvalidationBatch>")
  }

  datatype Request = Request(path: string, headers: seq<(string, string)>, body: string)

  datatype Response = Response(code: string, body: string)

  /** What the invalidation reports: success, or the diagnostics of a failure. */
  datatype InvalidationResult =
    | Succeeded
    | Failed(code: string, requestPath: string, requestHeaders: seq<(string, string)>,
             requestBody: string, responseBody: string)

  function InvalidationPath(distId: string): string
  {
    "/2010-11-01/distribution/" + distId + "/invalidation"
  }

  /**
   * The request `invalidate_cache` posts, or None when there is nothing to
   * invalidate.  `date` is the request time as an HTTP date and
   * `epochSeconds` the same time as a Unix timestamp.
   */
  function InvalidationRequest(ctx: Context, keys: seq<string>, date: string, epochSeconds: nat): (r: Option<Request>)
    ensures r.None? <==> keys == []
    ensures r.Some? ==>
              && r.value.path == InvalidationPath(ctx.config.cloudfrontDistId)
              && r.value.body == BatchBody(keys, ctx.config.cloudfrontDistId, epochSeconds)
              && ("Authorization", "AWS " + ctx.config.accessKeyId + ":" + ctx.hmac(ctx.config.secretAccessKey, date)) in r.value.headers
              && ("x-amz-date", date) in r.value.headers
              && ("Content-Type", "text/xml") in r.value.headers
  {
    if keys == [] then None
    else
      var headers := [("x-amz-date", date), ("Content-Type", "text/xml"),
                      ("Authorization", "AWS " + ctx.config.accessKeyId + ":" + ctx.hmac(ctx.config.secretAccessKey, date))];
      Some(Request(InvalidationPath(ctx.config.cloudfrontDistId), headers,
                   BatchBody(keys, ctx.config.cloudfrontDistId, epochSeconds)))
  }

  /** Only status "201" is a success; anything else carries the diagnostics. */
  function ResultMessage(req: Request, res: Response): (r: InvalidationResult)
    ensures r.Succeeded? <==> res.code == "201"
    ensures r.Failed? ==> r == Failed(res.code, req.path, req.headers, req.body, res.body)
  {
    if res.code == "201" then Succeeded
    else Failed(res.code, req.path, req.headers, req.body, res.body)
  }

  // ---------------------------------------------------------------------------
  // The uploader object

  class Uploader {
    const ctx: Context
    /** The bucket's keys and their etags. */
    var bucket: map<string, string>
    /** Keys replaced in this run, in upload order (`@changed_files`). */
    var changedFiles: seq<string>
    /** Every object stored in this run, in order. */
    var stored: seq<StoredObject>

    function State(): RunState
      reads this
    {
      RunState(bucket, changedFiles, stored)
    }

    /** A fresh run against a bucket whose current etags are `bucket`. */
    constructor (ctx: Context, bucket: map<string, string>)
      ensures this.ctx == ctx
      ensures State() == RunState(bucket, [], [])
    {
      this.ctx := ctx;
      this.bucket := bucket;
      changedFiles := [];
      stored := [];
    }

    /** Puts one object, filling its options one by one. */
    method UploadFile(localPath: string, content: seq<byte>, remotePath: string, useGzip: bool)
      modifies this
      ensures State() == Store(ctx, old(State()),
                               StoredObject(remotePath, content, ObjectOptions(ctx.config, ctx.mime, remotePath, useGzip)))
    {
      var options: map<OptionKey, string> := map[];
      if ctx.config.cacheControl.Some? {
        options := options[CacheControl := ctx.config.cacheControl.value];
      }
      options := options[ContentType := ctx.mime(remotePath)];
      if useGzip {
        options := options[ContentEncoding := "gzip"];
      }
      if ctx.config.expires.Some? {
        options := options[Expires := ctx.config.expires.value];
      }
      if ctx.config.acl.Some? {
        options := options[Access := ctx.config.acl.value];
      }
      stored := stored + [StoredObject(remotePath, content, options)];
      bucket := bucket[remotePath := ctx.md5(content)];
    }

    /** The decision for one expanded file, the body of `upload_from_glob`'s loop. */
    method UploadEntry(f: FileEntry)
      modifies this
      ensures State() == Step(ctx, old(State()), f)
    {
      if f.isDirectory {
        return;
      }
      var remotePath := StripPublicRoot(ctx.config.assetRoot, f.localPath);
      var useGzip := false;
      if HasGzExtension(remotePath) {
        useGzip := true;
        remotePath := remotePath[..|remotePath| - 3];
      }
      if UseVersionedAssets(ctx.settings) {
        remotePath := VersionedPath(ctx.settings, ctx.version, remotePath, true);
        UploadFile(f.localPath, f.content, remotePath, useGzip);
      } else {
        var obj: Option<string> := if remotePath in bucket then Some(bucket[remotePath]) else None;
        if obj.None? || obj.value != ctx.md5(f.content) {
          UploadFile(f.localPath, f.content, remotePath, useGzip);
          if UseInvalidation(ctx.settings) && obj.Some? {
            changedFiles := changedFiles + [remotePath];
          }
        }
      }
    }

    /** Processes the files one glob expanded to. */
    method UploadFromGlob(files: seq<FileEntry>)
      modifies this
      ensures State() == Steps(ctx, old(State()), files)
    {
      for i := 0 to |files|
        invariant State() == Steps(ctx, old(State()), files[..i])
      {
        assert files[..i + 1][..i] == files[..i];
        UploadEntry(files[i]);
      }
      assert files[..|files|] == files;
    }

    /** Builds the invalidation request, collecting the path entries in a loop. */
    method InvalidateCache(files: seq<string>, date: string, epochSeconds: nat, post: Request -> Response)
      returns (request: Option<Request>, result: Option<InvalidationResult>)
      ensures request == InvalidationRequest(ctx, files, date, epochSeconds)
      ensures result == if request.None? then None else Some(ResultMessage(request.value, post(request.value)))
    {
      if files == [] {
        return None, None;
      }
      var paths := "";
      for i := 0 to |files|
        invariant paths == PathEntries(files[..i])
      {
        assert files[..i + 1][..i] == files[..i];
        paths := paths + "<Path>/" + files[i] + "</Path>";
      }
      assert files[..|files|] == files;
      var signature := ctx.hmac(ctx.config.secretAccessKey, date);
      var headers := [("x-amz-date", date), ("Content-Type", "text/xml"),
                      ("Authorization", "AWS " + ctx.config.accessKeyId + ":" + signature)];
      var reference := "<CallerReference>" + ctx.config.cloudfrontDistId + "_" + NatToString(epochSeconds) + "</CallerReference>";
      var body := "<InvalidationBatch>" + paths + (reference + "</InvalidationBatch>");
      var req := Request(InvalidationPath(ctx.config.cloudfrontDistId), headers, body);
      request := Some(req);
      result := Some(ResultMessage(req, post(req)));
    }

    /** The glob list of `upload`, built by appending as the original does. */
    method BuildGlobs() returns (globs: seq<string>)
      ensures globs == GlobList(ctx.config)
    {
      globs := [];
      if ctx.config.gzipAssets {
        globs := globs + [PackageGlob(ctx.config.packagePath, "*.gz")];
      } else {
        globs := globs + [PackageGlob(ctx.config.packagePath, "*.css")];
        globs := globs + [PackageGlob(ctx.config.packagePath, "*.js")];
      }
      if ctx.config.uploadImages != ImagesFalse {
        globs := globs + [ImagesGlob];
      }
      match ctx.config.uploadFiles {
        case ExtraGlob(glob) => globs := globs + [glob];
        case ExtraGlobs(extra) => globs := globs + extra;
        case NoExtraGlobs =>
      }
    }

    /** Pushes the files of each glob in turn, as `globs.each` does. */
    method UploadGlobs(globs: seq<string>, expand: string -> seq<FileEntry>)
      modifies this
      ensures State() == RunGlobs(ctx, old(State()), globs, expand)
    {
      for i := 0 to |globs|
        invariant State() == RunGlobs(ctx, old(State()), globs[..i], expand)
      {
        assert globs[..i + 1][..i] == globs[..i];
        UploadFromGlob(expand(ctx.config.assetRoot + "/" + globs[i]));
      }
      assert globs[..|globs|] == globs;
    }

    /**
     * One run: pushes every glob of the configuration in order, then, with
     * invalidation on, invalidates the keys that were replaced.
     */
    method Upload(expand: string -> seq<FileEntry>, date: string, epochSeconds: nat, post: Request -> Response)
      returns (request: Option<Request>, result: Option<InvalidationResult>)
      modifies this
      ensures State() == RunGlobs(ctx, old(State()), GlobList(ctx.config), expand)
      ensures UseInvalidation(ctx.settings) ==> request == InvalidationRequest(ctx, changedFiles, date, epochSeconds)
      ensures !UseInvalidation(ctx.settings) ==> request.None?
      ensures result == if request.None? then None else Some(ResultMessage(request.value, post(request.value)))
    {
      var globs := BuildGlobs();
      UploadGlobs(globs, expand);
      request, result := None, None;
      if UseInvalidation(ctx.settings) {
        request, result := InvalidateCache(changedFiles, date, epochSeconds, post);
      }
    }
  }
}
