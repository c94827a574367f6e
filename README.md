# jammit-s3 in Dafny

A model of the core of jammit-s3, the gem that pushes Jammit's packaged assets
to an Amazon S3 bucket and, for CloudFront, either serves each release under
its own version prefix or invalidates the objects a run replaced.

- `wrappers.dfy` (module `Wrappers`): `Option` and a suffix predicate.
- `s3_assets_versioning.dfy` (module `S3AssetsVersioning`, pure): the two
  CloudFront modes, `versioned_path`, the monkey-patched
  `Jammit::Compressor#rewrite_asset_path`, and the asset-host procedure.
- `s3_uploader.dfy` (module `S3Uploader`): the glob list, the per-file
  decision, the object options, the invalidation request and
  `result_message`, first as functions over a `RunState` value, then as the
  class `Uploader`. Its fields `bucket`, `changedFiles` and `stored` are
  updated in place by `UploadFile`, `UploadFromGlob` and `Upload`. Each
  method's `ensures` ties the new state to those functions.
- `s3_uploader_lemmas.dfy` (module `S3UploaderLemmas`): whole-run properties.
  Most are proved against a reference definition that reads only the files
  and the bucket at the start of the run; the others state frame and growth
  facts (what a run leaves alone, what only grows, when a run is a no-op).
  It also proves that the invalidation body reads back as its keys.

Modelling choices:

- The version token, which the source reads from `ENV["RAILS_ASSET_ID"]`
  (defaulting to `''`), is a parameter.
- The bucket is a map from key to etag. Storing an object sets its key's etag
  to the MD5 of the body, and later lookups in the same run see that etag.
  This is an assumption about the aws-s3 library, which the source does not
  show; see "## Left out".
- These are parameters: MD5, the MIME lookup, the HMAC-SHA1/Base64 signature,
  glob expansion (`Dir[...]`), the HTTPS post, the clock and Ruby's
  `String#hash`.
- A file is a `FileEntry`: its local path, whether it is a directory, and
  its bytes.

## Model

| member | source | states |
|---|---|---|
| S3AssetsVersioning.UseVersionedAssets | lib/jammit/s3_assets_versioning.rb:28-30 | versioned mode needs `package_assets` and a truthy `:use_cloudfront` |
| S3AssetsVersioning.UseInvalidation | lib/jammit/s3_assets_versioning.rb:32-34 | invalidation mode needs `package_assets`, and it is never on together with versioned mode |
| S3AssetsVersioning.ModesExclusive | lib/jammit/s3_assets_versioning.rb:28-34 | the two modes are never both on; both are off when `package_assets` is off |
| S3AssetsVersioning.VersionedPath | lib/jammit/s3_assets_versioning.rb:91-98 | identity when versioning is off, for "" and for an empty version. A rooted path becomes "/v" + path. A relative path becomes "v/" + path only with the flag. The result always ends with the input, and rootedness is kept when the version is not rooted |
| S3AssetsVersioning.VersionedPathIgnoresVersionWhenDisabled | spec/jammit/s3_assets_versioning_spec.rb:8-24 | with versioning off the result is the path, whatever the version token |
| S3AssetsVersioning.VersionedPathRootedExamples | spec/jammit/s3_assets_versioning_spec.rb:54-59 | "/" becomes "/v1/"; "/dir/file.ext" becomes "/v1/dir/file.ext" |
| S3AssetsVersioning.VersionedPathRelativeExamples | spec/jammit/s3_assets_versioning_spec.rb:61-85 | relative paths are unchanged without the flag; with it "./dir/file.ext" becomes "v1/./dir/file.ext" and "" stays "" |
| S3AssetsVersioning.UnversionedPathOfVersionedPath | lib/jammit/s3_assets_versioning.rb:96-97 | the version prefix can be removed again from the result alone |
| S3AssetsVersioning.VersionedPathInjective | lib/jammit/s3_assets_versioning.rb:96-97 | distinct paths keep distinct versioned paths |
| S3AssetsVersioning.RewriteAssetPath | lib/jammit/s3_assets_versioning.rb:127-136 | with versioning on the result is `versioned_path(path)` with the flag off, so relative URLs are untouched and rooted ones get "/v". Otherwise it is exactly the original rewrite's result |
| S3AssetsVersioning.ResolveHosts | lib/jammit/s3_assets_versioning.rb:53-60 | the secure host is the CloudFront domain when configured and the bucket host "bucket.s3.amazonaws.com" otherwise; the plain host is the CNAME only when both CNAME and domain are present; an array of hosts is never empty |
| S3AssetsVersioning.Protocol | lib/jammit/s3_assets_versioning.rb:63-67 | "http://" exactly when the `:ssl` key is present and falsy, otherwise "https://" |
| S3AssetsVersioning.HostIndex | lib/jammit/s3_assets_versioning.rb:73 | `hash % size` is always a valid index |
| S3AssetsVersioning.AssetHost | lib/jammit/s3_assets_versioning.rb:62-79 | an SSL request gets protocol + secure host and never the CNAME. A plain request gets the CNAME, or element `hash % size` of the CNAME array, when both CNAME and domain are present; otherwise the domain, otherwise the bucket host |
| S3Uploader.BuiltinGlobsDistinct | lib/jammit/s3_uploader.rb:40-48 | the .gz, .css, .js and images globs are pairwise different |
| S3Uploader.GlobList | lib/jammit/s3_uploader.rb:37-53 | with gzip, one "**/*.gz" package glob and no .css or .js glob; without it, .css then .js. The images glob is present unless `s3_upload_images` is exactly false. Then the String or Array extra globs follow, in order |
| S3Uploader.StripPublicRoot | lib/jammit/s3_uploader.rb:68 | the remote path is the local path minus a leading "ASSET_ROOT/public/"; a path without that prefix is kept |
| S3Uploader.Basename | lib/jammit/s3_uploader.rb:73 | the basename is a suffix of the path and holds no "/" |
| S3Uploader.BasenameFollowsSlash | lib/jammit/s3_uploader.rb:73 | the basename is the whole path or starts right after a "/"; with `Basename`'s contract it is everything after the last "/", for paths with or without a directory part |
| S3Uploader.PlanFile | lib/jammit/s3_uploader.rb:68-76 | a file is gzip exactly when its remote path has extension ".gz"; then one trailing ".gz" is removed, otherwise the path is kept |
| S3Uploader.ObjectOptions | lib/jammit/s3_uploader.rb:109-116 | `content_type` is always the MIME type of the remote key; `content_encoding` is "gzip" exactly for gzip files; `cache_control`, `expires` and `access` are present exactly when configured |
| S3Uploader.Store | lib/jammit/s3_uploader.rb:117 | a put logs the object, gives its key the body's MD5 and leaves every other key's etag alone |
| S3Uploader.Step | lib/jammit/s3_uploader.rb:65-102 | directories change nothing. In versioned mode the file is stored under `versioned_path(remote, true)`, that key's etag becomes the content's MD5, and the change set is untouched. In selective mode it is stored, and its key's etag set to the content's MD5, exactly when the key is missing or its etag differs from that MD5; otherwise nothing happens. The key joins the change set only with invalidation on and an existing object replaced |
| S3Uploader.NatToString | lib/jammit/s3_uploader.rb:149 | the timestamp is written as a non-empty string of decimal digits |
| S3Uploader.InvalidationRequest | lib/jammit/s3_uploader.rb:133-149 | no request for an empty list. Otherwise: a POST to "/2010-11-01/distribution/ID/invalidation"; the batch body; the headers `x-amz-date`, `Content-Type: text/xml` and `Authorization: AWS id:signature` |
| S3Uploader.ResultMessage | lib/jammit/s3_uploader.rb:157-171 | success exactly when the code is "201"; a failure carries the code, request path, headers, body and response body |
| S3Uploader.Uploader.constructor | lib/jammit/s3_uploader.rb:14-30 | a run starts from the bucket's etags with an empty change set and an empty log |
| S3Uploader.Uploader.BuildGlobs | lib/jammit/s3_uploader.rb:37-53 | the list built by appending is `GlobList` |
| S3Uploader.Uploader.UploadFile | lib/jammit/s3_uploader.rb:106-118 | filling the options one by one gives `ObjectOptions`; the object is stored under the remote path with the file's body |
| S3Uploader.Uploader.UploadEntry | lib/jammit/s3_uploader.rb:66-102 | the loop body for one expanded file changes the fields exactly as `Step` says |
| S3Uploader.Uploader.UploadFromGlob | lib/jammit/s3_uploader.rb:63-104 | after the loop the state is `Step` applied to each file in order |
| S3Uploader.Uploader.UploadGlobs | lib/jammit/s3_uploader.rb:56-58 | after the loop over the globs the state is `RunGlobs` of the globs, in order |
| S3Uploader.Uploader.InvalidateCache | lib/jammit/s3_uploader.rb:133-155 | the loop-built request is `InvalidationRequest`; the result is `result_message` of the response, or none when there was no request |
| S3Uploader.Uploader.Upload | lib/jammit/s3_uploader.rb:33-61 | every glob of `GlobList` is pushed in order. Invalidation runs, on the final change set, only in invalidation mode |
| S3UploaderLemmas.StepsAppend | lib/jammit/s3_uploader.rb:56-58 | processing two lists of files one after the other is processing their concatenation |
| S3UploaderLemmas.RunGlobsIsSteps | lib/jammit/s3_uploader.rb:55-58 | a run over the globs is one run over all their files in glob order |
| S3UploaderLemmas.BasenameAfterSlash | lib/jammit/s3_uploader.rb:73 | the basename of "dir/name" is name |
| S3UploaderLemmas.GzExtensionExample | lib/jammit/s3_uploader.rb:73-76 | "a/app.css.gz" is a gzip file |
| S3UploaderLemmas.DotsOnlyGzIsNoExtension | lib/jammit/s3_uploader.rb:73 | "a/..gz" has no ".gz" extension (leading dots of a basename never start one) |
| S3UploaderLemmas.GzDirectoryIsNoExtension | lib/jammit/s3_uploader.rb:73 | "a.gz/app" has no ".gz" extension |
| S3UploaderLemmas.RunOnlyAppends | lib/jammit/s3_uploader.rb:95-98 | the change set and the log only grow, and the change set is untouched without invalidation |
| S3UploaderLemmas.VersionedRun | lib/jammit/s3_uploader.rb:78-80 | in versioned mode every non-directory file is stored under its versioned key, whatever the bucket holds, and the change set is untouched |
| S3UploaderLemmas.ReplacedKeys | lib/jammit/s3_uploader.rb:95-98 | every key of the reference change set was already in the bucket |
| S3UploaderLemmas.StepFrame | lib/jammit/s3_uploader.rb:83-101 | in selective mode one file changes no key but its own remote key |
| S3UploaderLemmas.StepBringsKeyUpToDate | lib/jammit/s3_uploader.rb:89-93 | after its own step a file's key holds the MD5 of its content |
| S3UploaderLemmas.SelectiveStep | lib/jammit/s3_uploader.rb:83-101 | while the bucket still agrees with the starting bucket on a file's key, that file's step adds exactly its reference upload and its reference replaced key |
| S3UploaderLemmas.SelectiveRunFrame | lib/jammit/s3_uploader.rb:83-101 | a selective run leaves keys that none of its files maps to untouched |
| S3UploaderLemmas.SelectiveRun | lib/jammit/s3_uploader.rb:83-101 | with distinct keys, exactly the files missing from, or differing from, the initial bucket are stored. With invalidation on, the change set grows by exactly the keys that existed with another etag, in order |
| S3UploaderLemmas.SelectiveRunBringsBucketUpToDate | lib/jammit/s3_uploader.rb:89-93 | after a selective run with distinct keys no file needs uploading any more |
| S3UploaderLemmas.UpToDateRunIsNoOp | lib/jammit/s3_uploader.rb:89-101 | a run over files the bucket already holds changes nothing |
| S3UploaderLemmas.SecondRunChangesNothing | lib/jammit/s3_uploader.rb:83-101 | with distinct remote keys, repeating a selective run with no file changes stores nothing and adds nothing to the change set |
| S3UploaderLemmas.PathEntriesCons | lib/jammit/s3_uploader.rb:136-139 | the path entries of k followed by ks are k's entry then the entries of ks |
| S3UploaderLemmas.FindLt | lib/jammit/s3_uploader.rb:138 | the first '<' at or after a position, used to read entries back |
| S3UploaderLemmas.FirstEntry | lib/jammit/s3_uploader.rb:138 | an entry `<Path>/key</Path>` ends at the first '<' after its key |
| S3UploaderLemmas.ParsePathEntriesRoundTrip | lib/jammit/s3_uploader.rb:136-139 | for keys without '<', the entries read back as exactly the keys, one entry per key, in order |
| S3UploaderLemmas.BatchBodyStartsWithEntries | lib/jammit/s3_uploader.rb:149 | the body opens with `<InvalidationBatch>` followed by the path entries, which read back as the keys by `ParsePathEntriesRoundTrip` |
| S3UploaderLemmas.NatToStringRoundTrip | lib/jammit/s3_uploader.rb:149 | the caller reference's timestamp reads back as the number it came from |

## Left out

- `use_s3_asset_host?` and `asset_path_proc` (lib/jammit/s3_assets_versioning.rb:38-40, 82-86) are used only by the Railtie in lib/jammit-s3.rb. `asset_path_proc` is `VersionedPath` with the flag off.
- The version token comes only from `ENV["RAILS_ASSET_ID"]` (lib/jammit/s3_assets_versioning.rb:104); the source has no other way to find a version.
- The `assets_version` getter and setter (lib/jammit/s3_assets_versioning.rb:103-110) read and write the process environment. The token is a parameter; `|| ''` means it is never nil.
- `initialize` merges options and configuration (lib/jammit/s3_uploader.rb:14-30); the model takes the merged values as an `UploadConfig`, and covers only the branch without `options[:bucket]`. In that branch `@acl` falls back to `:public_read` (line 23), so `UploadConfig.acl` is always `Some` there and every stored object carries `Access`. With invalidation on, that branch also sets `@changed_files` to `[]`, the model's empty starting change set.
- The `options[:bucket]` branch is not modelled. There `@changed_files`, `@cache_control`, `@expires`, `@acl`, `@cloudfront_dist_id` and the credentials all stay nil (lines 15-30). With invalidation on, the first append to `@changed_files` fails, and even with nothing appended `invalidate_cache(nil)` fails at `files.empty?` (lines 60, 134).
- `find_or_create_bucket` and the S3 connection (lib/jammit/s3_uploader.rb:120-131) are foreign library calls. The bucket's etags at the start of the run are a constructor parameter.
- The HTTPS request and `VERIFY_NONE` (lib/jammit/s3_uploader.rb:150-153) are a `post` function parameter.
- HMAC-SHA1, Base64 and `Time.now` (lib/jammit/s3_uploader.rb:140-149) are foreign. They are an `hmac` parameter, a date string and a Unix timestamp. The source reads the clock twice; the model takes the two readings separately.
- MD5, `MimeMagic.by_path`, `Dir[...]`, `File.directory?` and `File.read`/`open` are parameters or fields of `FileEntry`. A nil MIME type is folded into the string the `mime` parameter returns.
- Foreign calls are assumed to return: `new_object.store(options)` (lib/jammit/s3_uploader.rb:117), `File.read` and `open` (lines 91, 111), `http.request(req)` (line 153), and the MD5, MIME and HMAC functions. The source rescues none of them. An exception from any of them propagates out of `upload` (lines 33-61): the remaining files and globs are skipped, and no invalidation is sent, not even for keys already replaced and recorded in `@changed_files`. The model has no failing outcome for these calls.
- `@bucket[remote_path]` rescues every error, not only "not found". The model looks keys up in the map, so a failing lookup of an existing key is not modelled.
- The regular expressions `^ASSET_ROOT/public/` and `\.gz$` (lib/jammit/s3_uploader.rb:68, 75) are treated as a literal prefix and suffix. Paths are assumed to contain no newline, and `ASSET_ROOT` no regular-expression metacharacters.
- `File.extname` is modelled for Unix paths that do not end in "/"; its Windows rules are not modelled.
- `present?` counts only ASCII white space as blank. A `cloudfront_domain` given as an Array is not modelled (the source would interpolate its `to_s`). A non-string truthy `:use_cloudfront` is any string other than "version" and "invalidate".
- `result_message`'s text layout, and Net::HTTP's normalisation of header names, are not modelled; the failure result carries the same fields as the message.
- `log`/`puts` output, including the "Rewriting" line in `rewrite_asset_path`, is not modelled.
- S3UploaderLemmas.SelectiveRun, S3UploaderLemmas.SelectiveRunBringsBucketUpToDate and S3UploaderLemmas.SecondRunChangesNothing: these require distinct remote keys, and the condition is needed. Two files can share a key, for example `ASSET_ROOT/public/assets/app.css.gz` from the gzip glob and `ASSET_ROOT/public/assets/app.css` from a custom `**/*.css` glob (lib/jammit/s3_uploader.rb:68-76). If their contents differ, the last file wins, and every later run uploads both files again. Under the model's assumption that lookups see stored etags, `S3Uploader.Step` states what happens for each file.
- The model assumes that a lookup after a `store` in the same run sees the new etag. The source looks keys up with `@bucket[remote_path]` on the bucket object that `Bucket.find` returned once (lib/jammit/s3_uploader.rb:84, 125), and what that object reports after a `store` is up to the aws-s3 library. If two files share a key, for example through overlapping globs, the source may still see the etag from before the run. It would then upload the second file as well and append the key to `@changed_files` twice; the model does not capture this.
