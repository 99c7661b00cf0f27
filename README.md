# boot_tubely upload core in Dafny

boot_tubely is a small Go HTTP service. It lets the owner of a video record
upload the video file and a thumbnail image. It also signs stored video
locators when records are read. This project models the decision logic of
three Go files and proves properties of that model:

- `handlerUploadVideo` (`handler_upload_video.go`). It checks the video id,
  the bearer token, the record's owner and the `video/mp4` media type. It
  then copies the upload to a temp file and classifies the first stream's
  width/height as `landscape`, `portrait` or `other`. It remuxes the file
  for fast start (output path `input + ".processing"`), puts the object into
  S3 under `class + "/" + hex(32 random bytes) + ".mp4"`, points the record's
  `VideoURL` at `https://<distribution>/<key>` and updates the database.
- `handlerUploadThumbnail` (`handler_upload_thumbnail.go`). It checks the
  id and the token, then the `image/jpeg`/`image/png` allow-list before it
  fetches the record and checks the owner. It derives the extension from the
  media subtype and writes `hex + ext` under the assets root. It then points
  `ThumbnailURL` at `http://localhost:<port>/assets/<hex><ext>`.
- `_dbVideoToSignedVideo` (`db_video_to_signed_video.go`). A locator with no
  comma, or no locator at all, is passed through. Otherwise the first two
  comma-separated pieces are the bucket and the key, and a presigned URL
  with a 100-second expiry replaces `VideoURL`.

Modules:

- `Wrappers`: `Option` and `Result`.
- `Strings`: Go's `strings.Split` for a one-character separator, with `Join`
  as its inverse.
- `Hex`: `hex.EncodeToString`, which is Base16 as in section 8 of RFC 4648
  with Go's lower-case alphabet, plus a strict decoder.
- `Aspect`: the classifier, in exact integer arithmetic.
- `Api`: the record, the request results, the configuration, and the
  handlers' shared shape. That shape is a `Machine`: an ordered chain of
  checks with early exits. A run answers the status of the first failing
  check, or 200 with the updated record when every check passes.
- `VideoUpload`, `ThumbnailUpload`, `SignedVideo`: the three Go files.

Each handler is an imperative `method` with the source's early returns. It
is proved equal to a function. `HandleUploadVideo` equals the video
`Machine` run. `HandleUploadThumbnail` equals `ThumbnailAsWritten`, which
follows the code as written, including its missing `return` (see Findings).
The intended early-exit behaviour is `ThumbnailRun`, the thumbnail
`Machine` run. Every call the handlers make to something outside the core
becomes a field of an environment value and is not modelled. These calls
are UUID parsing, JWT, the database, temp files, ffprobe, ffmpeg, S3,
`os.Create`, `io.Copy` and `crypto/rand`. The environment field holds the
result the call produced: a boolean for success, the parsed streams, or the
random bytes.

Behaviour of the code worth noting, which the model follows:

- A locator with two or more commas is signed using its first two pieces.
  Empty pieces are accepted.
- The video key always ends in `.mp4`; the extension is not taken from the
  media type.
- Token failures in the video handler are 400, not 401.
- A zero height is not guarded. Go's float32 division yields Inf or NaN, and
  every comparison with Inf or NaN fails one bound of each band, so the
  result is `other`.
- A presign error returns the unchanged record together with the error.

## Model

| member | source | states |
|---|---|---|
| Strings.Split | handler_upload_thumbnail.go:82 | there is at least one piece and no piece holds the separator; the first piece is the text before the first separator; there is exactly one piece iff the separator is absent |
| Strings.JoinSplit | db_video_to_signed_video.go:18 | joining the pieces of a split with the separator gives back the string |
| Strings.SplitJoin | db_video_to_signed_video.go:18 | splitting a join of separator-free pieces gives back the pieces |
| Strings.SplitTwo | handler_upload_thumbnail.go:82-83 | `a + sep + b` with separator-free `a`, `b` splits into exactly `[a, b]` |
| Strings.SplitFirstTwo | db_video_to_signed_video.go:18-19 | with a separator present there are at least two pieces; the string starts with piece 0, the separator and piece 1, followed by its end or another separator |
| Hex.DigitValue | handler_upload_video.go:108-109 | a character has a value iff it is a lower-case hex digit, and that value is its position in the alphabet |
| Hex.Encode | handler_upload_video.go:108-109 | the encoding has length 2·\|bytes\| and every character is in `[0-9a-f]` |
| Hex.Decode | handler_upload_video.go:109 | accepted input has twice as many characters as the bytes it decodes to |
| Hex.DecodeEncode | handler_upload_video.go:108-109 | decoding the encoding of any byte string gives back that byte string |
| Hex.EncodeDecode | handler_upload_video.go:109 | every string the decoder accepts is the encoding of what it decodes to |
| Hex.EncodeInjective | handler_upload_video.go:108-109 | distinct byte strings have distinct encodings |
| Aspect.AspectClass.Name | handler_upload_video.go:186-194 | the three class strings are non-empty and hold neither '/' nor ',', so a class is safe in front of a storage key and inside a locator |
| Aspect.ClassNamed | handler_upload_video.go:186-194 | a recognised name is the `Name()` of the class returned |
| Aspect.ClassNamedName | handler_upload_video.go:186-194 | each class's name reads back as that class |
| Aspect.Classify | handler_upload_video.go:185-194 | height 0 is `other`; otherwise the class is landscape exactly when the exact ratio width/height lies in the open interval (1.6, 1.9), and portrait exactly when it lies in (0.4, 0.6) |
| Aspect.ClassifyQuotient | handler_upload_video.go:186-194 | the if-chain over a quotient, Inf and NaN included: landscape exactly in the first band, portrait exactly in the second, so the order of the two tests does not matter |
| Aspect.Divide | handler_upload_video.go:185 | the quotient is finite iff the height is non-zero, and a finite quotient times the height is the width |
| Aspect.BandsDisjoint | handler_upload_video.go:186-193 | no quotient lies in both bands, so the order of the two tests does not matter |
| Aspect.ClassifyAgreesWithDivision | handler_upload_video.go:185-194 | the integer cross-multiplication classifier equals the source's if-chain on the exact quotient, for every width and height including zero and negative heights |
| Aspect.ZeroHeightIsOther | handler_upload_video.go:185-194 | height 0 (quotient Inf or NaN) is `other` in both readings |
| Aspect.ScaleInvariant | handler_upload_video.go:185 | scaling width and height by the same positive factor leaves the class unchanged |
| Aspect.Examples | handler_upload_video.go:186-194 | 1920x1080 is landscape, 1080x1920 portrait, 1000x1000 other; the ratios 1.61 and 1.89 are landscape; the bounds 1.6, 1.9, 0.4 and 0.6 are other |
| Aspect.GetVideoAspectRatio | handler_upload_video.go:181-194 | the result is an error iff the probe failed or listed no stream; an empty stream list is the no-streams error |
| Aspect.OnlyFirstStreamCounts | handler_upload_video.go:181-185 | the class depends on the first stream only, and is the if-chain applied to its quotient |
| Api.Fetched | handler_upload_video.go:47-51 | a record is returned iff the id parsed and the database holds it |
| Api.OwnerMatches | handler_upload_video.go:53-56 | the owner check passes only after a successful fetch, and exactly when the token's user is the `userId` of the record stored under the requested id |
| Api.FirstFailing | handler_upload_video.go:27-148 | the index is at most the number of checks; every check before it passes; the check at it fails |
| Api.RunFromFirstFailure | handler_upload_video.go:27-152 | from any check up to the first failing one, the run answers what the first failure decides |
| Api.RunIsFirstFailure | handler_upload_video.go:27-152 | a run with early exits answers the first failing check's status and trace, or 200 with the written record |
| Api.OkIffAllPass | handler_upload_video.go:27-152 | when no failing check answers 200, a run answers 200 iff every check passes |
| Api.PassedOnOk | handler_upload_video.go:27-152 | in a run that answers 200, each check passed |
| Api.StopsBy | handler_upload_video.go:27-152 | a failing check ends the run at or before it: an error status, nothing stored, and the trace a prefix of the checks no longer than it |
| Api.StoresOnlyOnSuccess | handler_upload_video.go:145-151 | the record is written exactly when the run answers 200 |
| Api.WriteStatus | handler_upload_thumbnail.go:102-119 | the first write sets the given status, and later writes never replace it |
| VideoUpload.IsAllowedVideoType | handler_upload_video.go:73-76 | the one accepted type splits at '/' into `video` and `mp4`, the subtype the key's fixed `.mp4` suffix names |
| VideoUpload.FileKeyRoundTrip | handler_upload_video.go:107-109 | `FileKey`: a storage key parses back into the class and the random bytes it was built from |
| VideoUpload.FileKeyInjective | handler_upload_video.go:107-109 | different classes or different random bytes never give the same key |
| VideoUpload.FileKeyShape | handler_upload_video.go:107-109 | the key is the class name, '/', 64 lower-case hex digits and `.mp4`; splitting it at '/' gives the class name and the file name |
| VideoUpload.FileKeyHasNoComma | handler_upload_video.go:109 | no key contains ',' |
| VideoUpload.FastStartPath | handler_upload_video.go:200 | the output path reads back to the input path it was derived from |
| VideoUpload.FastStartPathFresh | handler_upload_video.go:200 | the output path starts with its input, is strictly longer and differs from it |
| VideoUpload.ProcessVideoForFastStart | handler_upload_video.go:198-211 | an output path is returned iff ffmpeg succeeds, and it is derived from the input path |
| VideoUpload.VideoLocator | handler_upload_video.go:136-137 | the key is the tail of the locator, and the locator holds a ',' exactly when the distribution or the key does |
| VideoUpload.AuthorizePhase | handler_upload_video.go:27-56 | checks 0-4 (id, token, validation, fetch, owner) end with 400, 400, 400, 401 and 401, and otherwise hand over to check 5 |
| VideoUpload.MediaPhase | handler_upload_video.go:59-76 | the form file, the media-type parse and the `video/mp4` test each end with 400, and otherwise hand over to check 8 |
| VideoUpload.TempFilePhase | handler_upload_video.go:79-91 | a failed temp-file creation or copy is a 500 |
| VideoUpload.ProbePhase | handler_upload_video.go:94-104 | a probe without a class or a failed rewind is a 500 |
| VideoUpload.UploadPhase | handler_upload_video.go:112-133 | a failed remux, open or put is a 500 and leaves nothing in the bucket |
| VideoUpload.RecordPhase | handler_upload_video.go:135-151 | after the put, a failed update is a 400 with the object left behind; otherwise 200 with the updated record |
| VideoUpload.VideoNestedIsRun | handler_upload_video.go:27-151 | the handler's chain of early returns equals the step machine over the sixteen checks |
| VideoUpload.HandleUploadVideo | handler_upload_video.go:21-152 | the imperative handler answers what the step machine answers, for every environment |
| VideoUpload.VideoBadRequestBeforeFetch | handler_upload_video.go:27-44 | a bad id or a missing or invalid token is a 400 after at most three checks: nothing stored, nothing uploaded |
| VideoUpload.VideoUnauthorizedBeforeForm | handler_upload_video.go:47-56 | a missing record or a wrong owner is a 401, and the form is never read, nothing goes to a temp file, and there is no probe or put |
| VideoUpload.VideoWrongTypeBeforeProbe | handler_upload_video.go:59-76 | for the owner, a missing, unparsable or non-`video/mp4` file is a 400 before any temp file, probe or remux |
| VideoUpload.VideoNoStreamsIsServerError | handler_upload_video.go:94-98 | a probe listing no stream is a 500 with nothing remuxed, stored or uploaded |
| VideoUpload.VideoOkIffAllPass | handler_upload_video.go:27-151 | the response is 200 iff every one of the sixteen checks passes |
| VideoUpload.VideoSuccessRecord | handler_upload_video.go:135-151 | on 200 the record written is the fetched one with only `VideoURL` changed, to `https://` + distribution + `/` + the key under which the object was put |
| VideoUpload.VideoStoredOnlyOnSuccess | handler_upload_video.go:145-151 | a record is written iff the response is 200 |
| VideoUpload.VideoObjectLeftBehind | handler_upload_video.go:130-148 | an object is in the bucket iff every check up to the update ran; if the update fails the response is 400 and no record points at the object |
| ThumbnailUpload.AllowedTypesAreImages | handler_upload_thumbnail.go:64-67 | `IsAllowedThumbnailType`: each accepted type splits at '/' into `image` and `jpeg` or `png` |
| ThumbnailUpload.Extension | handler_upload_thumbnail.go:82-84 | the extension is '.' followed by the text after the first '/' of the media type, up to its end or a second '/'; it holds no '/' |
| ThumbnailUpload.ExtensionOfSubtype | handler_upload_thumbnail.go:82-84 | the extension of `type/subtype` is `"." + subtype` |
| ThumbnailUpload.AllowedExtensions | handler_upload_thumbnail.go:82-84 | `image/jpeg` gives `.jpeg` and `image/png` gives `.png` |
| ThumbnailUpload.AllowedExtension | handler_upload_thumbnail.go:63-67 | there is an extension iff the parsed media type is on the allow-list |
| ThumbnailUpload.AssetName | handler_upload_thumbnail.go:87-92 | the file name is twice as long as the random bytes plus the extension; its head decodes back to the random bytes and its tail is the extension |
| ThumbnailUpload.AssetNameShape | handler_upload_thumbnail.go:87-92 | for the 32 drawn bytes the file name starts with 64 lower-case hex digits |
| ThumbnailUpload.ThumbnailUrl | handler_upload_thumbnail.go:108 | the thumbnail URL for a port reads back to the asset name it was built from |
| ThumbnailUpload.AllowedExtensionHasNoSlash | handler_upload_thumbnail.go:82-84 | an accepted type contains '/' and its extension does not |
| ThumbnailUpload.HexNameHasNoSlash | handler_upload_thumbnail.go:89-92 | the hex part of a name adds no '/' to a '/'-free extension |
| ThumbnailUpload.AssetNameHasNoSlash | handler_upload_thumbnail.go:92 | an accepted thumbnail's file name has no '/', so it names a file directly under the assets root |
| ThumbnailUpload.ThumbnailAsWritten | handler_upload_thumbnail.go:21-119 | the handler as written stores a record exactly when every check up to the update was attempted and the update succeeded, whatever status was sent; a 200 always comes with that record |
| ThumbnailUpload.HandleUploadThumbnail | handler_upload_thumbnail.go:19-120 | the imperative handler, as written, answers `ThumbnailAsWritten` for every environment |
| ThumbnailUpload.RequestPhase | handler_upload_thumbnail.go:21-67 | id 400, token 401 and 401, form file 400, media parse 400, allow-list 400, in that order; otherwise hand over to the fetch |
| ThumbnailUpload.OwnerPhase | handler_upload_thumbnail.go:70-79 | a missing record or a wrong owner is a 401 |
| ThumbnailUpload.AssetPhase | handler_upload_thumbnail.go:95-119 | file creation, copy and update failures are 400 with the artifact reached; otherwise 200 with the updated record |
| ThumbnailUpload.AsWrittenAgreesWhenCopied | handler_upload_thumbnail.go:101-119 | whenever the copy succeeds, the handler as written answers exactly what the early-exit run answers |
| ThumbnailUpload.ThumbnailAuthFailures | handler_upload_thumbnail.go:21-38 | a bad id is a 400 after the first check; a missing or invalid token is a 401; nothing is stored or created |
| ThumbnailUpload.ThumbnailMediaBeforeFetch | handler_upload_thumbnail.go:56-79 | a missing or rejected media type is a 400 whatever the database holds, and there is no fetch or owner check |
| ThumbnailUpload.ThumbnailOwnerMismatch | handler_upload_thumbnail.go:70-79 | for an accepted type, a missing record or another owner is a 401 with no file created and no update |
| ThumbnailUpload.ThumbnailOkIffAllPass | handler_upload_thumbnail.go:19-120 | 200 iff id, token, validation, allowed type, owner, file creation, copy and update all succeed |
| ThumbnailUpload.ThumbnailSuccessRecord | handler_upload_thumbnail.go:87-119 | on 200 the record written is the fetched one with only `ThumbnailURL` changed; that URL names the file created under the assets root, whose name is the hex of the random bytes followed by the media type's extension |
| ThumbnailUpload.CopyFailureStillStores | handler_upload_thumbnail.go:101-119 | as written, a failed copy with a successful update answers 400 yet stores the fetched record with `ThumbnailURL` pointing at the created file, `hex(randKey) + ext` under the assets root; the early-exit run stores nothing |
| ThumbnailUpload.ThumbnailFailuresAreErrors | handler_upload_thumbnail.go:19-117 | no failing check answers 200 |
| ThumbnailUpload.ThumbnailStoredIffOk | handler_upload_thumbnail.go:113-119 | in the early-exit run a record is stored iff the response is 200 |
| ThumbnailUpload.ThumbnailCopyFailureStops | handler_upload_thumbnail.go:101-104 | in the early-exit run a failed copy is an error, stores nothing and never reaches the update |
| ThumbnailUpload.ThumbnailRunStoresOnlyOnSuccess | handler_upload_thumbnail.go:101-119 | corrected behaviour: a record is stored iff the response is 200, and a failed copy stores nothing and skips the update |
| SignedVideo.PresignRequestFor | db_video_to_signed_video.go:13-22 | a request exists iff there is a locator containing ','; its bucket and key are comma-free, the locator starts with bucket + "," + key followed by its end or a ',', and the expiry is 100 seconds |
| SignedVideo.DbVideoToSignedVideo | db_video_to_signed_video.go:12-30 | whenever an error is returned, the record is returned unchanged |
| SignedVideo.PassThrough | db_video_to_signed_video.go:13-15 | no locator, or one without ',', gives back the record unchanged with no error |
| SignedVideo.PassThroughIdempotent | db_video_to_signed_video.go:13-15 | a pass-through does not depend on the presigner, and signing its output again gives the same result |
| SignedVideo.PresignFailure | db_video_to_signed_video.go:22-25 | a presigner error returns the original record together with that error |
| SignedVideo.PresignSuccess | db_video_to_signed_video.go:22-29 | on success only `VideoURL` changes, to the presigned URL, and no error is returned |
| SignedVideo.CompoundLocator | db_video_to_signed_video.go:18-22 | `bucket,key` and `bucket,key,more` both ask for exactly that bucket and key; later pieces are dropped |
| SignedVideo.HandlerLocatorPassesThrough | db_video_to_signed_video.go:13-15 | a locator written by the video handler is passed through unchanged whenever the distribution name has no ',' |

## Left out

- HTTP transport is not modelled. This covers `MaxBytesReader` (handler_upload_video.go:22-24), multipart parsing, the ignored result of `ParseMultipartForm` (handler_upload_thumbnail.go:43-45), and response bodies. Only the status and the record are modelled.
- `uuid.Parse`, `auth.GetBearerToken`, `auth.ValidateJWT` and `r.FormFile` are external calls. They enter as `Option` results of the request. `mime.ParseMediaType` enters the same way, as the parsed base type or `None`.
- The database (`GetVideo`, `UpdateVideo`) is a map of records plus an update-success flag. Owners are compared as UUID strings.
- ffprobe, ffmpeg, their process execution and the ffprobe JSON decoding are external processes. The probe enters as its decoded stream list, or `None` for any failure. The remux enters as a success flag.
- S3 `PutObject` and the presign call are external calls. The put is a success flag. The presigner is a function parameter (`SignedVideo.Presigner`).
- `crypto/rand` enters as the 32 bytes it produced. Its ignored error and the key's uniqueness (a probabilistic property) are not modelled.
- Temp-file and asset-file creation, copying, seeking, opening and the deferred `Close`/`Remove` are file I/O. Each is a success flag. A created file is an `AssetFile(dir, name)` artifact. The internals of `filepath.Join` are not modelled.
- Aspect.ClassifyAgreesWithDivision: compares against exact rational division, not float32. The two could differ only within float32 rounding of the four bounds, which needs very large dimensions.
- The dead `err` check at handler_upload_video.go:139-142 is not modelled. There `err` is the nil result of the successful `os.Open`, so that branch is unreachable.
- The `fmt.Println` log line (handler_upload_thumbnail.go:41) is output only.
- Fields of `database.Video` other than id, owner, title, description, thumbnail URL and video URL are not modelled. The handlers carry them over unchanged.
- ThumbnailUpload.ThumbnailAsWritten: on a failed copy it models the response status only. The error body followed by the record's JSON body is not modelled.

## Findings

| source | as written | input that shows it | evidently intended | confidence | as-written member | corrected member |
|---|---|---|---|---|---|---|
| handler_upload_thumbnail.go:102-104 | a failed `io.Copy` sends a 400 but does not return, so the handler goes on to update the record with the new thumbnail URL | an owner uploads an accepted image, the file is created, the copy fails and `UpdateVideo` succeeds: the client gets 400 while the record points at the incompletely written file | return after the 400, as every other failure does, so nothing is stored | not executed | ThumbnailUpload.CopyFailureStillStores | ThumbnailUpload.ThumbnailRunStoresOnlyOnSuccess |
