/**
 * `handlerUploadThumbnail`: the allow-list for images, the extension taken
 * from the media subtype, the asset file name and the URL written to the
 * record. The handler as written keeps going after a failed copy; the
 * early-exit run `ThumbnailRun` is what the other checks intend, and the
 * two are compared below.
 */
module ThumbnailUpload {
  import opened Wrappers
  import opened Strings
  import opened Hex
  import opened Api

  const JpegMediaType := "image/jpeg"
  const PngMediaType := "image/png"

  /** The allow-list of the thumbnail endpoint. */
  predicate IsAllowedThumbnailType(mediaType: string)
  {
    mediaType == JpegMediaType || mediaType == PngMediaType
  }

  // ---------------------------------------------------------------------
  // Extension, file name and URL

  /**
   * `"." + strings.Split(mediaType, "/")[1]`; the index needs a second
   * part, that is a '/' in the media type.
   */
  function Extension(mediaType: string): (ext: string)
    requires '/' in mediaType
    ensures |ext| >= 1 && ext[0] == '.' && '/' !in ext
    ensures var head := mediaType[..IndexOf(mediaType, '/')];
      && head + "/" + ext[1..] <= mediaType
      && (|head| + |ext| == |mediaType| || mediaType[|head| + |ext|] == '/')
  {
    SplitFirstTwo(mediaType, '/');
    var parts := Split(mediaType, '/');
    assert ("." + parts[1])[1..] == parts[1];
    "." + parts[1]
  }

  /** The extension is the text after the first '/', up to any second one. */
  lemma ExtensionOfSubtype(kind: string, subtype: string)
    requires '/' !in kind && '/' !in subtype
    ensures '/' in kind + "/" + subtype
    ensures Extension(kind + "/" + subtype) == "." + subtype
  {
    assert kind + "/" + subtype == kind + ['/'] + subtype;
    SplitTwo(kind, subtype, '/');
  }

  /** The two accepted types, spelled as type '/' subtype. */
  lemma AllowedTypesSpelled()
    ensures JpegMediaType == "image" + "/" + "jpeg" && "." + "jpeg" == ".jpeg"
    ensures PngMediaType == "image" + "/" + "png" && "." + "png" == ".png"
    ensures '/' !in ".jpeg" && '/' !in ".png"
  {
  }

  /** Both accepted types are images, each one type '/' subtype pair. */
  lemma AllowedTypesAreImages(mediaType: string)
    requires IsAllowedThumbnailType(mediaType)
    ensures var parts := Split(mediaType, '/');
      |parts| == 2 && parts[0] == "image" && (parts[1] == "jpeg" || parts[1] == "png")
  {
    AllowedTypesSpelled();
    if mediaType == JpegMediaType {
      SplitTwo("image", "jpeg", '/');
    } else {
      SplitTwo("image", "png", '/');
    }
  }

  /** On the accepted path the extension is ".jpeg" or ".png". */
  lemma AllowedExtensions(mediaType: string)
    requires IsAllowedThumbnailType(mediaType)
    ensures '/' in mediaType
    ensures mediaType == JpegMediaType ==> Extension(mediaType) == ".jpeg"
    ensures mediaType == PngMediaType ==> Extension(mediaType) == ".png"
  {
    AllowedTypesSpelled();
    if mediaType == JpegMediaType {
      ExtensionOfSubtype("image", "jpeg");
    } else {
      ExtensionOfSubtype("image", "png");
    }
  }

  /** The extension of an accepted type; `None` for anything else. */
  function AllowedExtension(mediaType: Option<string>): (ext: Option<string>)
    ensures ext.Some? <==> mediaType.Some? && IsAllowedThumbnailType(mediaType.value)
  {
    if mediaType.Some? && IsAllowedThumbnailType(mediaType.value) then
      AllowedExtensions(mediaType.value);
      Some(Extension(mediaType.value))
    else None
  }

  /**
   * `randID + fileExtension`, the name joined under the assets root: its
   * head decodes back to the random bytes and its tail is the extension.
   */
  function AssetName(randKey: seq<byte>, ext: string): (name: string)
    ensures |name| == 2 * |randKey| + |ext|
    ensures Decode(name[..2 * |randKey|]) == Some(randKey) && name[2 * |randKey|..] == ext
  {
    var name := Encode(randKey) + ext;
    assert name[..2 * |randKey|] == Encode(randKey);
    assert name[2 * |randKey|..] == ext;
    DecodeEncode(randKey);
    name
  }

  /**
   * The URL `fmt.Sprintf("http://localhost:%s/assets/%s%s", port, randID, ext)`;
   * it names exactly the asset file it was built from.
   */
  function ThumbnailUrl(port: string, name: string): (url: string)
    ensures ThumbnailUrlName(port, url) == Some(name)
  {
    var prefix := "http://localhost:" + port + "/assets/";
    var url := prefix + name;
    assert url[..|prefix|] == prefix;
    assert url[|prefix|..] == name;
    url
  }

  /** The asset name a thumbnail URL for this port points at. */
  function ThumbnailUrlName(port: string, url: string): Option<string>
  {
    var prefix := "http://localhost:" + port + "/assets/";
    if |prefix| <= |url| && url[..|prefix|] == prefix then Some(url[|prefix|..]) else None
  }

  /** A thumbnail's name starts with 64 lower-case hex digits. */
  lemma AssetNameShape(randKey: RandKey, ext: string)
    ensures var name := AssetName(randKey, ext);
      && |name| == 2 * RandKeyLen + |ext|
      && (forall i :: 0 <= i < 2 * RandKeyLen ==> IsLowerHexDigit(name[i]))
  {
    var hex := Encode(randKey);
    var name := AssetName(randKey, ext);
    assert name == hex + ext;
    forall i | 0 <= i < 2 * RandKeyLen ensures IsLowerHexDigit(name[i]) {
      assert name[i] == hex[i];
    }
  }

  /** An accepted type's extension holds no '/'. */
  lemma AllowedExtensionHasNoSlash(mediaType: string)
    requires IsAllowedThumbnailType(mediaType)
    ensures '/' in mediaType && '/' !in Extension(mediaType)
  {
    AllowedExtensions(mediaType);
    AllowedTypesSpelled();
  }

  /** The hex part of a name holds no '/'. */
  lemma HexNameHasNoSlash(randKey: seq<byte>, ext: string)
    requires '/' !in ext
    ensures '/' !in AssetName(randKey, ext)
  {
    var hex := Encode(randKey);
    forall i | 0 <= i < |hex| ensures hex[i] != '/' {
      assert IsLowerHexDigit(hex[i]);
    }
  }

  /**
   * An accepted thumbnail's name holds no '/', so joined to the assets
   * root it names a file directly inside it.
   */
  lemma AssetNameHasNoSlash(randKey: RandKey, mediaType: string)
    requires IsAllowedThumbnailType(mediaType)
    ensures '/' in mediaType
    ensures '/' !in AssetName(randKey, Extension(mediaType))
  {
    AllowedExtensionHasNoSlash(mediaType);
    HexNameHasNoSlash(randKey, Extension(mediaType));
  }

  // ---------------------------------------------------------------------
  // The handler

  /** The results the environment hands to one run of the handler. */
  datatype ThumbnailEnv = ThumbnailEnv(
    request: Request,
    records: map<Uuid, Video>,
    fileCreated: bool,              // os.Create under the assets root succeeded
    copied: bool,                   // io.Copy into that file succeeded
    randKey: RandKey,               // the bytes crypto/rand produced
    updateSucceeded: bool)          // db.UpdateVideo succeeded

  /** The thumbnail handler's checks, in the order it makes them. */
  const ThumbnailSteps: seq<Step> := [
    ParseVideoId, GetBearerToken, ValidateToken,
    ReadFormFile, ParseMediaType, CheckMediaType,
    FetchVideo, CheckOwner,
    CreateAssetFile, CopyToAssetFile, UpdateRecord]

  /** Position of `CreateAssetFile` in `ThumbnailSteps`. */
  const CreateAssetFileAt := 8

  /** The status the thumbnail handler responds with when a step fails. */
  function ThumbnailFailStatus(s: Step): int
  {
    match s
    case GetBearerToken => StatusUnauthorized
    case ValidateToken => StatusUnauthorized
    case FetchVideo => StatusUnauthorized
    case CheckOwner => StatusUnauthorized
    case _ => StatusBadRequest
  }

  /** Whether a step succeeds in this environment. */
  predicate ThumbnailPasses(env: ThumbnailEnv, s: Step)
  {
    match s
    case ParseVideoId => env.request.videoId.Some?
    case GetBearerToken => env.request.bearer.Some?
    case ValidateToken => env.request.jwtUser.Some?
    case ReadFormFile => env.request.form.Some?
    case ParseMediaType => MediaTypeOf(env.request).Some?
    case CheckMediaType => AllowedExtension(MediaTypeOf(env.request)).Some?
    case FetchVideo => Fetched(env.request, env.records).Some?
    case CheckOwner => OwnerMatches(env.request, env.records)
    case CreateAssetFile => env.fileCreated
    case CopyToAssetFile => env.copied
    case UpdateRecord => env.updateSucceeded
    case _ => true
  }

  /** The file the handler creates, once the media type is accepted. */
  function ThumbnailName(env: ThumbnailEnv): Option<string>
  {
    match AllowedExtension(MediaTypeOf(env.request))
    case Some(ext) => Some(AssetName(env.randKey, ext))
    case None => None
  }

  /** The fetched record with its thumbnail URL pointing at the new file. */
  function UpdatedThumbnail(cfg: Config, env: ThumbnailEnv): Option<Video>
  {
    match (Fetched(env.request, env.records), ThumbnailName(env))
    case (Some(v), Some(name)) => Some(v.(thumbnailUrl := Some(ThumbnailUrl(cfg.port, name))))
    case _ => None
  }

  /** The file the handler creates under the assets root, once the media type is accepted. */
  function ThumbnailFile(cfg: Config, env: ThumbnailEnv): Option<Artifact>
  {
    if ThumbnailName(env).Some? then Some(AssetFile(cfg.assetsRoot, ThumbnailName(env).value)) else None
  }

  function ThumbnailCheck(env: ThumbnailEnv): Step -> bool
  {
    s => ThumbnailPasses(env, s)
  }

  /**
   * The intended handler as a chain of checks: a failing check ends the
   * run with its status and nothing is written to the database; the file
   * is left behind once `CreateAssetFile` has passed.
   */
  function ThumbnailMachine(cfg: Config, env: ThumbnailEnv): Machine
  {
    Machine(ThumbnailSteps, ThumbnailCheck(env), ThumbnailFailStatus, UpdatedThumbnail(cfg, env),
      ThumbnailFile(cfg, env), CreateAssetFileAt)
  }

  /** The file under the assets root once `reached` steps have passed. */
  function ThumbnailArtifact(cfg: Config, env: ThumbnailEnv, reached: nat): Option<Artifact>
  {
    ThumbnailMachine(cfg, env).ArtifactAt(reached)
  }

  function ThumbnailRun(cfg: Config, env: ThumbnailEnv): Outcome
  {
    ThumbnailMachine(cfg, env).Run()
  }

  /**
   * The handler as written: the same early returns, except that a failed
   * copy sends a 400 and carries on to the database update. The response
   * keeps the first status sent, so a later 200 does not replace it.
   *
   * `HandleUploadThumbnail` below takes the same branches as statements;
   * this copy is the value lemmas can reason about, since a lemma cannot
   * call a method. A record is written exactly when every check up to the
   * update was attempted and the update succeeded, whatever status was
   * sent; a 200 always comes with that record.
   */
  function ThumbnailAsWritten(cfg: Config, env: ThumbnailEnv): (out: Outcome)
    ensures out.stored.Some? <==> out.trace == ThumbnailSteps && env.updateSucceeded
    ensures out.status == StatusOK ==> out.stored.Some?
  {
    var req := env.request;
    if req.videoId.None? then Outcome(StatusBadRequest, None, ThumbnailSteps[..1], None)
    else if req.bearer.None? then Outcome(StatusUnauthorized, None, ThumbnailSteps[..2], None)
    else if req.jwtUser.None? then Outcome(StatusUnauthorized, None, ThumbnailSteps[..3], None)
    else if req.form.None? then Outcome(StatusBadRequest, None, ThumbnailSteps[..4], None)
    else if req.form.value.mediaType.None? then Outcome(StatusBadRequest, None, ThumbnailSteps[..5], None)
    else if !IsAllowedThumbnailType(req.form.value.mediaType.value) then Outcome(StatusBadRequest, None, ThumbnailSteps[..6], None)
    else if req.videoId.value !in env.records then Outcome(StatusUnauthorized, None, ThumbnailSteps[..7], None)
    else if req.jwtUser.value != env.records[req.videoId.value].userId then Outcome(StatusUnauthorized, None, ThumbnailSteps[..8], None)
    else
      var mediaType := req.form.value.mediaType.value;
      AllowedExtensions(mediaType);
      var name := AssetName(env.randKey, Extension(mediaType));
      if !env.fileCreated then Outcome(StatusBadRequest, None, ThumbnailSteps[..9], None)
      else
        var artifact := Some(AssetFile(cfg.assetsRoot, name));
        var written := if env.copied then None else Some(StatusBadRequest);
        var video := env.records[req.videoId.value].(thumbnailUrl := Some(ThumbnailUrl(cfg.port, name)));
        if !env.updateSucceeded then Outcome(WriteStatus(written, StatusBadRequest).value, None, ThumbnailSteps, artifact)
        else Outcome(WriteStatus(written, StatusOK).value, Some(video), ThumbnailSteps, artifact)
  }

  /**
   * `handlerUploadThumbnail` as written: early returns up to the file
   * creation, a 400 without a return when the copy fails, then the record
   * update with the new thumbnail URL.
   */
  method HandleUploadThumbnail(cfg: Config, env: ThumbnailEnv) returns (out: Outcome)
    ensures out == ThumbnailAsWritten(cfg, env)
  {
    if env.request.videoId.None? {
      return Outcome(StatusBadRequest, None, ThumbnailSteps[..1], None);
    }
    var videoId := env.request.videoId.value;
    if env.request.bearer.None? {
      return Outcome(StatusUnauthorized, None, ThumbnailSteps[..2], None);
    }
    if env.request.jwtUser.None? {
      return Outcome(StatusUnauthorized, None, ThumbnailSteps[..3], None);
    }
    var userId := env.request.jwtUser.value;

    if env.request.form.None? {
      return Outcome(StatusBadRequest, None, ThumbnailSteps[..4], None);
    }
    if env.request.form.value.mediaType.None? {
      return Outcome(StatusBadRequest, None, ThumbnailSteps[..5], None);
    }
    var parsedMediaType := env.request.form.value.mediaType.value;
    if parsedMediaType != JpegMediaType && parsedMediaType != PngMediaType {
      return Outcome(StatusBadRequest, None, ThumbnailSteps[..6], None);
    }

    if videoId !in env.records {
      return Outcome(StatusUnauthorized, None, ThumbnailSteps[..7], None);
    }
    var video := env.records[videoId];
    if userId != video.userId {
      return Outcome(StatusUnauthorized, None, ThumbnailSteps[..8], None);
    }

    AllowedExtensions(parsedMediaType);
    var fileExtension := Extension(parsedMediaType);
    var randId := Encode(env.randKey);
    var name := randId + fileExtension;

    if !env.fileCreated {
      return Outcome(StatusBadRequest, None, ThumbnailSteps[..9], None);
    }
    var artifact := Some(AssetFile(cfg.assetsRoot, name));

    var written: Option<int> := None;
    if !env.copied {
      written := WriteStatus(written, StatusBadRequest);
    }

    video := video.(thumbnailUrl := Some(ThumbnailUrl(cfg.port, name)));

    if !env.updateSucceeded {
      written := WriteStatus(written, StatusBadRequest);
      return Outcome(written.value, None, ThumbnailSteps, artifact);
    }
    written := WriteStatus(written, StatusOK);
    return Outcome(written.value, Some(video), ThumbnailSteps, artifact);
  }

  // ---------------------------------------------------------------------
  // The step machine read branch by branch

  /** Steps 0-5: the id, the token and the uploaded file's media type. */
  lemma RequestPhase(cfg: Config, env: ThumbnailEnv)
    ensures var req := env.request;
      ThumbnailMachine(cfg, env).RunFrom(0) ==
        if req.videoId.None? then Outcome(StatusBadRequest, None, ThumbnailSteps[..1], None)
        else if req.bearer.None? then Outcome(StatusUnauthorized, None, ThumbnailSteps[..2], None)
        else if req.jwtUser.None? then Outcome(StatusUnauthorized, None, ThumbnailSteps[..3], None)
        else if req.form.None? then Outcome(StatusBadRequest, None, ThumbnailSteps[..4], None)
        else if req.form.value.mediaType.None? then Outcome(StatusBadRequest, None, ThumbnailSteps[..5], None)
        else if !IsAllowedThumbnailType(req.form.value.mediaType.value) then Outcome(StatusBadRequest, None, ThumbnailSteps[..6], None)
        else ThumbnailMachine(cfg, env).RunFrom(6)
  {
    var m := ThumbnailMachine(cfg, env);
    assert m.steps == ThumbnailSteps && m.passes == ThumbnailCheck(env) && m.leftAt == CreateAssetFileAt;
    // each run named here is unfolded one step
    ghost var trail := [m.RunFrom(1), m.RunFrom(2), m.RunFrom(3), m.RunFrom(4), m.RunFrom(5)];
    assert ThumbnailSteps[0] == ParseVideoId && ThumbnailSteps[1] == GetBearerToken && ThumbnailSteps[2] == ValidateToken;
    assert ThumbnailSteps[3] == ReadFormFile && ThumbnailSteps[4] == ParseMediaType && ThumbnailSteps[5] == CheckMediaType;
  }

  /** Steps 6-7: the record and its owner. */
  lemma OwnerPhase(cfg: Config, env: ThumbnailEnv)
    requires env.request.videoId.Some? && env.request.jwtUser.Some?
    ensures var req := env.request;
      ThumbnailMachine(cfg, env).RunFrom(6) ==
        if req.videoId.value !in env.records then Outcome(StatusUnauthorized, None, ThumbnailSteps[..7], None)
        else if req.jwtUser.value != env.records[req.videoId.value].userId then Outcome(StatusUnauthorized, None, ThumbnailSteps[..8], None)
        else ThumbnailMachine(cfg, env).RunFrom(8)
  {
    var m := ThumbnailMachine(cfg, env);
    assert m.steps == ThumbnailSteps && m.passes == ThumbnailCheck(env) && m.leftAt == CreateAssetFileAt;
    // each run named here is unfolded one step
    ghost var trail := m.RunFrom(7);
    assert ThumbnailSteps[6] == FetchVideo && ThumbnailSteps[7] == CheckOwner;
  }

  /** Steps 8-10: the asset file, the copy into it and the update. */
  lemma AssetPhase(cfg: Config, env: ThumbnailEnv)
    ensures ThumbnailMachine(cfg, env).RunFrom(8) ==
        if !env.fileCreated then Outcome(StatusBadRequest, None, ThumbnailSteps[..9], ThumbnailArtifact(cfg, env, 8))
        else if !env.copied then Outcome(StatusBadRequest, None, ThumbnailSteps[..10], ThumbnailArtifact(cfg, env, 9))
        else if !env.updateSucceeded then Outcome(StatusBadRequest, None, ThumbnailSteps, ThumbnailArtifact(cfg, env, 10))
        else Outcome(StatusOK, UpdatedThumbnail(cfg, env), ThumbnailSteps, ThumbnailArtifact(cfg, env, 11))
  {
    var m := ThumbnailMachine(cfg, env);
    assert m.steps == ThumbnailSteps && m.passes == ThumbnailCheck(env) && m.leftAt == CreateAssetFileAt;
    // each run named here is unfolded one step
    ghost var trail := [m.RunFrom(9), m.RunFrom(10), m.RunFrom(11)];
    assert ThumbnailSteps[8] == CreateAssetFile;
    assert ThumbnailSteps[9] == CopyToAssetFile && ThumbnailSteps[10] == UpdateRecord;
    assert ThumbnailSteps[..11] == ThumbnailSteps;
  }

  /**
   * When the copy succeeds, the handler as written answers exactly as the
   * early-exit run; the two part only on a failed copy.
   */
  lemma AsWrittenAgreesWhenCopied(cfg: Config, env: ThumbnailEnv)
    requires env.copied
    ensures ThumbnailAsWritten(cfg, env) == ThumbnailRun(cfg, env)
  {
    RequestPhase(cfg, env);
    var req := env.request;
    if req.videoId.Some? && req.jwtUser.Some? && MediaTypeOf(req).Some? && IsAllowedThumbnailType(MediaTypeOf(req).value) {
      OwnerPhase(cfg, env);
      AssetPhase(cfg, env);
    }
  }

  // ---------------------------------------------------------------------
  // What a run guarantees

  /** A bad id is a 400; a missing or invalid token is a 401; nothing else is looked at. */
  lemma ThumbnailAuthFailures(cfg: Config, env: ThumbnailEnv)
    ensures var out := ThumbnailAsWritten(cfg, env);
      && (env.request.videoId.None? ==> out.status == StatusBadRequest && out.trace == [ParseVideoId])
      && (env.request.videoId.Some? && (env.request.bearer.None? || env.request.jwtUser.None?) ==>
            out.status == StatusUnauthorized && 2 <= |out.trace| <= 3)
      && (env.request.videoId.None? || env.request.bearer.None? || env.request.jwtUser.None? ==>
            out.stored == None && out.artifact == None && out.trace == ThumbnailSteps[..|out.trace|])
  {
    assert ThumbnailSteps[..1] == [ParseVideoId];
  }

  /**
   * The media type is checked before the record is fetched: a rejected
   * upload is a 400 whatever the database holds, and neither the fetch nor
   * the owner check is attempted.
   */
  lemma ThumbnailMediaBeforeFetch(cfg: Config, env: ThumbnailEnv, otherRecords: map<Uuid, Video>)
    requires env.request.videoId.Some? && env.request.bearer.Some? && env.request.jwtUser.Some?
    requires MediaTypeOf(env.request).None? || !IsAllowedThumbnailType(MediaTypeOf(env.request).value)
    ensures var out := ThumbnailAsWritten(cfg, env);
      && out.status == StatusBadRequest && out.stored == None && out.artifact == None
      && FetchVideo !in out.trace && CheckOwner !in out.trace
      && out == ThumbnailAsWritten(cfg, env.(records := otherRecords))
  {
    assert ThumbnailSteps[..6] == [ParseVideoId, GetBearerToken, ValidateToken, ReadFormFile, ParseMediaType, CheckMediaType];
    assert ThumbnailSteps[..4] <= ThumbnailSteps[..5] <= ThumbnailSteps[..6];
  }

  /** Someone else's record, or none, is a 401: no file is created and nothing is stored. */
  lemma ThumbnailOwnerMismatch(cfg: Config, env: ThumbnailEnv)
    requires env.request.videoId.Some? && env.request.bearer.Some? && env.request.jwtUser.Some?
    requires MediaTypeOf(env.request).Some? && IsAllowedThumbnailType(MediaTypeOf(env.request).value)
    requires !OwnerMatches(env.request, env.records)
    ensures var out := ThumbnailAsWritten(cfg, env);
      && out.status == StatusUnauthorized && out.stored == None && out.artifact == None
      && CreateAssetFile !in out.trace && UpdateRecord !in out.trace
  {
    assert ThumbnailSteps[..8] == [ParseVideoId, GetBearerToken, ValidateToken, ReadFormFile, ParseMediaType,
      CheckMediaType, FetchVideo, CheckOwner];
    assert ThumbnailSteps[..7] <= ThumbnailSteps[..8];
  }

  /** A 200 happens exactly when every check passes. */
  lemma ThumbnailOkIffAllPass(cfg: Config, env: ThumbnailEnv)
    ensures ThumbnailAsWritten(cfg, env).status == StatusOK <==>
      && env.request.videoId.Some? && env.request.bearer.Some? && env.request.jwtUser.Some?
      && MediaTypeOf(env.request).Some? && IsAllowedThumbnailType(MediaTypeOf(env.request).value)
      && OwnerMatches(env.request, env.records)
      && env.fileCreated && env.copied && env.updateSucceeded
  {
  }

  /**
   * On a 200 the record written is the fetched one with only its thumbnail
   * URL changed, and that URL names the file created under the assets root,
   * whose name is the hex of the random bytes followed by the extension.
   */
  lemma ThumbnailSuccessRecord(cfg: Config, env: ThumbnailEnv)
    ensures var out := ThumbnailAsWritten(cfg, env);
      out.status == StatusOK ==>
        && Fetched(env.request, env.records).Some? && out.artifact.Some? && out.artifact.value.AssetFile?
        && MediaTypeOf(env.request).Some? && '/' in MediaTypeOf(env.request).value
        && var v := Fetched(env.request, env.records).value;
           var file := out.artifact.value;
           && file.dir == cfg.assetsRoot
           && file.name == AssetName(env.randKey, Extension(MediaTypeOf(env.request).value))
           && out.stored == Some(v.(thumbnailUrl := Some(ThumbnailUrl(cfg.port, file.name))))
           && ThumbnailUrlName(cfg.port, out.stored.value.thumbnailUrl.value) == Some(file.name)
  {
    var out := ThumbnailAsWritten(cfg, env);
    if out.status == StatusOK {
      ThumbnailOkIffAllPass(cfg, env);
      var req := env.request;
      var mediaType := req.form.value.mediaType.value;
      AllowedExtensions(mediaType);
      var name := AssetName(env.randKey, Extension(mediaType));
      var v := env.records[req.videoId.value];
      assert out == Outcome(StatusOK, Some(v.(thumbnailUrl := Some(ThumbnailUrl(cfg.port, name)))), ThumbnailSteps,
        Some(AssetFile(cfg.assetsRoot, name)));
    }
  }

  /**
   * Finding, as written: when the copy into the asset file fails the
   * handler sends a 400 but goes on, so a successful update stores a
   * record whose thumbnail URL points at that file, and the client is told
   * the upload failed. The early-exit run stores nothing.
   */
  lemma CopyFailureStillStores(cfg: Config, env: ThumbnailEnv)
    requires env.request.videoId.Some? && env.request.bearer.Some? && env.request.jwtUser.Some?
    requires MediaTypeOf(env.request).Some? && IsAllowedThumbnailType(MediaTypeOf(env.request).value)
    requires OwnerMatches(env.request, env.records)
    requires env.fileCreated && !env.copied && env.updateSucceeded
    ensures '/' in MediaTypeOf(env.request).value
    ensures var out := ThumbnailAsWritten(cfg, env);
      var name := AssetName(env.randKey, Extension(MediaTypeOf(env.request).value));
      && out.status == StatusBadRequest && UpdateRecord in out.trace
      && out.artifact == Some(AssetFile(cfg.assetsRoot, name))
      && out.stored == Some(env.records[env.request.videoId.value].(thumbnailUrl := Some(ThumbnailUrl(cfg.port, name))))
    ensures ThumbnailRun(cfg, env).stored == None
  {
    AllowedExtensions(MediaTypeOf(env.request).value);
    RequestPhase(cfg, env);
    OwnerPhase(cfg, env);
    AssetPhase(cfg, env);
    assert ThumbnailSteps[10] == UpdateRecord;
  }

  /** No failing check answers 200. */
  lemma ThumbnailFailuresAreErrors()
    ensures forall s :: ThumbnailFailStatus(s) != StatusOK
  {
  }

  /** Once the media type is accepted and the record fetched, there is an updated record to write. */
  lemma ThumbnailUpdateReady(cfg: Config, env: ThumbnailEnv)
    requires ThumbnailPasses(env, CheckMediaType) && ThumbnailPasses(env, FetchVideo)
    ensures UpdatedThumbnail(cfg, env).Some?
  {
  }

  /** In the early-exit run a record is stored exactly on a 200. */
  lemma ThumbnailStoredIffOk(cfg: Config, env: ThumbnailEnv)
    ensures var out := ThumbnailRun(cfg, env);
      out.stored.Some? <==> out.status == StatusOK
  {
    var m := ThumbnailMachine(cfg, env);
    ThumbnailFailuresAreErrors();
    StoresOnlyOnSuccess(m);
    if m.Run().status == StatusOK {
      PassedOnOk(m, 5);
      PassedOnOk(m, 6);
      assert ThumbnailSteps[5] == CheckMediaType && ThumbnailSteps[6] == FetchVideo;
      ThumbnailUpdateReady(cfg, env);
    }
  }

  /** In the early-exit run a failed copy ends the request before the update. */
  lemma ThumbnailCopyFailureStops(cfg: Config, env: ThumbnailEnv)
    requires !env.copied
    ensures var out := ThumbnailRun(cfg, env);
      out.status != StatusOK && out.stored == None && UpdateRecord !in out.trace
  {
    var m := ThumbnailMachine(cfg, env);
    ThumbnailFailuresAreErrors();
    assert ThumbnailSteps[9] == CopyToAssetFile;
    StopsBy(m, 9);
    assert ThumbnailSteps[..10] == [ParseVideoId, GetBearerToken, ValidateToken, ReadFormFile, ParseMediaType,
      CheckMediaType, FetchVideo, CheckOwner, CreateAssetFile, CopyToAssetFile];
    assert forall k :: 1 <= k <= 10 ==> ThumbnailSteps[..k] <= ThumbnailSteps[..10];
  }

  /**
   * Corrected: in the early-exit run a record is stored exactly on a 200,
   * and a failed copy is an error that stores nothing and skips the update.
   */
  lemma ThumbnailRunStoresOnlyOnSuccess(cfg: Config, env: ThumbnailEnv)
    ensures var out := ThumbnailRun(cfg, env);
      out.stored.Some? <==> out.status == StatusOK
    ensures !env.copied ==>
      var out := ThumbnailRun(cfg, env);
      out.status != StatusOK && out.stored == None && UpdateRecord !in out.trace
  {
    ThumbnailStoredIffOk(cfg, env);
    if !env.copied {
      ThumbnailCopyFailureStops(cfg, env);
    }
  }
}
