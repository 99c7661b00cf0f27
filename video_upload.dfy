/**
 * `handlerUploadVideo` and the pure pieces it is built from: the storage
 * key, the fast-start output path and the locator written to the record.
 * External calls (UUID parsing, JWT checks, the database, temp files,
 * ffprobe, ffmpeg, S3, crypto/rand) enter as the results they produce.
 */
module VideoUpload {
  import opened Wrappers
  import opened Strings
  import opened Hex
  import opened Aspect
  import opened Api

  const VideoMediaType := "video/mp4"

  /** The allow-list of the video endpoint: one type, whose subtype is the `.mp4` the key ends in. */
  predicate IsAllowedVideoType(mediaType: string)
    ensures IsAllowedVideoType(mediaType) ==> Split(mediaType, '/') == ["video", "mp4"]
  {
    assert VideoMediaType == "video" + ['/'] + "mp4";
    SplitTwo("video", "mp4", '/');
    mediaType == VideoMediaType
  }

  // ---------------------------------------------------------------------
  // Storage key

  /** `ratio + "/" + hex.EncodeToString(randKey) + ".mp4"`; `FileKeyRoundTrip` is its inverse. */
  function FileKey(aspect: AspectClass, randKey: seq<byte>): string
  {
    aspect.Name() + "/" + Encode(randKey) + ".mp4"
  }

  /** Reads a key back into its class and random bytes. */
  function ParseFileKey(key: string): Option<(AspectClass, seq<byte>)>
  {
    var parts := Split(key, '/');
    if |parts| != 2 then None
    else
      var name := parts[1];
      if |name| < 4 || name[|name| - 4..] != ".mp4" then None
      else
        match (ClassNamed(parts[0]), Decode(name[..|name| - 4]))
        case (Some(c), Some(bytes)) => Some((c, bytes))
        case _ => None
  }

  /** The part after the class: hex digits and the suffix, no '/' or ','. */
  lemma KeyTailSafe(randKey: seq<byte>)
    ensures var tail := Encode(randKey) + ".mp4";
      '/' !in tail && ',' !in tail
      && tail[|tail| - 4..] == ".mp4" && tail[..|tail| - 4] == Encode(randKey)
  {
    var hex := Encode(randKey);
    var tail := hex + ".mp4";
    forall i | 0 <= i < |tail| ensures tail[i] != '/' && tail[i] != ',' {
      if i < |hex| { assert IsLowerHexDigit(hex[i]); }
    }
    assert tail[|tail| - 4..] == ".mp4";
    assert tail[..|tail| - 4] == hex;
  }

  /** A key reads back as the class and bytes it was built from. */
  lemma FileKeyRoundTrip(aspect: AspectClass, randKey: seq<byte>)
    ensures ParseFileKey(FileKey(aspect, randKey)) == Some((aspect, randKey))
  {
    var tail := Encode(randKey) + ".mp4";
    assert FileKey(aspect, randKey) == aspect.Name() + ['/'] + tail;
    KeyTailSafe(randKey);
    SplitTwo(aspect.Name(), tail, '/');
    DecodeEncode(randKey);
    ClassNamedName(aspect);
  }

  /** Different classes or different random bytes never give the same key. */
  lemma FileKeyInjective(a1: AspectClass, r1: seq<byte>, a2: AspectClass, r2: seq<byte>)
    requires FileKey(a1, r1) == FileKey(a2, r2)
    ensures a1 == a2 && r1 == r2
  {
    FileKeyRoundTrip(a1, r1);
    FileKeyRoundTrip(a2, r2);
  }

  /**
   * The shape of a key: the class, one '/', 64 lower-case hex digits and
   * ".mp4"; splitting at '/' gives back the class name and the file name.
   */
  lemma FileKeyShape(aspect: AspectClass, randKey: RandKey)
    ensures var key := FileKey(aspect, randKey);
      var n := |aspect.Name()|;
      && |key| == n + 1 + 2 * RandKeyLen + 4
      && Split(key, '/') == [aspect.Name(), Encode(randKey) + ".mp4"]
      && (forall i :: n < i < n + 1 + 2 * RandKeyLen ==> IsLowerHexDigit(key[i]))
      && key[n + 1 + 2 * RandKeyLen..] == ".mp4"
  {
    var key := FileKey(aspect, randKey);
    var n := |aspect.Name()|;
    var hex := Encode(randKey);
    var tail := hex + ".mp4";
    assert key == aspect.Name() + ['/'] + tail;
    KeyTailSafe(randKey);
    SplitTwo(aspect.Name(), tail, '/');
    forall i | n < i < n + 1 + 2 * RandKeyLen ensures IsLowerHexDigit(key[i]) {
      assert key[i] == hex[i - n - 1];
    }
    assert key[n + 1 + 2 * RandKeyLen..] == tail[|tail| - 4..];
  }

  /** No key contains ',', the separator of a "bucket,key" locator. */
  lemma FileKeyHasNoComma(aspect: AspectClass, randKey: seq<byte>)
    ensures ',' !in FileKey(aspect, randKey)
  {
    var tail := Encode(randKey) + ".mp4";
    assert FileKey(aspect, randKey) == aspect.Name() + ['/'] + tail;
    KeyTailSafe(randKey);
  }

  // ---------------------------------------------------------------------
  // Fast-start output path

  /** `processVideoForFastStart` writes its output beside the input, from which it can be read back. */
  function FastStartPath(filePath: string): (outPath: string)
    ensures FastStartInput(outPath) == Some(filePath)
  {
    var outPath := filePath + ".processing";
    assert outPath[|outPath| - 11..] == ".processing";
    assert outPath[..|outPath| - 11] == filePath;
    outPath
  }

  /** The input a fast-start output path was derived from. */
  function FastStartInput(outPath: string): Option<string>
  {
    if |outPath| >= 11 && outPath[|outPath| - 11..] == ".processing" then Some(outPath[..|outPath| - 11])
    else None
  }

  /** The output path starts with the input, is strictly longer and never equals it. */
  lemma FastStartPathFresh(filePath: string)
    ensures |FastStartPath(filePath)| > |filePath|
    ensures FastStartPath(filePath) != filePath
    ensures FastStartPath(filePath)[..|filePath|] == filePath
  {
    var out := FastStartPath(filePath);
    assert out[..|filePath|] == filePath;
  }

  /** ffmpeg's exit status decides between the output path and an error. */
  function ProcessVideoForFastStart(filePath: string, ffmpegSucceeded: bool): (out: Option<string>)
    ensures out.Some? <==> ffmpegSucceeded
    ensures out.Some? ==> FastStartInput(out.value) == Some(filePath)
  {
    if ffmpegSucceeded then Some(FastStartPath(filePath)) else None
  }

  // ---------------------------------------------------------------------
  // The locator written to the record

  /**
   * `fmt.Sprintf("https://%s/%s", cfg.s3CfDistribution, fileKey)`: the key is
   * the locator's tail, and the locator holds a ',' only if the distribution
   * or the key does.
   */
  function VideoLocator(distribution: string, key: string): (url: string)
    ensures |url| >= |key| && url[|url| - |key|..] == key
    ensures ',' in url <==> ',' in distribution || ',' in key
  {
    var url := "https://" + distribution + "/" + key;
    assert url == "https://" + distribution + ['/'] + key;
    assert url[|url| - |key|..] == key;
    assert ',' !in "https://";
    url
  }

  // ---------------------------------------------------------------------
  // The handler

  /** The results the environment hands to one run of the handler. */
  datatype VideoEnv = VideoEnv(
    request: Request,
    records: map<Uuid, Video>,
    tempCreated: bool,              // os.CreateTemp succeeded
    tempPath: string,               // the temp file's name
    copied: bool,                   // io.Copy into the temp file succeeded
    probe: Option<seq<Stream>>,     // ffprobe's streams, None when it or the JSON failed
    rewound: bool,                  // Seek(0, io.SeekStart) succeeded
    randKey: RandKey,               // the bytes crypto/rand produced
    ffmpegSucceeded: bool,
    processedOpened: bool,          // os.Open of the processed file succeeded
    putSucceeded: bool,             // s3 PutObject succeeded
    updateSucceeded: bool)          // db.UpdateVideo succeeded

  /** The video handler's checks, in the order it makes them. */
  const VideoSteps: seq<Step> := [
    ParseVideoId, GetBearerToken, ValidateToken, FetchVideo, CheckOwner,
    ReadFormFile, ParseMediaType, CheckMediaType,
    CreateTempFile, CopyToTempFile, ProbeAspect, RewindTempFile,
    RemuxFastStart, OpenProcessedFile, PutObject, UpdateRecord]

  /** Positions of `ProbeAspect` and `PutObject` in `VideoSteps`. */
  const ProbeAspectAt := 10
  const PutObjectAt := 14

  /** The status the video handler responds with when a step fails. */
  function VideoFailStatus(s: Step): int
  {
    match s
    case FetchVideo => StatusUnauthorized
    case CheckOwner => StatusUnauthorized
    case CreateTempFile => StatusInternalServerError
    case CopyToTempFile => StatusInternalServerError
    case ProbeAspect => StatusInternalServerError
    case RewindTempFile => StatusInternalServerError
    case RemuxFastStart => StatusInternalServerError
    case OpenProcessedFile => StatusInternalServerError
    case PutObject => StatusInternalServerError
    case _ => StatusBadRequest
  }

  /** Whether a step succeeds in this environment. */
  predicate VideoPasses(cfg: Config, env: VideoEnv, s: Step)
  {
    match s
    case ParseVideoId => env.request.videoId.Some?
    case GetBearerToken => env.request.bearer.Some?
    case ValidateToken => env.request.jwtUser.Some?
    case FetchVideo => Fetched(env.request, env.records).Some?
    case CheckOwner => OwnerMatches(env.request, env.records)
    case ReadFormFile => env.request.form.Some?
    case ParseMediaType => MediaTypeOf(env.request).Some?
    case CheckMediaType => MediaTypeOf(env.request).Some? && IsAllowedVideoType(MediaTypeOf(env.request).value)
    case CreateTempFile => env.tempCreated
    case CopyToTempFile => env.copied
    case ProbeAspect => GetVideoAspectRatio(env.probe).Success?
    case RewindTempFile => env.rewound
    case RemuxFastStart => ProcessVideoForFastStart(env.tempPath, env.ffmpegSucceeded).Some?
    case OpenProcessedFile => env.processedOpened
    case PutObject => env.putSucceeded
    case UpdateRecord => env.updateSucceeded
    case _ => true
  }

  function VideoCheck(cfg: Config, env: VideoEnv): Step -> bool
  {
    s => VideoPasses(cfg, env, s)
  }

  /** The key the object is stored under, once the class is known. */
  function UploadKey(env: VideoEnv): Option<string>
  {
    match GetVideoAspectRatio(env.probe)
    case Success(c) => Some(FileKey(c, env.randKey))
    case Failure(_) => None
  }

  /** The fetched record with its locator pointing at the uploaded object. */
  function UpdatedVideo(cfg: Config, env: VideoEnv): Option<Video>
  {
    match (Fetched(env.request, env.records), UploadKey(env))
    case (Some(v), Some(key)) => Some(v.(videoUrl := Some(VideoLocator(cfg.s3CfDistribution, key))))
    case _ => None
  }

  /** The object put into the bucket, once the class is known. */
  function VideoObject(cfg: Config, env: VideoEnv): Option<Artifact>
  {
    if UploadKey(env).Some? then Some(StoredObject(cfg.s3Bucket, UploadKey(env).value)) else None
  }

  /** The handler as a chain of checks; the object is left behind once `PutObject` has passed. */
  function VideoMachine(cfg: Config, env: VideoEnv): Machine
  {
    Machine(VideoSteps, VideoCheck(cfg, env), VideoFailStatus, UpdatedVideo(cfg, env), VideoObject(cfg, env), PutObjectAt)
  }

  function VideoRun(cfg: Config, env: VideoEnv): Outcome
  {
    VideoMachine(cfg, env).Run()
  }

  /**
   * The same run written as the handler's chain of early returns, one
   * branch per check. `HandleUploadVideo` below takes the same branches as
   * statements; this copy is the value lemmas can reason about, since a
   * lemma cannot call a method.
   */
  function VideoNested(cfg: Config, env: VideoEnv): Outcome
  {
    var req := env.request;
    if req.videoId.None? then Outcome(StatusBadRequest, None, VideoSteps[..1], None)
    else if req.bearer.None? then Outcome(StatusBadRequest, None, VideoSteps[..2], None)
    else if req.jwtUser.None? then Outcome(StatusBadRequest, None, VideoSteps[..3], None)
    else if req.videoId.value !in env.records then Outcome(StatusUnauthorized, None, VideoSteps[..4], None)
    else if req.jwtUser.value != env.records[req.videoId.value].userId then Outcome(StatusUnauthorized, None, VideoSteps[..5], None)
    else if req.form.None? then Outcome(StatusBadRequest, None, VideoSteps[..6], None)
    else if req.form.value.mediaType.None? then Outcome(StatusBadRequest, None, VideoSteps[..7], None)
    else if req.form.value.mediaType.value != VideoMediaType then Outcome(StatusBadRequest, None, VideoSteps[..8], None)
    else if !env.tempCreated then Outcome(StatusInternalServerError, None, VideoSteps[..9], None)
    else if !env.copied then Outcome(StatusInternalServerError, None, VideoSteps[..10], None)
    else if GetVideoAspectRatio(env.probe).Failure? then Outcome(StatusInternalServerError, None, VideoSteps[..11], None)
    else if !env.rewound then Outcome(StatusInternalServerError, None, VideoSteps[..12], None)
    else if !env.ffmpegSucceeded then Outcome(StatusInternalServerError, None, VideoSteps[..13], None)
    else if !env.processedOpened then Outcome(StatusInternalServerError, None, VideoSteps[..14], None)
    else if !env.putSucceeded then Outcome(StatusInternalServerError, None, VideoSteps[..15], None)
    else
      var key := FileKey(GetVideoAspectRatio(env.probe).value, env.randKey);
      var artifact := Some(StoredObject(cfg.s3Bucket, key));
      if !env.updateSucceeded then Outcome(StatusBadRequest, None, VideoSteps[..16], artifact)
      else
        var video := env.records[req.videoId.value];
        Outcome(StatusOK, Some(video.(videoUrl := Some(VideoLocator(cfg.s3CfDistribution, key)))), VideoSteps, artifact)
  }

  /** Steps 0-4: the id, the token and the record's owner. */
  lemma AuthorizePhase(cfg: Config, env: VideoEnv)
    ensures var req := env.request;
      VideoMachine(cfg, env).RunFrom(0) ==
        if req.videoId.None? then Outcome(StatusBadRequest, None, VideoSteps[..1], None)
        else if req.bearer.None? then Outcome(StatusBadRequest, None, VideoSteps[..2], None)
        else if req.jwtUser.None? then Outcome(StatusBadRequest, None, VideoSteps[..3], None)
        else if req.videoId.value !in env.records then Outcome(StatusUnauthorized, None, VideoSteps[..4], None)
        else if req.jwtUser.value != env.records[req.videoId.value].userId then Outcome(StatusUnauthorized, None, VideoSteps[..5], None)
        else VideoMachine(cfg, env).RunFrom(5)
  {
    var m := VideoMachine(cfg, env);
    assert m.steps == VideoSteps && m.passes == VideoCheck(cfg, env) && m.leftAt == PutObjectAt;
    // each run named here is unfolded one step
    ghost var trail := [m.RunFrom(1), m.RunFrom(2), m.RunFrom(3), m.RunFrom(4)];
    assert VideoSteps[0] == ParseVideoId && VideoSteps[1] == GetBearerToken && VideoSteps[2] == ValidateToken;
    assert VideoSteps[3] == FetchVideo && VideoSteps[4] == CheckOwner;
  }

  /** Steps 5-7: the multipart file and its media type. */
  lemma MediaPhase(cfg: Config, env: VideoEnv)
    ensures var req := env.request;
      VideoMachine(cfg, env).RunFrom(5) ==
        if req.form.None? then Outcome(StatusBadRequest, None, VideoSteps[..6], None)
        else if req.form.value.mediaType.None? then Outcome(StatusBadRequest, None, VideoSteps[..7], None)
        else if req.form.value.mediaType.value != VideoMediaType then Outcome(StatusBadRequest, None, VideoSteps[..8], None)
        else VideoMachine(cfg, env).RunFrom(8)
  {
    var m := VideoMachine(cfg, env);
    assert m.steps == VideoSteps && m.passes == VideoCheck(cfg, env) && m.leftAt == PutObjectAt;
    // each run named here is unfolded one step
    ghost var trail := [m.RunFrom(6), m.RunFrom(7)];
    assert VideoSteps[5] == ReadFormFile && VideoSteps[6] == ParseMediaType && VideoSteps[7] == CheckMediaType;
  }

  /** Steps 8-9: the temp file and the copy into it. */
  lemma TempFilePhase(cfg: Config, env: VideoEnv)
    ensures VideoMachine(cfg, env).RunFrom(8) ==
        if !env.tempCreated then Outcome(StatusInternalServerError, None, VideoSteps[..9], None)
        else if !env.copied then Outcome(StatusInternalServerError, None, VideoSteps[..10], None)
        else VideoMachine(cfg, env).RunFrom(10)
  {
    var m := VideoMachine(cfg, env);
    assert m.steps == VideoSteps && m.passes == VideoCheck(cfg, env) && m.leftAt == PutObjectAt;
    // each run named here is unfolded one step
    ghost var trail := m.RunFrom(9);
    assert VideoSteps[8] == CreateTempFile && VideoSteps[9] == CopyToTempFile;
  }

  /** Steps 10-11: the probe and the rewind. */
  lemma ProbePhase(cfg: Config, env: VideoEnv)
    ensures VideoMachine(cfg, env).RunFrom(10) ==
        if GetVideoAspectRatio(env.probe).Failure? then Outcome(StatusInternalServerError, None, VideoSteps[..11], None)
        else if !env.rewound then Outcome(StatusInternalServerError, None, VideoSteps[..12], None)
        else VideoMachine(cfg, env).RunFrom(12)
  {
    var m := VideoMachine(cfg, env);
    assert m.steps == VideoSteps && m.passes == VideoCheck(cfg, env) && m.leftAt == PutObjectAt;
    // each run named here is unfolded one step
    ghost var trail := m.RunFrom(11);
    assert VideoSteps[10] == ProbeAspect && VideoSteps[11] == RewindTempFile;
  }

  /** Steps 12-14: the remux, the processed file and the upload. */
  lemma UploadPhase(cfg: Config, env: VideoEnv)
    ensures VideoMachine(cfg, env).RunFrom(12) ==
        if !env.ffmpegSucceeded then Outcome(StatusInternalServerError, None, VideoSteps[..13], None)
        else if !env.processedOpened then Outcome(StatusInternalServerError, None, VideoSteps[..14], None)
        else if !env.putSucceeded then Outcome(StatusInternalServerError, None, VideoSteps[..15], None)
        else VideoMachine(cfg, env).RunFrom(15)
  {
    var m := VideoMachine(cfg, env);
    assert m.steps == VideoSteps && m.passes == VideoCheck(cfg, env) && m.leftAt == PutObjectAt;
    // each run named here is unfolded one step
    ghost var trail := [m.RunFrom(13), m.RunFrom(14)];
    assert VideoSteps[12] == RemuxFastStart && VideoSteps[13] == OpenProcessedFile && VideoSteps[14] == PutObject;
  }

  /** Step 15: the record update, once the object is in the bucket. */
  lemma RecordPhase(cfg: Config, env: VideoEnv)
    requires GetVideoAspectRatio(env.probe).Success?
    ensures VideoMachine(cfg, env).RunFrom(15) ==
        var key := FileKey(GetVideoAspectRatio(env.probe).value, env.randKey);
        var artifact := Some(StoredObject(cfg.s3Bucket, key));
        if !env.updateSucceeded then Outcome(StatusBadRequest, None, VideoSteps[..16], artifact)
        else Outcome(StatusOK, UpdatedVideo(cfg, env), VideoSteps, artifact)
  {
    var m := VideoMachine(cfg, env);
    assert m.steps == VideoSteps && m.passes == VideoCheck(cfg, env) && m.leftAt == PutObjectAt;
    // each run named here is unfolded one step
    ghost var trail := m.RunFrom(16);
    assert VideoSteps[15] == UpdateRecord;
  }

  /** The chain of early returns is the step machine run over `VideoSteps`. */
  lemma VideoNestedIsRun(cfg: Config, env: VideoEnv)
    ensures VideoNested(cfg, env) == VideoRun(cfg, env)
  {
    AuthorizePhase(cfg, env);
    MediaPhase(cfg, env);
    TempFilePhase(cfg, env);
    ProbePhase(cfg, env);
    UploadPhase(cfg, env);
    if GetVideoAspectRatio(env.probe).Success? {
      RecordPhase(cfg, env);
    }
  }

  /**
   * `handlerUploadVideo`: the same checks as early returns, rewriting the
   * fetched record's `VideoURL` before the database update. Each return
   * answers what the step machine answers after that many checks.
   */
  method HandleUploadVideo(cfg: Config, env: VideoEnv) returns (out: Outcome)
    ensures out == VideoRun(cfg, env)
  {
    VideoNestedIsRun(cfg, env);
    if env.request.videoId.None? {
      return Outcome(StatusBadRequest, None, VideoSteps[..1], None);
    }
    var videoId := env.request.videoId.value;

    if env.request.bearer.None? {
      return Outcome(StatusBadRequest, None, VideoSteps[..2], None);
    }
    if env.request.jwtUser.None? {
      return Outcome(StatusBadRequest, None, VideoSteps[..3], None);
    }
    var userId := env.request.jwtUser.value;

    if videoId !in env.records {
      return Outcome(StatusUnauthorized, None, VideoSteps[..4], None);
    }
    var video := env.records[videoId];
    if userId != video.userId {
      return Outcome(StatusUnauthorized, None, VideoSteps[..5], None);
    }

    if env.request.form.None? {
      return Outcome(StatusBadRequest, None, VideoSteps[..6], None);
    }
    if env.request.form.value.mediaType.None? {
      return Outcome(StatusBadRequest, None, VideoSteps[..7], None);
    }
    var parsedMediaType := env.request.form.value.mediaType.value;
    if parsedMediaType != VideoMediaType {
      return Outcome(StatusBadRequest, None, VideoSteps[..8], None);
    }

    if !env.tempCreated {
      return Outcome(StatusInternalServerError, None, VideoSteps[..9], None);
    }
    if !env.copied {
      return Outcome(StatusInternalServerError, None, VideoSteps[..10], None);
    }
    var ratio := GetVideoAspectRatio(env.probe);
    if ratio.Failure? {
      return Outcome(StatusInternalServerError, None, VideoSteps[..11], None);
    }
    if !env.rewound {
      return Outcome(StatusInternalServerError, None, VideoSteps[..12], None);
    }

    var fileKey := FileKey(ratio.value, env.randKey);

    var outPath := ProcessVideoForFastStart(env.tempPath, env.ffmpegSucceeded);
    if outPath.None? {
      return Outcome(StatusInternalServerError, None, VideoSteps[..13], None);
    }
    if !env.processedOpened {
      return Outcome(StatusInternalServerError, None, VideoSteps[..14], None);
    }
    if !env.putSucceeded {
      return Outcome(StatusInternalServerError, None, VideoSteps[..15], None);
    }
    var artifact := Some(StoredObject(cfg.s3Bucket, fileKey));

    video := video.(videoUrl := Some(VideoLocator(cfg.s3CfDistribution, fileKey)));

    if !env.updateSucceeded {
      return Outcome(StatusBadRequest, None, VideoSteps[..16], artifact);
    }
    return Outcome(StatusOK, Some(video), VideoSteps, artifact);
  }

  // ---------------------------------------------------------------------
  // What a run guarantees

  /** The id, the token and the token's validity are checked first; each failure is a 400. */
  lemma VideoBadRequestBeforeFetch(cfg: Config, env: VideoEnv)
    requires env.request.videoId.None? || env.request.bearer.None? || env.request.jwtUser.None?
    ensures var out := VideoRun(cfg, env);
      && out.status == StatusBadRequest && out.stored == None && out.artifact == None
      && 1 <= |out.trace| <= 3 && out.trace == VideoSteps[..|out.trace|]
  {
    VideoNestedIsRun(cfg, env);
  }

  /**
   * A record the database does not return, or one owned by someone else,
   * is a 401, and the upload is never read, stored or probed.
   */
  lemma VideoUnauthorizedBeforeForm(cfg: Config, env: VideoEnv)
    requires env.request.videoId.Some? && env.request.bearer.Some? && env.request.jwtUser.Some?
    requires !OwnerMatches(env.request, env.records)
    ensures var out := VideoRun(cfg, env);
      && out.status == StatusUnauthorized && out.stored == None && out.artifact == None
      && ReadFormFile !in out.trace && CreateTempFile !in out.trace
      && ProbeAspect !in out.trace && PutObject !in out.trace
  {
    VideoNestedIsRun(cfg, env);
    assert VideoSteps[..4] == [ParseVideoId, GetBearerToken, ValidateToken, FetchVideo];
    assert VideoSteps[..5] == [ParseVideoId, GetBearerToken, ValidateToken, FetchVideo, CheckOwner];
  }

  /** A file that is not `video/mp4` is a 400 from an owner, before any probing or remuxing. */
  lemma VideoWrongTypeBeforeProbe(cfg: Config, env: VideoEnv)
    requires env.request.bearer.Some? && OwnerMatches(env.request, env.records)
    requires MediaTypeOf(env.request).None? || !IsAllowedVideoType(MediaTypeOf(env.request).value)
    ensures var out := VideoRun(cfg, env);
      && out.status == StatusBadRequest && out.stored == None && out.artifact == None
      && CreateTempFile !in out.trace && ProbeAspect !in out.trace && RemuxFastStart !in out.trace
  {
    VideoNestedIsRun(cfg, env);
    assert VideoSteps[..8] == [ParseVideoId, GetBearerToken, ValidateToken, FetchVideo, CheckOwner,
      ReadFormFile, ParseMediaType, CheckMediaType];
    assert VideoSteps[..6] <= VideoSteps[..7] <= VideoSteps[..8];
  }

  /** A probe that yields no stream is a 500; nothing is remuxed or stored. */
  lemma VideoNoStreamsIsServerError(cfg: Config, env: VideoEnv)
    requires env.request.bearer.Some? && OwnerMatches(env.request, env.records)
    requires MediaTypeOf(env.request) == Some(VideoMediaType)
    requires env.tempCreated && env.copied && env.probe == Some([])
    ensures var out := VideoRun(cfg, env);
      && out.status == StatusInternalServerError && out.stored == None && out.artifact == None
      && RemuxFastStart !in out.trace && PutObject !in out.trace
  {
    VideoNestedIsRun(cfg, env);
    assert VideoSteps[..ProbeAspectAt + 1] == [ParseVideoId, GetBearerToken, ValidateToken, FetchVideo, CheckOwner,
      ReadFormFile, ParseMediaType, CheckMediaType, CreateTempFile, CopyToTempFile, ProbeAspect];
  }

  /** A 200 happens exactly when every check passes. */
  lemma VideoOkIffAllPass(cfg: Config, env: VideoEnv)
    ensures VideoRun(cfg, env).status == StatusOK <==>
      forall i :: 0 <= i < |VideoSteps| ==> VideoPasses(cfg, env, VideoSteps[i])
  {
    var m := VideoMachine(cfg, env);
    OkIffAllPass(m);
    assert forall i :: 0 <= i < |VideoSteps| ==> (m.passes(m.steps[i]) <==> VideoPasses(cfg, env, VideoSteps[i]));
  }

  /**
   * On a 200 the record written and returned is the fetched one with only
   * its locator changed, pointing through the distribution at the key
   * under which the object was put.
   */
  lemma VideoSuccessRecord(cfg: Config, env: VideoEnv)
    ensures var out := VideoRun(cfg, env);
      out.status == StatusOK ==>
        && Fetched(env.request, env.records).Some? && GetVideoAspectRatio(env.probe).Success?
        && var v := Fetched(env.request, env.records).value;
        var key := FileKey(GetVideoAspectRatio(env.probe).value, env.randKey);
        && out.stored == Some(v.(videoUrl := Some("https://" + cfg.s3CfDistribution + "/" + key)))
        && out.artifact == Some(StoredObject(cfg.s3Bucket, key))
  {
    VideoNestedIsRun(cfg, env);
  }

  /** A record is written only on a 200. */
  lemma VideoStoredOnlyOnSuccess(cfg: Config, env: VideoEnv)
    ensures var out := VideoRun(cfg, env);
      out.stored.Some? <==> out.status == StatusOK
  {
    VideoNestedIsRun(cfg, env);
  }

  /**
   * An object is left in the bucket exactly when the run got through to
   * the database update; when that update fails the response is a 400 and
   * the object stays behind with no record pointing at it.
   */
  lemma VideoObjectLeftBehind(cfg: Config, env: VideoEnv)
    ensures var out := VideoRun(cfg, env);
      out.artifact.Some? <==> out.trace == VideoSteps
    ensures var out := VideoRun(cfg, env);
      out.artifact.Some? && !env.updateSucceeded ==> out.status == StatusBadRequest && out.stored == None
  {
    VideoNestedIsRun(cfg, env);
  }
}
