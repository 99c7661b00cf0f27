/**
 * What the two upload handlers share: the `database.Video` record they
 * read and rewrite, the `apiConfig` values they consult, the results of the
 * request-parsing and authentication calls they make, and the shape of a
 * handler run as an ordered chain of checks with early exits.
 */
module Api {
  import opened Wrappers
  import opened Hex

  /** A UUID as rendered by `uuid.UUID.String()`; owners are compared on these strings. */
  type Uuid = string

  /** The fields of `database.Video` the handlers touch; the rest is carried unchanged. */
  datatype Video = Video(
    id: Uuid,
    userId: Uuid,
    title: string,
    description: string,
    thumbnailUrl: Option<string>,
    videoUrl: Option<string>)

  /** Number of random bytes each handler draws for a name. */
  const RandKeyLen := 32

  /** The buffer `make([]byte, 32)` that `rand.Read` fills. */
  type RandKey = s: seq<byte> | |s| == RandKeyLen witness seq(RandKeyLen, _ => 0 as byte)

  datatype Config = Config(
    s3Bucket: string,
    s3CfDistribution: string,
    assetsRoot: string,
    port: string)

  /** The uploaded form part: `mediaType` is `mime.ParseMediaType`'s base type, `None` when it fails. */
  datatype FormFile = FormFile(mediaType: Option<string>)

  /** What the request yields to the handler's parsing and authentication calls. */
  datatype Request = Request(
    videoId: Option<Uuid>,      // uuid.Parse of the path value
    bearer: Option<string>,     // auth.GetBearerToken
    jwtUser: Option<Uuid>,      // auth.ValidateJWT of that token
    form: Option<FormFile>)     // r.FormFile of the handler's field

  /** `db.GetVideo` over the records the database holds. */
  function Fetched(req: Request, records: map<Uuid, Video>): (v: Option<Video>)
    ensures v.Some? <==> req.videoId.Some? && req.videoId.value in records
  {
    if req.videoId.Some? && req.videoId.value in records then Some(records[req.videoId.value]) else None
  }

  /**
   * The ownership test: the token's user is the fetched record's owner. It
   * holds only once the fetch has succeeded, and it compares the token's
   * user with the `userId` stored under the requested id.
   */
  predicate OwnerMatches(req: Request, records: map<Uuid, Video>)
    ensures OwnerMatches(req, records) ==> Fetched(req, records).Some?
    ensures OwnerMatches(req, records) <==>
      && req.videoId.Some? && req.jwtUser.Some? && req.videoId.value in records
      && records[req.videoId.value].userId == req.jwtUser.value
  {
    req.jwtUser.Some? && Fetched(req, records).Some? &&
    req.jwtUser.value == Fetched(req, records).value.userId
  }

  function MediaTypeOf(req: Request): Option<string>
  {
    if req.form.Some? then req.form.value.mediaType else None
  }

  /** The checks of a handler, named after the call whose failure ends the request. */
  datatype Step =
    | ParseVideoId | GetBearerToken | ValidateToken | FetchVideo | CheckOwner
    | ReadFormFile | ParseMediaType | CheckMediaType
    | CreateTempFile | CopyToTempFile | ProbeAspect | RewindTempFile
    | RemuxFastStart | OpenProcessedFile | PutObject
    | CreateAssetFile | CopyToAssetFile
    | UpdateRecord

  /** Something a run leaves behind outside the database. */
  datatype Artifact =
    | StoredObject(bucket: string, key: string)   // an object put into S3
    | AssetFile(dir: string, name: string)        // a file created under the assets root

  /**
   * The result of one handler run: the HTTP status sent, the record written
   * by `UpdateVideo` (and sent back) when that call succeeded, the checks
   * attempted in order, and the artifact left behind.
   */
  datatype Outcome = Outcome(
    status: int,
    stored: Option<Video>,
    trace: seq<Step>,
    artifact: Option<Artifact>)

  const StatusOK := 200
  const StatusBadRequest := 400
  const StatusUnauthorized := 401
  const StatusInternalServerError := 500

  /** Index of the first step that fails, or `|steps|` when all pass. */
  function FirstFailing(steps: seq<Step>, passes: Step -> bool): (i: nat)
    ensures i <= |steps|
    ensures forall j :: 0 <= j < i ==> passes(steps[j])
    ensures i < |steps| ==> !passes(steps[i])
  {
    if steps == [] then 0
    else if !passes(steps[0]) then 0
    else 1 + FirstFailing(steps[1..], passes)
  }

  /**
   * A handler read as a chain of checks with early exits: the checks in
   * order, which of them pass, the status each one answers when it fails,
   * the record written when all pass, and the artifact that the check at
   * `leftAt` leaves behind once it has passed.
   */
  datatype Machine = Machine(
    steps: seq<Step>,
    passes: Step -> bool,
    failStatus: Step -> int,
    done: Option<Video>,
    left: Option<Artifact>,
    leftAt: nat)
  {
    /** What is left behind once `reached` checks have passed. */
    function ArtifactAt(reached: nat): Option<Artifact>
    {
      if reached > leftAt then left else None
    }

    /**
     * The run from check `k` on: a failing check ends it with its status
     * and the trace up to it; a passing one hands over to the next; past
     * the last check the response is 200 with the record written.
     */
    function RunFrom(k: nat): Outcome
      requires k <= |steps|
      decreases |steps| - k
    {
      if k == |steps| then
        Outcome(StatusOK, done, steps, ArtifactAt(k))
      else if !passes(steps[k]) then
        Outcome(failStatus(steps[k]), None, steps[..k + 1], ArtifactAt(k))
      else
        RunFrom(k + 1)
    }

    function Run(): Outcome
    {
      RunFrom(0)
    }

    /**
     * The reference reading: the response is decided by the first check
     * that fails, or is the success response when none does.
     */
    function ByFirstFailure(): Outcome
    {
      var f := FirstFailing(steps, passes);
      if f < |steps| then
        Outcome(failStatus(steps[f]), None, steps[..f + 1], ArtifactAt(f))
      else
        Outcome(StatusOK, done, steps, ArtifactAt(f))
    }
  }

  lemma {:induction false} RunFromFirstFailure(m: Machine, k: nat)
    requires k <= FirstFailing(m.steps, m.passes)
    ensures m.RunFrom(k) == m.ByFirstFailure()
    decreases |m.steps| - k
  {
    if k < FirstFailing(m.steps, m.passes) {
      RunFromFirstFailure(m, k + 1);
    }
  }

  /** Running the checks in order answers what the first failing check decides. */
  lemma RunIsFirstFailure(m: Machine)
    ensures m.Run() == m.ByFirstFailure()
  {
    RunFromFirstFailure(m, 0);
  }

  /** A run answers 200 exactly when every check passes. */
  lemma OkIffAllPass(m: Machine)
    requires forall s :: m.failStatus(s) != StatusOK
    ensures m.Run().status == StatusOK <==> forall i :: 0 <= i < |m.steps| ==> m.passes(m.steps[i])
  {
    RunIsFirstFailure(m);
  }

  /** A run that answers 200 got through every check. */
  lemma PassedOnOk(m: Machine, i: nat)
    requires forall s :: m.failStatus(s) != StatusOK
    requires m.Run().status == StatusOK && i < |m.steps|
    ensures m.passes(m.steps[i])
  {
    OkIffAllPass(m);
  }

  /**
   * A failing check ends the run at or before it: the response is an
   * error, nothing is written to the database, and the trace is the
   * checks up to the one that failed first.
   */
  lemma StopsBy(m: Machine, i: nat)
    requires i < |m.steps| && !m.passes(m.steps[i])
    requires forall s :: m.failStatus(s) != StatusOK
    ensures var out := m.Run();
      && 1 <= |out.trace| <= i + 1 && out.trace == m.steps[..|out.trace|]
      && out.status != StatusOK && out.stored == None
  {
    RunIsFirstFailure(m);
  }

  /** The database is written exactly with the record of a run that answers 200. */
  lemma StoresOnlyOnSuccess(m: Machine)
    requires forall s :: m.failStatus(s) != StatusOK
    ensures m.Run().stored == if m.Run().status == StatusOK then m.done else None
  {
    RunIsFirstFailure(m);
  }

  /**
   * `http.ResponseWriter` keeps the first status written: a later
   * `WriteHeader` is ignored.
   */
  function WriteStatus(written: Option<int>, status: int): (w: Option<int>)
    ensures written.None? ==> w == Some(status)
    ensures written.Some? ==> w == written
  {
    if written.Some? then written else Some(status)
  }
}
