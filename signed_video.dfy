/**
 * `_dbVideoToSignedVideo`: a stored locator of the form "bucket,key" is
 * replaced by a presigned URL for that object; any other locator, or none,
 * is passed through. The presigner (`generatePresignedURL`, an S3 SDK
 * call) is a parameter: a total function from the request it is given to
 * the URL or the error it returns.
 */
module SignedVideo {
  import opened Wrappers
  import opened Strings
  import opened Hex
  import opened Aspect
  import opened Api
  import opened VideoUpload

  /** `100 * time.Second`. */
  const PresignExpirySeconds := 100

  /** What `generatePresignedURL` is asked for. */
  datatype PresignRequest = PresignRequest(bucket: string, key: string, expirySeconds: int)

  /** The presigner's answer: the URL, or the error text. */
  type Presigner = PresignRequest -> Result<string, string>

  /**
   * The request a record's locator leads to: none without a locator or
   * without a comma; otherwise the first two comma-separated pieces.
   */
  function PresignRequestFor(video: Video): (r: Option<PresignRequest>)
    ensures r.Some? <==> video.videoUrl.Some? && ',' in video.videoUrl.value
    ensures r.Some? ==>
      var url := video.videoUrl.value;
      var b := r.value.bucket;
      var k := r.value.key;
      && r.value.expirySeconds == PresignExpirySeconds
      && ',' !in b && ',' !in k
      && b + "," + k <= url
      && (|b| + 1 + |k| == |url| || url[|b| + 1 + |k|] == ',')
  {
    if video.videoUrl.None? || ',' !in video.videoUrl.value then None
    else
      var url := video.videoUrl.value;
      var parts := Split(url, ',');
      SplitFirstTwo(url, ',');
      Some(PresignRequest(parts[0], parts[1], PresignExpirySeconds))
  }

  /**
   * The signer: pass-through without a request; on a presigner error the
   * record as given together with that error; otherwise the record with
   * its locator replaced by the presigned URL.
   */
  function DbVideoToSignedVideo(video: Video, presign: Presigner): (r: (Video, Option<string>))
    ensures r.1.Some? ==> r.0 == video
  {
    match PresignRequestFor(video)
    case None => (video, None)
    case Some(req) =>
      match presign(req)
      case Failure(e) => (video, Some(e))
      case Success(url) => (video.(videoUrl := Some(url)), None)
  }

  /** Without a locator, or with one holding no comma, the record comes back unchanged and no error. */
  lemma PassThrough(video: Video, presign: Presigner)
    requires video.videoUrl.None? || ',' !in video.videoUrl.value
    ensures DbVideoToSignedVideo(video, presign) == (video, None)
  {
  }

  /** A pass-through never consults the presigner, and signing its output again changes nothing. */
  lemma PassThroughIdempotent(video: Video, presign: Presigner, other: Presigner)
    requires PresignRequestFor(video).None?
    ensures DbVideoToSignedVideo(video, presign) == DbVideoToSignedVideo(video, other)
    ensures var (v, _) := DbVideoToSignedVideo(video, presign);
      DbVideoToSignedVideo(v, presign) == DbVideoToSignedVideo(video, presign)
  {
  }

  /** A presigner error returns the record as given together with that error. */
  lemma PresignFailure(video: Video, presign: Presigner)
    requires PresignRequestFor(video).Some? && presign(PresignRequestFor(video).value).Failure?
    ensures DbVideoToSignedVideo(video, presign) == (video, Some(presign(PresignRequestFor(video).value).error))
  {
  }

  /** A presigned URL replaces the locator and nothing else. */
  lemma PresignSuccess(video: Video, presign: Presigner)
    requires PresignRequestFor(video).Some? && presign(PresignRequestFor(video).value).Success?
    ensures var (v, err) := DbVideoToSignedVideo(video, presign);
      && err == None
      && v.videoUrl == Some(presign(PresignRequestFor(video).value).value)
      && v.id == video.id && v.userId == video.userId && v.title == video.title
      && v.description == video.description && v.thumbnailUrl == video.thumbnailUrl
  {
  }

  /**
   * "bucket,key" asks for that bucket and key, and so does
   * "bucket,key,more": pieces after the second are dropped.
   */
  lemma CompoundLocator(video: Video, bucket: string, key: string, more: Option<string>)
    requires ',' !in bucket && ',' !in key
    ensures var url := bucket + "," + key + (if more.Some? then "," + more.value else "");
      PresignRequestFor(video.(videoUrl := Some(url))) == Some(PresignRequest(bucket, key, PresignExpirySeconds))
  {
    var url := bucket + "," + key + (if more.Some? then "," + more.value else "");
    if more.Some? {
      assert url == bucket + [','] + (key + [','] + more.value);
      SplitCons(bucket, key + [','] + more.value, ',');
      SplitCons(key, more.value, ',');
    } else {
      assert url == bucket + [','] + key;
      SplitTwo(bucket, key, ',');
    }
  }

  /**
   * A locator written by the upload handler has no comma when the
   * distribution name has none, so it is passed through as stored.
   */
  lemma HandlerLocatorPassesThrough(video: Video, distribution: string, aspect: AspectClass, randKey: seq<byte>, presign: Presigner)
    requires ',' !in distribution
    ensures var v := video.(videoUrl := Some(VideoLocator(distribution, FileKey(aspect, randKey))));
      DbVideoToSignedVideo(v, presign) == (v, None)
  {
    var key := FileKey(aspect, randKey);
    FileKeyHasNoComma(aspect, randKey);
    assert VideoLocator(distribution, key) == "https://" + distribution + "/" + key;
    assert ',' !in "https://" && ',' !in "/";
  }
}
