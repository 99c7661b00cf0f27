/**
 * The classification half of `getVideoAspectRatio`: the first probed
 * stream's width and height are bucketed into landscape (ratio in the open
 * interval (1.6, 1.9)), portrait (ratio in (0.4, 0.6)) or other.
 *
 * `Classify` decides with exact integer cross-multiplication. The source
 * divides two float32 values; `Quotient` and `ClassifyQuotient` are the
 * reference reading of that code in exact arithmetic (a finite real, or the
 * infinities and NaN a division by zero yields), and
 * `ClassifyAgreesWithDivision` ties the two together for every input.
 */
module Aspect {
  import opened Wrappers

  datatype AspectClass = Landscape | Portrait | Other
  {
    /**
     * The string the source returns and puts in front of storage keys: never
     * empty, and free of the key's '/' and the locator's ','.
     */
    function Name(): (name: string)
      ensures |name| > 0 && '/' !in name && ',' !in name
    {
      match this
      case Landscape => "landscape"
      case Portrait => "portrait"
      case Other => "other"
    }
  }

  /** Inverse of `Name`. */
  function ClassNamed(s: string): (c: Option<AspectClass>)
    ensures c.Some? ==> c.value.Name() == s
  {
    if s == "landscape" then Some(Landscape)
    else if s == "portrait" then Some(Portrait)
    else if s == "other" then Some(Other)
    else None
  }

  lemma ClassNamedName(c: AspectClass)
    ensures ClassNamed(c.Name()) == Some(c)
  {
  }

  /** One entry of ffprobe's `streams` array, as decoded from its JSON. */
  datatype Stream = Stream(width: int, height: int)

  /** Why no class could be produced. */
  datatype ProbeError =
    | ProbeFailed   // ffprobe exited non-zero or its output was not JSON
    | NoStreams     // the report listed no stream

  /**
   * Integer classifier; a zero height is `Other`, a negative one flips both
   * signs. For a non-zero height the class is the band the exact ratio
   * `width / height` falls in, both bands open.
   */
  function Classify(width: int, height: int): (c: AspectClass)
    ensures height == 0 ==> c == Other
    ensures height != 0 ==>
      var ratio := width as real / height as real;
      && (c == Landscape <==> 1.6 < ratio < 1.9)
      && (c == Portrait <==> 0.4 < ratio < 0.6)
  {
    if height == 0 then Other
    else
      var w := if height < 0 then -width else width;
      var h := if height < 0 then -height else height;
      assert width as real / height as real == w as real / h as real;
      assert 1.6 == 8 as real / 5 as real && 1.9 == 19 as real / 10 as real;
      assert 0.4 == 2 as real / 5 as real && 0.6 == 3 as real / 5 as real;
      CrossMultiply(w, h, 8, 5);
      CrossMultiply(w, h, 19, 10);
      CrossMultiply(w, h, 2, 5);
      CrossMultiply(w, h, 3, 5);
      if 5 * w > 8 * h && 10 * w < 19 * h then Landscape
      else if 5 * w > 2 * h && 5 * w < 3 * h then Portrait
      else Other
  }

  /** The value of `width / height` in floating point, computed exactly. */
  datatype Quotient = Finite(value: real) | PosInf | NegInf | NaN

  function Divide(n: int, d: int): (q: Quotient)
    ensures d != 0 <==> q.Finite?
    ensures d != 0 ==> q.value * (d as real) == n as real
  {
    if d != 0 then Finite(n as real / d as real)
    else if n > 0 then PosInf
    else if n < 0 then NegInf
    else NaN
  }

  /** `q > c` as IEEE comparison reads it: true of +Inf, false of -Inf and NaN. */
  predicate Above(q: Quotient, c: real)
  {
    match q
    case Finite(v) => v > c
    case PosInf => true
    case _ => false
  }

  /** `q < c`: true of -Inf, false of +Inf and NaN. */
  predicate Below(q: Quotient, c: real)
  {
    match q
    case Finite(v) => v < c
    case NegInf => true
    case _ => false
  }

  /**
   * The source's if-chain over the quotient. Each class is exactly its own
   * band, so the order of the two tests does not matter.
   */
  function ClassifyQuotient(q: Quotient): (c: AspectClass)
    ensures c == Landscape <==> Above(q, 1.6) && Below(q, 1.9)
    ensures c == Portrait <==> Above(q, 0.4) && Below(q, 0.6)
  {
    BandsDisjoint(q);
    if Above(q, 1.6) && Below(q, 1.9) then Landscape
    else if Above(q, 0.4) && Below(q, 0.6) then Portrait
    else Other
  }

  /** The two bands do not overlap, so the order of the tests is immaterial. */
  lemma BandsDisjoint(q: Quotient)
    ensures !(Above(q, 1.6) && Below(q, 1.9) && Above(q, 0.4) && Below(q, 0.6))
  {
  }

  /** For a positive denominator each open bound is a cross-multiplication. */
  lemma CrossMultiply(n: int, d: int, num: int, den: int)
    requires d > 0 && den > 0
    ensures n as real / d as real > num as real / den as real <==> den * n > num * d
    ensures n as real / d as real < num as real / den as real <==> den * n < num * d
  {
    var r := n as real / d as real;
    var c := num as real / den as real;
    assert r * (d as real) == n as real;
    assert c * (den as real) == num as real;
    assert (d as real) * (den as real) > 0.0;
    assert r > c <==> r * ((d as real) * (den as real)) > c * ((d as real) * (den as real));
    assert r < c <==> r * ((d as real) * (den as real)) < c * ((d as real) * (den as real));
    assert r * ((d as real) * (den as real)) == (den * n) as real;
    assert c * ((d as real) * (den as real)) == (num * d) as real;
  }

  /** The integer classifier is the source's if-chain applied to the exact quotient. */
  lemma ClassifyAgreesWithDivision(width: int, height: int)
    ensures Classify(width, height) == ClassifyQuotient(Divide(width, height))
  {
  }

  /** A zero height never crashes and is `Other`: every comparison with Inf/NaN fails one bound. */
  lemma ZeroHeightIsOther(width: int)
    ensures ClassifyQuotient(Divide(width, 0)) == Other
    ensures Classify(width, 0) == Other
  {
  }

  /** The class depends on the ratio only: scaling both sides changes nothing. */
  lemma {:induction false} ScaleInvariant(width: int, height: int, k: int)
    requires k > 0
    ensures Classify(k * width, k * height) == Classify(width, height)
  {
    if height != 0 {
      assert (k * width) as real / (k * height) as real == width as real / height as real by {
        var r := width as real / height as real;
        assert r * (height as real) == width as real;
        assert r * ((k * height) as real) == (k * width) as real;
      }
    }
  }

  /** Worked values: 16:9 and 9:16 screens, a square, and the four excluded bounds. */
  lemma Examples()
    ensures Classify(1920, 1080) == Landscape
    ensures Classify(1080, 1920) == Portrait
    ensures Classify(1000, 1000) == Other
    ensures Classify(161, 100) == Landscape && Classify(189, 100) == Landscape
    ensures Classify(16, 10) == Other && Classify(19, 10) == Other
    ensures Classify(4, 10) == Other && Classify(6, 10) == Other
  {
  }

  /**
   * `getVideoAspectRatio` once ffprobe has run: `None` stands for a failed
   * run or unparsable output; only the first stream is looked at.
   */
  function GetVideoAspectRatio(probe: Option<seq<Stream>>): (r: Result<AspectClass, ProbeError>)
    ensures r.Failure? <==> probe.None? || probe.value == []
    ensures probe == Some([]) ==> r == Failure(NoStreams)
  {
    match probe
    case None => Failure(ProbeFailed)
    case Some(streams) =>
      if |streams| == 0 then Failure(NoStreams)
      else Success(Classify(streams[0].width, streams[0].height))
  }

  /** The result is the class of the first stream; later streams are ignored. */
  lemma OnlyFirstStreamCounts(streams: seq<Stream>, others: seq<Stream>)
    requires |streams| > 0
    ensures GetVideoAspectRatio(Some(streams)) == GetVideoAspectRatio(Some([streams[0]] + others))
    ensures GetVideoAspectRatio(Some(streams)) ==
            Success(ClassifyQuotient(Divide(streams[0].width, streams[0].height)))
  {
    ClassifyAgreesWithDivision(streams[0].width, streams[0].height);
  }
}
