/** camserver/snapshot_endpoint.go: choosing the frame size a snapshot is taken at, and
    the output format the snapshot is served in. */
module CamserverSnapshot {
  import opened Base
  import opened WebcamApi

  const DEFAULT_WIDTH: Uint32 := 640
  const DEFAULT_HEIGHT: Uint32 := 480

  // ---------------------------------------------------------------------------
  // The nearest frame size
  // ---------------------------------------------------------------------------

  /** uint32(math.Abs(float64(value - request))): the subtraction wraps in uint32 before
      the conversion, every uint32 is exact in float64 and math.Abs of a non-negative
      number is the number, so the distance is the wrapped difference, not |value - request|. */
  function Distance(value: Uint32, request: Uint32): (r: Uint32)
    ensures request <= value ==> r == value - request
    ensures value < request ==> r == TWO_32 - (request - value)
  {
    Wrap32(value - request)
  }

  /** The evaluation findNearestFrameSizeByWidth passes to findFrameSize. */
  function WidthDistance(width: Uint32): DiscreteFrameSize -> Uint32 {
    (s: DiscreteFrameSize) => Distance(s.width, width)
  }

  /** The evaluation findNearestFrameSizeByHeight passes to findFrameSize. */
  function HeightDistance(height: Uint32): DiscreteFrameSize -> Uint32 {
    (s: DiscreteFrameSize) => Distance(s.height, height)
  }

  /** Each size evaluated, in order. */
  function Evaluations(sizes: seq<DiscreteFrameSize>, evaluation: DiscreteFrameSize -> Uint32): (vals: seq<Uint32>)
    ensures |vals| == |sizes| && forall i :: 0 <= i < |sizes| ==> vals[i] == evaluation(sizes[i])
  {
    seq(|sizes|, i requires 0 <= i < |sizes| => evaluation(sizes[i]))
  }

  /** k holds a least value, and every earlier position a strictly greater one. */
  predicate IsFirstMin(vals: seq<int>, k: int) {
    0 <= k < |vals|
    && (forall j :: 0 <= j < |vals| ==> vals[k] <= vals[j])
    && (forall j :: 0 <= j < k ==> vals[k] < vals[j])
  }

  /** The first position of a least value, found from the front. */
  function FirstMinIndex(vals: seq<Uint32>): (k: nat)
    requires |vals| > 0
    ensures IsFirstMin(vals, k)
    ensures forall m :: IsFirstMin(vals, m) ==> m == k
    decreases |vals|
  {
    if |vals| == 1 then 0
    else
      var k := FirstMinIndex(vals[1..]) + 1;
      assert vals[k] == vals[1..][k - 1];
      assert forall j :: 1 <= j < |vals| ==> vals[j] == vals[1..][j - 1];
      if vals[0] <= vals[k] then 0 else k
  }

  /** findFrameSize: a single pass keeping the first strictly smaller evaluation, starting
      from MaxUint32 with index 0. An empty list makes the Go code panic on sizes[0]. */
  method FindFrameSize(sizes: seq<DiscreteFrameSize>, evaluation: DiscreteFrameSize -> Uint32)
      returns (r: DiscreteFrameSize)
    requires |sizes| > 0
    ensures r == sizes[FirstMinIndex(Evaluations(sizes, evaluation))]
  {
    ghost var vals := Evaluations(sizes, evaluation);
    var evalTotal: Uint32 := MAX_UINT32;
    var minIndex := 0;
    for i := 0 to |sizes|
      invariant 0 <= minIndex < |sizes|
      invariant i == 0 ==> minIndex == 0 && evalTotal == MAX_UINT32
      invariant i > 0 ==> IsFirstMin(vals[..i], minIndex) && evalTotal == vals[minIndex]
    {
      var eval := evaluation(sizes[i]);
      if eval < evalTotal {
        minIndex := i;
        evalTotal := eval;
      }
    }
    assert vals[..|sizes|] == vals;
    return sizes[minIndex];
  }

  /** The size findNearestFrameSizeByWidth returns. */
  function NearestByWidth(sizes: seq<DiscreteFrameSize>, width: Uint32): (r: DiscreteFrameSize)
    requires |sizes| > 0
    ensures r in sizes
    ensures forall s :: s in sizes ==> Distance(r.width, width) <= Distance(s.width, width)
    ensures forall j :: 0 <= j < |sizes| && Distance(sizes[j].width, width) == Distance(r.width, width) ==>
      r in sizes[..j + 1]
  {
    var vals := Evaluations(sizes, WidthDistance(width));
    var k := FirstMinIndex(vals);
    assert forall j :: 0 <= j < |sizes| ==> vals[j] == Distance(sizes[j].width, width);
    sizes[k]
  }

  /** The size findNearestFrameSizeByHeight returns. */
  function NearestByHeight(sizes: seq<DiscreteFrameSize>, height: Uint32): (r: DiscreteFrameSize)
    requires |sizes| > 0
    ensures r in sizes
    ensures forall s :: s in sizes ==> Distance(r.height, height) <= Distance(s.height, height)
    ensures forall j :: 0 <= j < |sizes| && Distance(sizes[j].height, height) == Distance(r.height, height) ==>
      r in sizes[..j + 1]
  {
    var vals := Evaluations(sizes, HeightDistance(height));
    var k := FirstMinIndex(vals);
    assert forall j :: 0 <= j < |sizes| ==> vals[j] == Distance(sizes[j].height, height);
    sizes[k]
  }

  method FindNearestFrameSizeByWidth(sizes: seq<DiscreteFrameSize>, width: Uint32) returns (r: DiscreteFrameSize)
    requires |sizes| > 0
    ensures r == NearestByWidth(sizes, width)
  {
    r := FindFrameSize(sizes, WidthDistance(width));
  }

  method FindNearestFrameSizeByHeight(sizes: seq<DiscreteFrameSize>, height: Uint32) returns (r: DiscreteFrameSize)
    requires |sizes| > 0
    ensures r == NearestByHeight(sizes, height)
  {
    r := FindFrameSize(sizes, HeightDistance(height));
  }

  /** Heights 240, 480 and 960 asked for at 500: 960 is chosen, because 240 - 500 and
      480 - 500 wrap around to values near 2^32. */
  lemma HeightWrapsAround()
    ensures NearestByHeight([DiscreteFrameSize(320, 240), DiscreteFrameSize(640, 480), DiscreteFrameSize(1280, 960)], 500)
      == DiscreteFrameSize(1280, 960)
  {
    var sizes := [DiscreteFrameSize(320, 240), DiscreteFrameSize(640, 480), DiscreteFrameSize(1280, 960)];
    var vals := Evaluations(sizes, HeightDistance(500));
    assert vals[0] == 0xFFFF_FEFC && vals[1] == 0xFFFF_FFEC && vals[2] == 460;
    assert IsFirstMin(vals, 2);
  }

  /** Widths 320, 640 and 1280 asked for at 1200: 1280 is chosen. */
  lemma WidthExample()
    ensures NearestByWidth([DiscreteFrameSize(320, 240), DiscreteFrameSize(640, 480), DiscreteFrameSize(1280, 960)], 1200)
      == DiscreteFrameSize(1280, 960)
  {
    var sizes := [DiscreteFrameSize(320, 240), DiscreteFrameSize(640, 480), DiscreteFrameSize(1280, 960)];
    var vals := Evaluations(sizes, WidthDistance(1200));
    assert vals[0] == 0xFFFF_FC90 && vals[1] == 0xFFFF_FDD0 && vals[2] == 80;
    assert IsFirstMin(vals, 2);
  }

  // ---------------------------------------------------------------------------
  // resolveFrameSize
  // ---------------------------------------------------------------------------

  /** The cases in which resolveFrameSize reaches findFrameSize with no sizes and panics:
      a parameter is given, the enumeration succeeds but is empty, and the number parses. */
  predicate ResolvePanics(width: Option<string>, height: Option<string>, sizes: Result<seq<DiscreteFrameSize>, Error>) {
    (width.Some? || height.Some?) && sizes == Success([])
    && Atoi(if width.Some? then width.value else height.value).Success?
  }

  /** resolveFrameSize. `width` and `height` are the first values of the query parameters
      of those names, if present; `sizes` is what the device's enumeration of its discrete
      MJPEG frame sizes returns, which is only consulted when a parameter is present.
      The width, when present, decides; the height is used only without a width. */
  function ResolveFrameSize(width: Option<string>, height: Option<string>, sizes: Result<seq<DiscreteFrameSize>, Error>)
      : (r: Result<DiscreteFrameSize, Error>)
    requires !ResolvePanics(width, height, sizes)
    ensures width.None? && height.None? ==> r == Success(DiscreteFrameSize(DEFAULT_WIDTH, DEFAULT_HEIGHT))
    ensures (width.Some? || height.Some?) && sizes.Failure? ==> r == Failure(sizes.error)
    ensures width.Some? && sizes.Success? && Atoi(width.value).Failure? ==> r == Failure(Atoi(width.value).error)
    ensures width.None? && height.Some? && sizes.Success? && Atoi(height.value).Failure? ==>
      r == Failure(Atoi(height.value).error)
    ensures width.Some? && sizes.Success? && Atoi(width.value).Success? ==>
      r == Success(NearestByWidth(sizes.value, Wrap32(Atoi(width.value).value)))
    ensures width.None? && height.Some? && sizes.Success? && Atoi(height.value).Success? ==>
      r == Success(NearestByHeight(sizes.value, Wrap32(Atoi(height.value).value)))
    ensures width.Some? && sizes.Success? && Atoi(width.value).Success? ==>
      r.Success? && r.value in sizes.value
      && forall s :: s in sizes.value ==>
        Distance(r.value.width, Wrap32(Atoi(width.value).value)) <= Distance(s.width, Wrap32(Atoi(width.value).value))
    ensures width.None? && height.Some? && sizes.Success? && Atoi(height.value).Success? ==>
      r.Success? && r.value in sizes.value
      && forall s :: s in sizes.value ==>
        Distance(r.value.height, Wrap32(Atoi(height.value).value)) <= Distance(s.height, Wrap32(Atoi(height.value).value))
  {
    if width.None? && height.None? then Success(DiscreteFrameSize(DEFAULT_WIDTH, DEFAULT_HEIGHT))
    else if sizes.Failure? then Failure(sizes.error)
    else if width.None? then
      match Atoi(height.value)
      case Failure(e) => Failure(e)
      case Success(h) => Success(NearestByHeight(sizes.value, Wrap32(h)))
    else if height.None? || (height.Some? && width.Some?) then
      match Atoi(width.value)
      case Failure(e) => Failure(e)
      case Success(w) => Success(NearestByWidth(sizes.value, Wrap32(w)))
    else
      assert false;
      Failure(NoVideoDevice)
  }

  /** Without parameters the default size comes back whatever the device would report,
      so the enumeration is not needed. */
  lemma DefaultNeedsNoEnumeration(s1: Result<seq<DiscreteFrameSize>, Error>, s2: Result<seq<DiscreteFrameSize>, Error>)
    ensures ResolveFrameSize(None, None, s1) == ResolveFrameSize(None, None, s2) == Success(DiscreteFrameSize(640, 480))
  {
  }

  /** With a width given, the height parameter plays no part. */
  lemma WidthTakesPrecedence(width: string, h1: Option<string>, h2: Option<string>, sizes: Result<seq<DiscreteFrameSize>, Error>)
    requires !ResolvePanics(Some(width), h1, sizes)
    ensures !ResolvePanics(Some(width), h2, sizes)
    ensures ResolveFrameSize(Some(width), h1, sizes) == ResolveFrameSize(Some(width), h2, sizes)
  {
  }

  /** A requested number is taken modulo 2^32, as Go's uint32 conversion does: "-1" asks
      for width 0xFFFFFFFF. */
  lemma NegativeWidthWraps(sizes: seq<DiscreteFrameSize>)
    requires |sizes| > 0
    ensures ResolveFrameSize(Some("-1"), None, Success(sizes)) == Success(NearestByWidth(sizes, 0xFFFF_FFFF))
  {
    var s := "-1";
    assert s[0] == '-' && s[1..] == "1" && AllDigits(s[1..]);
    assert DigitsValue("1") == DigitsValue([]) * 10 + 1;
    assert Atoi(s) == Success(-1);
  }

  // ---------------------------------------------------------------------------
  // Output format
  // ---------------------------------------------------------------------------

  /** resolveOutputFormat: the "format" query parameter, json when absent. */
  function ResolveOutputFormat(format: Option<string>): (r: (string, bool))
    ensures r.1 <==> format.None? || format.value == "json" || format.value == "raw"
    ensures r.1 ==> r.0 == (if format.None? then "json" else format.value)
    ensures !r.1 ==> r.0 == ""
  {
    if format.None? then ("json", true)
    else if format.value == "json" then ("json", true)
    else if format.value == "raw" then ("raw", true)
    else ("", false)
  }

  /** resolveContentType; any other format makes the Go code panic. */
  function ResolveContentType(format: string): (r: string)
    requires format == "json" || format == "raw"
    ensures format == "json" ==> r == "application/json"
    ensures format == "raw" ==> r == "image/jpeg"
  {
    if format == "json" then "application/json" else "image/jpeg"
  }

  /** The response body: the JSON document {width, height, data} (whose base64 and
      JSON encodings are not part of this model), or the raw frame bytes. */
  datatype Payload = Json(width: Uint32, height: Uint32, data: seq<Byte>) | Raw(bytes: seq<Byte>)

  /** formatPayload of a snapshot with this frame size and data; any other format makes
      the Go code panic. */
  function FormatPayload(frameSize: DiscreteFrameSize, data: seq<Byte>, format: string): (p: Payload)
    requires format == "json" || format == "raw"
    ensures format == "json" ==> p.Json? && p.data == data
    ensures format == "raw" ==> p == Raw(data)
  {
    if format == "json" then Json(640, 480, data) else Raw(data)
  }

  /** The JSON document always reports 640x480, whatever size the snapshot was taken at. */
  lemma JsonReportsFixedSize(frameSize: DiscreteFrameSize, data: seq<Byte>)
    ensures FormatPayload(frameSize, data, "json").width == 640
    ensures FormatPayload(frameSize, data, "json").height == 480
    ensures frameSize != DiscreteFrameSize(640, 480) ==>
      (FormatPayload(frameSize, data, "json").width, FormatPayload(frameSize, data, "json").height)
        != (frameSize.width, frameSize.height)
  {
  }

  /** Every format resolveOutputFormat accepts can be served: resolveContentType and
      formatPayload do not panic on it, and the content type matches the payload. */
  lemma AcceptedFormatsAreServable(format: Option<string>, frameSize: DiscreteFrameSize, data: seq<Byte>)
    requires ResolveOutputFormat(format).1
    ensures var f := ResolveOutputFormat(format).0;
      (f == "json" || f == "raw")
      && (ResolveContentType(f) == "application/json" <==> FormatPayload(frameSize, data, f).Json?)
      && (ResolveContentType(f) == "image/jpeg" <==> FormatPayload(frameSize, data, f) == Raw(data))
  {
  }
}
