/** The V4L2 ABI definitions of v4l2/videodev2.go: the layout of struct
    v4l2_capability and the V4L2_CAP_* flags of its capability mask, plus the
    handful of videodev2.h constants the capture code passes to the kernel. */
module V4l2 {
  import opened Base

  /** struct v4l2_capability as the kernel fills it for VIDIOC_QUERYCAP. */
  datatype V4l2Capability = V4l2Capability(
    driver: seq<Byte>,       // [16]uint8, NUL padded
    card: seq<Byte>,         // [32]uint8, NUL padded
    busInfo: seq<Byte>,      // [32]uint8, NUL padded
    version: bv32,
    capabilities: bv32,
    deviceCaps: bv32,
    reserved: seq<bv32>)     // [3]uint32

  // ---------------------------------------------------------------------------
  // Struct layout, as Go lays out a struct: each field at the next offset that is
  // a multiple of its alignment, the whole rounded up to the largest alignment.
  // ---------------------------------------------------------------------------

  /** The field types that occur in struct v4l2_capability. */
  datatype FieldType = Uint8Array(n: nat) | Uint32Field | Uint32Array(n: nat)

  function Size(t: FieldType): nat {
    match t
    case Uint8Array(n) => n
    case Uint32Field => 4
    case Uint32Array(n) => 4 * n
  }

  function Align(t: FieldType): (a: nat)
    ensures a == 1 || a == 4
  {
    match t
    case Uint8Array(_) => 1
    case Uint32Field => 4
    case Uint32Array(_) => 4
  }

  /** The least multiple of a at or above x, for the alignments 1 and 4 that occur here. */
  function AlignUp(x: nat, a: nat): (r: nat)
    requires a == 1 || a == 4
    ensures x <= r < x + a && r % a == 0
  {
    if a == 1 then x else if x % 4 == 0 then x else x + (4 - x % 4)
  }

  /** The offsets of fields laid out one after another from `start`. */
  function Offsets(fields: seq<FieldType>, start: nat): (offs: seq<nat>)
    ensures |offs| == |fields|
    decreases |fields|
  {
    if fields == [] then []
    else
      var off := AlignUp(start, Align(fields[0]));
      [off] + Offsets(fields[1..], off + Size(fields[0]))
  }

  /** The first offset after the last field. */
  function FieldsEnd(fields: seq<FieldType>, start: nat): (end: nat)
    ensures end >= start
    decreases |fields|
  {
    if fields == [] then start
    else FieldsEnd(fields[1..], AlignUp(start, Align(fields[0])) + Size(fields[0]))
  }

  function MaxAlign(fields: seq<FieldType>): (a: nat)
    ensures a == 1 || a == 4
    decreases |fields|
  {
    if fields == [] then 1
    else
      var rest := MaxAlign(fields[1..]);
      if Align(fields[0]) > rest then Align(fields[0]) else rest
  }

  /** unsafe.Sizeof of a struct with these fields. */
  function SizeOf(fields: seq<FieldType>): nat {
    AlignUp(FieldsEnd(fields, 0), MaxAlign(fields))
  }

  /** Laid-out fields never overlap and every field ends before the struct does. */
  lemma {:induction false} FieldsDisjoint(fields: seq<FieldType>, start: nat)
    ensures forall i, j :: 0 <= i < j < |fields| ==>
      Offsets(fields, start)[i] + Size(fields[i]) <= Offsets(fields, start)[j]
    ensures forall i :: 0 <= i < |fields| ==>
      Offsets(fields, start)[i] + Size(fields[i]) <= FieldsEnd(fields, start)
    decreases |fields|
  {
    if fields != [] {
      var off := AlignUp(start, Align(fields[0]));
      var next := off + Size(fields[0]);
      FieldsDisjoint(fields[1..], next);
      var offs := Offsets(fields, start);
      assert offs == [off] + Offsets(fields[1..], next);
      forall i, j | 0 <= i < j < |fields|
        ensures offs[i] + Size(fields[i]) <= offs[j]
      {
        if i > 0 {
          assert offs[i] == Offsets(fields[1..], next)[i - 1];
          assert offs[j] == Offsets(fields[1..], next)[j - 1];
          assert fields[i] == fields[1..][i - 1];
        }
      }
      forall i | 0 <= i < |fields|
        ensures offs[i] + Size(fields[i]) <= FieldsEnd(fields, start)
      {
        if i > 0 {
          assert offs[i] == Offsets(fields[1..], next)[i - 1];
          assert fields[i] == fields[1..][i - 1];
        }
      }
    }
  }

  /** Driver, Card, BusInfo, Version, Capabilities, DeviceCaps, Reserved. */
  function CapabilityFields(): seq<FieldType> {
    [Uint8Array(16), Uint8Array(32), Uint8Array(32), Uint32Field, Uint32Field, Uint32Field, Uint32Array(3)]
  }

  /** unsafe.Sizeof(v4l2.V4l2Capability{}) */
  function SizeofCapability(): nat {
    SizeOf(CapabilityFields())
  }

  /** struct v4l2_capability has no padding: its fields sit back to back at the
      offsets the kernel ABI uses and the struct is 104 bytes long. */
  lemma CapabilityLayout()
    ensures Offsets(CapabilityFields(), 0) == [0, 16, 48, 80, 84, 88, 92]
    ensures SizeofCapability() == 104
  {
    CapabilityHeadLayout(CapabilityFields());
    CapabilityAlignment();
  }

  /** The layout from Driver on, stated for a variable equal to the field list. */
  lemma CapabilityHeadLayout(f: seq<FieldType>)
    requires f == CapabilityFields()
    ensures Offsets(f, 0) == [0, 16, 48, 80, 84, 88, 92]
    ensures FieldsEnd(f, 0) == 104
  {
    CapabilityCardLayout(f);
    assert f[0] == Uint8Array(16);
    LayoutStep(f, 0, 0, 104, [0, 16, 48, 80, 84, 88, 92]);
  }

  /** The layout from Card on. */
  lemma CapabilityCardLayout(f: seq<FieldType>)
    requires f == CapabilityFields()
    ensures Offsets(f[1..], 16) == [16, 48, 80, 84, 88, 92]
    ensures FieldsEnd(f[1..], 16) == 104
  {
    assert f[1] == Uint8Array(32);
    CapabilityTailLayout();
    LayoutStep(f, 1, 16, 104, [16, 48, 80, 84, 88, 92]);
  }

  /** The layout from BusInfo on. */
  lemma CapabilityTailLayout()
    ensures Offsets(CapabilityFields()[2..], 48) == [48, 80, 84, 88, 92]
    ensures FieldsEnd(CapabilityFields()[2..], 48) == 104
  {
    var f := CapabilityFields();
    assert |f| == 7 && f[6] == Uint32Array(3) && f[5] == Uint32Field && f[4] == Uint32Field;
    assert f[3] == Uint32Field && f[2] == Uint8Array(32);
    LayoutStep(f, 6, 92, 104, [92]);
    LayoutStep(f, 5, 88, 104, [88, 92]);
    LayoutStep(f, 4, 84, 104, [84, 88, 92]);
    LayoutStep(f, 3, 80, 104, [80, 84, 88, 92]);
    LayoutStep(f, 2, 48, 104, [48, 80, 84, 88, 92]);
  }

  lemma CapabilityAlignment()
    ensures MaxAlign(CapabilityFields()) == 4
  {
    assert CapabilityFields()[3] == Uint32Field;
    MaxAlignFour(CapabilityFields(), 3);
  }

  /** One field with alignment 4 makes the whole struct 4-aligned. */
  lemma {:induction false} MaxAlignFour(fields: seq<FieldType>, k: nat)
    requires k < |fields| && Align(fields[k]) == 4
    ensures MaxAlign(fields) == 4
    decreases k
  {
    if k > 0 {
      assert fields[1..][k - 1] == fields[k];
      MaxAlignFour(fields[1..], k - 1);
    }
  }

  /** One field of a layout computation: if the fields after position k start at
      `start + Size(fields[k])` with offsets offs[1..] and the given end, then so
      does the layout from position k. */
  lemma LayoutStep(fields: seq<FieldType>, k: nat, start: nat, end: nat, offs: seq<nat>)
    requires k < |fields| && |offs| > 0 && offs[0] == start && start % Align(fields[k]) == 0
    requires k + 1 == |fields| ==> offs == [start] && end == start + Size(fields[k])
    requires k + 1 < |fields| ==>
      Offsets(fields[k + 1..], start + Size(fields[k])) == offs[1..]
      && FieldsEnd(fields[k + 1..], start + Size(fields[k])) == end
    ensures Offsets(fields[k..], start) == offs && FieldsEnd(fields[k..], start) == end
    ensures k == 0 ==> Offsets(fields, start) == offs && FieldsEnd(fields, start) == end
  {
    assert fields[k..][1..] == fields[k + 1..];
    assert fields[0..] == fields;
  }

  /** A capability value matches the ABI field lengths. */
  predicate WellFormed(c: V4l2Capability) {
    |c.driver| == Size(CapabilityFields()[0]) && |c.card| == Size(CapabilityFields()[1])
    && |c.busInfo| == Size(CapabilityFields()[2]) && |c.reserved| == 3
  }

  // ---------------------------------------------------------------------------
  // Values for the 'capabilities' field
  // ---------------------------------------------------------------------------

  const V4L2_CAP_VIDEO_CAPTURE: bv32 := 0x00000001
  const V4L2_CAP_VIDEO_OUTPUT: bv32 := 0x00000002
  const V4L2_CAP_VIDEO_OVERLAY: bv32 := 0x00000004
  const V4L2_CAP_VBI_CAPTURE: bv32 := 0x00000010
  const V4L2_CAP_VBI_OUTPUT: bv32 := 0x00000020
  const V4L2_CAP_SLICED_VBI_CAPTURE: bv32 := 0x00000040
  const V4L2_CAP_SLICED_VBI_OUTPUT: bv32 := 0x00000080
  const V4L2_CAP_RDS_CAPTURE: bv32 := 0x00000100
  const V4L2_CAP_VIDEO_OUTPUT_OVERLAY: bv32 := 0x00000200
  const V4L2_CAP_HW_FREQ_SEEK: bv32 := 0x00000400
  const V4L2_CAP_RDS_OUTPUT: bv32 := 0x00000800
  const V4L2_CAP_VIDEO_CAPTURE_MPLANE: bv32 := 0x00001000
  const V4L2_CAP_VIDEO_OUTPUT_MPLANE: bv32 := 0x00002000
  const V4L2_CAP_VIDEO_M2M_MPLANE: bv32 := 0x00004000
  const V4L2_CAP_VIDEO_M2M: bv32 := 0x00008000
  const V4L2_CAP_TUNER: bv32 := 0x00010000
  const V4L2_CAP_AUDIO: bv32 := 0x00020000
  const V4L2_CAP_RADIO: bv32 := 0x00040000
  const V4L2_CAP_MODULATOR: bv32 := 0x00080000
  const V4L2_CAP_SDR_CAPTURE: bv32 := 0x00100000
  const V4L2_CAP_EXT_PIX_FORMAT: bv32 := 0x00200000
  const V4L2_CAP_SDR_OUTPUT: bv32 := 0x00400000
  const V4L2_CAP_READWRITE: bv32 := 0x01000000
  const V4L2_CAP_ASYNCIO: bv32 := 0x02000000
  const V4L2_CAP_STREAMING: bv32 := 0x04000000
  const V4L2_CAP_TOUCH: bv32 := 0x10000000
  const V4L2_CAP_DEVICE_CAPS: bv32 := 0x80000000

  /** The V4L2_CAP_* flags, one constructor per constant. */
  datatype Capability =
    | VideoCapture
    | VideoOutput
    | VideoOverlay
    | VbiCapture
    | VbiOutput
    | SlicedVbiCapture
    | SlicedVbiOutput
    | RdsCapture
    | VideoOutputOverlay
    | HwFreqSeek
    | RdsOutput
    | VideoCaptureMplane
    | VideoOutputMplane
    | VideoM2mMplane
    | VideoM2m
    | Tuner
    | Audio
    | Radio
    | Modulator
    | SdrCapture
    | ExtPixFormat
    | SdrOutput
    | ReadWrite
    | AsyncIo
    | Streaming
    | Touch
    | DeviceCaps

  /** The mask value of each flag. */
  function Flag(c: Capability): bv32 {
    match c
    case VideoCapture => V4L2_CAP_VIDEO_CAPTURE
    case VideoOutput => V4L2_CAP_VIDEO_OUTPUT
    case VideoOverlay => V4L2_CAP_VIDEO_OVERLAY
    case VbiCapture => V4L2_CAP_VBI_CAPTURE
    case VbiOutput => V4L2_CAP_VBI_OUTPUT
    case SlicedVbiCapture => V4L2_CAP_SLICED_VBI_CAPTURE
    case SlicedVbiOutput => V4L2_CAP_SLICED_VBI_OUTPUT
    case RdsCapture => V4L2_CAP_RDS_CAPTURE
    case VideoOutputOverlay => V4L2_CAP_VIDEO_OUTPUT_OVERLAY
    case HwFreqSeek => V4L2_CAP_HW_FREQ_SEEK
    case RdsOutput => V4L2_CAP_RDS_OUTPUT
    case VideoCaptureMplane => V4L2_CAP_VIDEO_CAPTURE_MPLANE
    case VideoOutputMplane => V4L2_CAP_VIDEO_OUTPUT_MPLANE
    case VideoM2mMplane => V4L2_CAP_VIDEO_M2M_MPLANE
    case VideoM2m => V4L2_CAP_VIDEO_M2M
    case Tuner => V4L2_CAP_TUNER
    case Audio => V4L2_CAP_AUDIO
    case Radio => V4L2_CAP_RADIO
    case Modulator => V4L2_CAP_MODULATOR
    case SdrCapture => V4L2_CAP_SDR_CAPTURE
    case ExtPixFormat => V4L2_CAP_EXT_PIX_FORMAT
    case SdrOutput => V4L2_CAP_SDR_OUTPUT
    case ReadWrite => V4L2_CAP_READWRITE
    case AsyncIo => V4L2_CAP_ASYNCIO
    case Streaming => V4L2_CAP_STREAMING
    case Touch => V4L2_CAP_TOUCH
    case DeviceCaps => V4L2_CAP_DEVICE_CAPS
  }

  /** The bit position each flag occupies. */
  function Bit(c: Capability): (b: nat)
    ensures b < 32
  {
    match c
    case VideoCapture => 0
    case VideoOutput => 1
    case VideoOverlay => 2
    case VbiCapture => 4
    case VbiOutput => 5
    case SlicedVbiCapture => 6
    case SlicedVbiOutput => 7
    case RdsCapture => 8
    case VideoOutputOverlay => 9
    case HwFreqSeek => 10
    case RdsOutput => 11
    case VideoCaptureMplane => 12
    case VideoOutputMplane => 13
    case VideoM2mMplane => 14
    case VideoM2m => 15
    case Tuner => 16
    case Audio => 17
    case Radio => 18
    case Modulator => 19
    case SdrCapture => 20
    case ExtPixFormat => 21
    case SdrOutput => 22
    case ReadWrite => 24
    case AsyncIo => 25
    case Streaming => 26
    case Touch => 28
    case DeviceCaps => 31
  }

  /** The flag that occupies a bit position, if any: the inverse of Bit. */
  function FlagAtBit(b: nat): (r: Option<Capability>)
  {
    if b == 0 then Some(VideoCapture)
    else if b == 1 then Some(VideoOutput)
    else if b == 2 then Some(VideoOverlay)
    else if b == 4 then Some(VbiCapture)
    else if b == 5 then Some(VbiOutput)
    else if b == 6 then Some(SlicedVbiCapture)
    else if b == 7 then Some(SlicedVbiOutput)
    else if b == 8 then Some(RdsCapture)
    else if b == 9 then Some(VideoOutputOverlay)
    else if b == 10 then Some(HwFreqSeek)
    else if b == 11 then Some(RdsOutput)
    else if b == 12 then Some(VideoCaptureMplane)
    else if b == 13 then Some(VideoOutputMplane)
    else if b == 14 then Some(VideoM2mMplane)
    else if b == 15 then Some(VideoM2m)
    else if b == 16 then Some(Tuner)
    else if b == 17 then Some(Audio)
    else if b == 18 then Some(Radio)
    else if b == 19 then Some(Modulator)
    else if b == 20 then Some(SdrCapture)
    else if b == 21 then Some(ExtPixFormat)
    else if b == 22 then Some(SdrOutput)
    else if b == 24 then Some(ReadWrite)
    else if b == 25 then Some(AsyncIo)
    else if b == 26 then Some(Streaming)
    else if b == 28 then Some(Touch)
    else if b == 31 then Some(DeviceCaps)
    else None
  }

  /** x has exactly one bit set. */
  predicate SingleBit(x: bv32) {
    x != 0 && x & (x - 1) == 0
  }

  /** The capability test of the device's Capability().HasCapability: the flag's bit is set in the mask. */
  predicate HasCapability(mask: bv32, flag: bv32) {
    mask & flag != 0
  }

  /** Each flag is the single bit at its position. */
  lemma FlagIsBit(c: Capability)
    ensures Flag(c) == 1 << Bit(c) && SingleBit(Flag(c))
  {
    OneBit(Bit(c));
    match c
    case VideoCapture =>
    case VideoOutput =>
    case VideoOverlay =>
    case VbiCapture =>
    case VbiOutput =>
    case SlicedVbiCapture =>
    case SlicedVbiOutput =>
    case RdsCapture =>
    case VideoOutputOverlay =>
    case HwFreqSeek =>
    case RdsOutput =>
    case VideoCaptureMplane =>
    case VideoOutputMplane =>
    case VideoM2mMplane =>
    case VideoM2m =>
    case Tuner =>
    case Audio =>
    case Radio =>
    case Modulator =>
    case SdrCapture =>
    case ExtPixFormat =>
    case SdrOutput =>
    case ReadWrite =>
    case AsyncIo =>
    case Streaming =>
    case Touch =>
    case DeviceCaps =>
  }

  /** No two flags occupy the same position. */
  lemma BitInjective(c: Capability)
    ensures FlagAtBit(Bit(c)) == Some(c)
  {
  }

  /** Every V4L2_CAP_* constant is a power of two, and two different flags share no bit. */
  lemma CapabilityFlagsAreDistinctBits(c: Capability, d: Capability)
    ensures SingleBit(Flag(c))
    ensures c != d ==> Flag(c) & Flag(d) == 0 && Flag(c) != Flag(d)
  {
    FlagIsBit(c);
    FlagIsBit(d);
    if c != d {
      BitInjective(c);
      BitInjective(d);
      SeparateBits(Flag(c), Flag(d), Bit(c), Bit(d));
    }
  }

  lemma SeparateBits(x: bv32, y: bv32, a: nat, b: nat)
    requires a < 32 && b < 32 && a != b && x == 1 << a && y == 1 << b
    ensures x & y == 0 && x != y
  {
    if a < b {
      TwoBits(a, b);
    } else {
      TwoBits(b, a);
    }
  }

  lemma OneBit(b: nat)
    requires b < 32
    ensures SingleBit((1 as bv32) << b)
  {
  }

  lemma TwoBits(a: nat, b: nat)
    requires a < b < 32
    ensures ((1 as bv32) << a) & ((1 as bv32) << b) == 0 && (1 as bv32) << a != (1 as bv32) << b
  {
  }

  /** The two flags the capture code relies on. */
  lemma CaptureAndStreamingBits()
    ensures V4L2_CAP_VIDEO_CAPTURE == 1 << 0 && V4L2_CAP_STREAMING == 1 << 26
    ensures V4L2_CAP_DEVICE_CAPS == 1 << 31
    ensures HasCapability(V4L2_CAP_VIDEO_CAPTURE | V4L2_CAP_STREAMING, V4L2_CAP_STREAMING)
  {
  }

  // ---------------------------------------------------------------------------
  // Constants of videodev2.h the capture code uses; the Go file that declares
  // them is not part of this model, so they carry the kernel's values.
  // ---------------------------------------------------------------------------

  /** v4l2_fourcc(a, b, c, d) */
  function Fourcc(a: char, b: char, c: char, d: char): bv32
    requires a as int < 256 && b as int < 256 && c as int < 256 && d as int < 256
  {
    (a as int as bv32) | ((b as int as bv32) << 8) | ((c as int as bv32) << 16) | ((d as int as bv32) << 24)
  }

  const V4L2_PIX_FMT_MJPEG: bv32 := 0x47504A4D
  const V4L2_FIELD_NONE: Uint32 := 1
  const V4L2_BUF_TYPE_VIDEO_CAPTURE: Uint32 := 1
  const V4L2_MEMORY_MMAP: Uint32 := 1

  lemma MjpegFourcc()
    ensures V4L2_PIX_FMT_MJPEG == Fourcc('M', 'J', 'P', 'G')
  {
    assert 'M' as int as bv32 == 0x4D && 'J' as int as bv32 == 0x4A;
    assert 'P' as int as bv32 == 0x50 && 'G' as int as bv32 == 0x47;
  }
}
