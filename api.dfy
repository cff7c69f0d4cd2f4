/** webcam/api.go: opening a video device (open, query its capabilities, insist on
    video capture and streaming) and the DiscreteFrameSize value. */
module WebcamApi {
  import opened Base
  import opened V4l2
  import opened Ioctl
  import opened Kernel

  /** A frame size the device can capture. */
  datatype DiscreteFrameSize = DiscreteFrameSize(width: Uint32, height: Uint32) {
    /** fmt.Sprintf("DiscreteFrame[%dx%d]", width, height): the text reads back as
        this very size. */
    function String(): (s: string)
      ensures ParseFrameSize(s) == Some((width as nat, height as nat))
    {
      ParseRendered(Decimal(width), Decimal(height));
      DecimalRoundTrip(width);
      DecimalRoundTrip(height);
      FRAME_PREFIX + Decimal(width) + "x" + Decimal(height) + "]"
    }
  }

  const FRAME_PREFIX: string := "DiscreteFrame["

  /** Reads "DiscreteFrame[<w>x<h>]" back into its two decimal numbers. */
  function ParseFrameSize(s: string): (r: Option<(nat, nat)>)
    ensures r.Some? ==> |s| > |FRAME_PREFIX| && s[..|FRAME_PREFIX|] == FRAME_PREFIX && s[|s| - 1] == ']'
  {
    if |s| <= |FRAME_PREFIX| || s[..|FRAME_PREFIX|] != FRAME_PREFIX || s[|s| - 1] != ']' then None
    else ParseDimensions(s[|FRAME_PREFIX|..|s| - 1])
  }

  /** Reads "<w>x<h>": a run of digits, an 'x', and digits to the end. */
  function ParseDimensions(body: string): (r: Option<(nat, nat)>)
    ensures r.Some? ==> 'x' in body
  {
    var n := DigitRun(body);
    if n == 0 || n == |body| || body[n] != 'x' then None
    else
      var h := body[n + 1..];
      if h == [] || !AllDigits(h) then None
      else Some((DigitsValue(body[..n]), DigitsValue(h)))
  }

  /** The parser takes the rendered text apart at the prefix, the 'x' and the ']'. */
  lemma ParseRendered(w: string, h: string)
    requires AllDigits(w) && AllDigits(h) && w != [] && h != []
    ensures ParseFrameSize(FRAME_PREFIX + w + "x" + h + "]") == Some((DigitsValue(w), DigitsValue(h)))
  {
    var s := FRAME_PREFIX + w + "x" + h + "]";
    var body := w + ("x" + h);
    assert s == FRAME_PREFIX + body + "]";
    assert s[..|FRAME_PREFIX|] == FRAME_PREFIX;
    assert s[|FRAME_PREFIX|..|s| - 1] == body;
    ParseDimensionsRendered(w, h);
  }

  lemma ParseDimensionsRendered(w: string, h: string)
    requires AllDigits(w) && AllDigits(h) && w != [] && h != []
    ensures ParseDimensions(w + ("x" + h)) == Some((DigitsValue(w), DigitsValue(h)))
  {
    var body := w + ("x" + h);
    DigitsEndAtNonDigit(w, "x" + h);
    assert body[|w|] == 'x';
    assert body[..|w|] == w;
    assert body[|w| + 1..] == h;
  }

  // ---------------------------------------------------------------------------
  // The requests the three capture variants build alike in their setFrameSize,
  // requestMmapBuffer and queryMmapBuffer helpers.
  // ---------------------------------------------------------------------------

  /** The format setFrameSize asks for: the requested width and height, the given
      pixel format, progressive (V4L2_FIELD_NONE). */
  function FrameFormat(frameSize: DiscreteFrameSize, pixelFormat: bv32): (f: PixFormat)
    ensures f.width == frameSize.width && f.height == frameSize.height
    ensures f.pixelformat == pixelFormat && f.field == V4L2_FIELD_NONE
  {
    PixFormat(frameSize.width, frameSize.height, pixelFormat, V4L2_FIELD_NONE)
  }

  /** requestMmapBuffer: one memory-mapped video capture buffer. */
  const MMAP_REQUEST: RequestBuffers := RequestBuffers(1, V4L2_BUF_TYPE_VIDEO_CAPTURE, V4L2_MEMORY_MMAP)

  /** The buffer queried, queued and dequeued: index 0 of the video capture mmap buffers. */
  const BUFFER_ZERO: BufferRef := BufferRef(0, V4L2_BUF_TYPE_VIDEO_CAPTURE, V4L2_MEMORY_MMAP)

  /** The set-up succeeds: the format is accepted, the buffer granted and mapped. */
  predicate MapsBuffer(d: Driver) {
    Ioctl.SetFrameSize(Syscall(d.setFormatAx)).None? && d.requestBufs.None? && MmapResult(d, Queried(d).length).None?
  }

  /** Two frame sizes print alike only if they are the same size: the text reads back. */
  lemma FrameSizeStringInjective(a: DiscreteFrameSize, b: DiscreteFrameSize)
    ensures a.String() == b.String() ==> a == b
  {
  }

  /** The capability checks of OpenVideoDevice, in their order: video capture first,
      then streaming. `name` is the device name the messages carry. */
  function CapabilityGate(mask: bv32, name: string): (r: Option<Error>)
    ensures r.None? <==> HasCapability(mask, V4L2_CAP_VIDEO_CAPTURE) && HasCapability(mask, V4L2_CAP_STREAMING)
    ensures !HasCapability(mask, V4L2_CAP_VIDEO_CAPTURE) ==> r == Some(NotCapturingDevice(name))
    ensures HasCapability(mask, V4L2_CAP_VIDEO_CAPTURE) && !HasCapability(mask, V4L2_CAP_STREAMING) ==>
      r == Some(NotStreamingDevice(name))
  {
    if !HasCapability(mask, V4L2_CAP_VIDEO_CAPTURE) then Some(NotCapturingDevice(name))
    else if !HasCapability(mask, V4L2_CAP_STREAMING) then Some(NotStreamingDevice(name))
    else None
  }

  /** Only bits 0 and 26 of the mask decide the gate. */
  lemma GateReadsTwoBits(m1: bv32, m2: bv32, name: string)
    requires m1 & 0x0400_0001 == m2 & 0x0400_0001
    ensures CapabilityGate(m1, name) == CapabilityGate(m2, name)
  {
    CaptureAndStreamingBits();
    assert (m1 & 1 != 0) == (m2 & 1 != 0);
    assert (m1 & 0x0400_0000 != 0) == (m2 & 0x0400_0000 != 0);
  }

  /** The opened device: its file and the capabilities it reported. */
  class Device {
    const file: File
    const capability: V4l2Capability

    constructor (file: File, capability: V4l2Capability)
      ensures this.file == file && this.capability == capability
    {
      this.file := file;
      this.capability := capability;
    }

    /** The device's name: the path it was opened with. */
    function Name(): string {
      file.name
    }

    /** VideoDevice.Close: closes the device's file. */
    method Close()
      modifies file`trace
      ensures file.trace == old(file.trace) + [Step.Close]
    {
      file.Close();
    }
  }

  /** The error OpenVideoDevice returns, nil meaning a device: the open error, else
      the capability query error, else the gate's verdict. */
  function OpenError(devices: map<string, Result<Driver, bv64>>, path: string): Option<Error> {
    if path !in devices then Some(PathError("open", path, ENOENT))
    else if devices[path].Failure? then Some(PathError("open", path, devices[path].error))
    else
      var d := devices[path].value;
      var queried := QueryCapability(d.capability, Syscall(d.queryCapAx));
      if queried.1.Some? then queried.1 else CapabilityGate(queried.0.capabilities, path)
  }

  /** OpenVideoDevice: open, query the capabilities straight away, then check the
      capture and streaming bits. The only request made on the opened file is the
      capability query, and the file is not closed on any error path. */
  method OpenVideoDevice(devices: map<string, Result<Driver, bv64>>, path: string)
      returns (dev: Device?, err: Option<Error>, ghost handle: File?)
    ensures err == OpenError(devices, path)
    ensures dev != null <==> err.None?
    ensures path in devices && devices[path].Success? <==> handle != null
    ensures handle != null ==> fresh(handle) && handle.driver == devices[path].value && handle.trace == [QueryCap]
    ensures handle != null ==> Step.Close !in handle.trace
    ensures dev != null ==> fresh(dev) && dev.file == handle && dev.capability == devices[path].value.capability
  {
    var file;
    file, err := Open(devices, path);
    handle := file;
    if err.Some? {
      return null, err, handle;
    }
    var capability, res := file.QueryCapIoctl();
    var queried := QueryCapability(capability, res);
    if queried.1.Some? {
      return null, queried.1, handle;
    }
    var device := new Device(file, queried.0);
    err := CapabilityGate(device.capability.capabilities, device.Name());
    if err.Some? {
      return null, err, handle;
    }
    return device, None, handle;
  }

  /** A device is returned exactly when the path opens, the capability query succeeds
      and both the capture and the streaming bit are set. */
  lemma OpenSucceedsIff(devices: map<string, Result<Driver, bv64>>, path: string)
    ensures OpenError(devices, path).None? <==>
      path in devices && devices[path].Success?
      && devices[path].value.queryCapAx <= 0xFFFF_FFFF_FFFF_F001
      && HasCapability(devices[path].value.capability.capabilities, V4L2_CAP_VIDEO_CAPTURE)
      && HasCapability(devices[path].value.capability.capabilities, V4L2_CAP_STREAMING)
  {
    if path in devices && devices[path].Success? {
      var d := devices[path].value;
      QueryCapabilityReportsFailures(d.capability, d.queryCapAx);
    }
  }
}
