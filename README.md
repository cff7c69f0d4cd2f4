# webcam-go in Dafny

A model of the device-control core of webcam-go, a Go library and HTTP server that
takes JPEG snapshots from Video4Linux2 (V4L2) cameras. The model covers four areas:

- **V4L2 ABI.** The `struct v4l2_capability` layout and the `V4L2_CAP_*` flags
  (`V4l2`, videodev2.dfy). The ioctl request codes built as the kernel's `_IOC` macro
  builds them, and the four functions that turn a raw system-call result into Go's
  `(bool, error)` or `error` (`Ioctl`, ioctl.dfy).
- **Device access.** Opening a device and gating it on the video-capture and streaming
  capabilities (`WebcamApi`, api.dfy). The search for a supported pixel format
  (`WebcamFormats`, formats.dfy).
- **Capture.** The three one-frame capture sequences: `camera.go` (`WebcamCamera`),
  `still_camera.go` (`WebcamStillCamera`) and `snapshot.go` (`WebcamSnapshot`).
- **Server helpers.** The frame-size resolver and output-format selection of the
  snapshot endpoint (`CamserverSnapshot`). The `--device name=path` parser and parameter
  lookup (`CamserverParams`). NUL trimming and the per-camera record of the
  "all cameras" endpoint (`CamserverAll`).

The kernel is not executed. `Kernel` (kernel.dfy) stands in for it:

- A `Driver` value scripts what the device answers to each kind of request.
- A `File` records every request made on it, in order, in a ghost `trace`, and holds
  the currently mapped buffer as an `array`.

Each capture sequence is an imperative method on a class over a `File`. Each method
is proved against a case function (`CaptureRun`, `StillRun`, `TakeRun`). That case
function is in turn proved equal to a generic reading of the sequence as a plan
(`Kernel.Execute`): every request is issued in order, up to and including the first
checked request that fails.

`Base` (base.dfy) holds the small parts of Go the core leans on:

- the `uint32` conversion;
- the `copy` builtin;
- `%d` rendering;
- `strconv.Atoi`.

In these places the code behaves differently from what its names suggest, and the model follows the code:

- **Frame-size distance.** The distance used to pick the nearest frame size is the
  wrapping `uint32` difference `value - request`, not an absolute difference. The
  subtraction wraps before the `float64`/`math.Abs` round trip, which is exact.
  Asking for height 500 among heights 240, 480 and 960 therefore picks 960
  (`CamserverSnapshot.HeightWrapsAround`).
- **Copy length.** The snapshot copies the buffer length returned by
  `VIDIOC_QUERYBUF`, not the length in the dequeued descriptor.
- **Teardown.** It does not run on every path. An error before the dequeue returns at
  once, leaving the buffer mapped and streaming on. A failed unmap skips the
  stream-off.
- **Format search.** The search in formats.go never advances the descriptor index. A
  successful ioctl returns 0, which `QueryFormat` reads as "no entry", so the search
  never reports a format as supported on a kernel that follows the usual convention.
  formats.go does not compile as written: `os` is not imported, the result list
  `bool, error` lacks its parentheses, and an `int` is assigned to the `uint32` field
  `desc.Index`. The model follows the evident logic of the code.
- **Read-write mapping.** camera.go and still_camera.go map the buffer
  `PROT_READ|PROT_WRITE` and `MAP_SHARED` on a file that `os.Open` opened read-only.
  Linux refuses such a mapping with EACCES, so on a real kernel both capture paths would
  stop at the mmap. The model leaves the mmap answer to the scripted driver
  (`Driver.mmap`) and so also covers kernels that grant the mapping.

## Model

| member | source | states |
|---|---|---|
| Base.Wrap32 | camserver/snapshot_endpoint.go:153 | Go's `uint32(x)` keeps x when it is in range and otherwise differs from x by a multiple of 2^32 |
| Base.Copy | webcam/camera.go:59-60 | `copy` copies min(len(dst), len(src)) bytes from the source, leaves the rest of dst alone and returns the count |
| Base.Decimal | webcam/api.go:77-79 | `%d` of an unsigned value is a non-empty string of decimal digits, one digit exactly below 10, with no leading zero except for 0 itself |
| Base.DecimalRoundTrip | webcam/api.go:77-79 | reading back the digits `%d` prints gives the number again |
| Base.DecimalInjective | webcam/api.go:77-79 | different numbers print differently |
| Base.Atoi | camserver/snapshot_endpoint.go:147-151 | `strconv.Atoi` accepts an in-range digit string with its value; a digit string above the int64 maximum is ErrRange; the empty string is ErrSyntax; every failure is a NumError of Atoi naming the input |
| Base.AtoiOverflowBeforeSyntax | camserver/snapshot_endpoint.go:147-151 | digits whose value passes 2^64 - 1 are ErrRange whatever non-digit follows them, because the digits are read from the left |
| Base.DigitRun | camserver/snapshot_endpoint.go:147-151 | the leading run of digits: all digits, followed by a non-digit or the end, and the whole string when it is all digits |
| Base.DigitsEndAtNonDigit | webcam/api.go:78 | the leading digit run of digits followed by a non-digit is exactly the digits |
| Base.AtoiReadsNegative | camserver/snapshot_endpoint.go:147-151 | a minus sign before digits worth at most 2^63 reads as their negation |
| Base.AtoiReadsDecimal | camserver/snapshot_endpoint.go:147-159 | Atoi reads back every int64 `%d` prints, with or without a minus sign |
| V4l2.FieldsDisjoint | v4l2/videodev2.go:3-11 | fields laid out in order never overlap, and each ends before the struct does |
| V4l2.CapabilityLayout | v4l2/videodev2.go:3-11 | the capability fields sit at offsets 0, 16, 48, 80, 84, 88 and 92, and the struct is 104 bytes |
| V4l2.CapabilityHeadLayout | v4l2/videodev2.go:3-11 | the offsets and the end (104) of the layout from Driver on |
| V4l2.CapabilityCardLayout | v4l2/videodev2.go:5-11 | the offsets and end of the layout from Card on |
| V4l2.CapabilityTailLayout | v4l2/videodev2.go:6-11 | the offsets and end of the layout from BusInfo on |
| V4l2.CapabilityAlignment | v4l2/videodev2.go:7-10 | the uint32 fields make the struct 4-aligned |
| V4l2.MaxAlignFour | v4l2/videodev2.go:7-10 | any 4-aligned field makes the whole struct 4-aligned |
| V4l2.LayoutStep | v4l2/videodev2.go:3-11 | one field of the layout: the offsets and end from a field on follow from those of the fields after it |
| V4l2.FlagIsBit | v4l2/videodev2.go:14-52 | every V4L2_CAP_* constant is `1 << Bit(c)` and has exactly one bit set |
| V4l2.BitInjective | v4l2/videodev2.go:14-52 | the bit position determines the flag |
| V4l2.CapabilityFlagsAreDistinctBits | v4l2/videodev2.go:14-52 | every flag is a single power of two, and two different flags share no bit |
| V4l2.SeparateBits | v4l2/videodev2.go:14-52 | two single bits at different positions are disjoint and different |
| V4l2.OneBit | v4l2/videodev2.go:14-52 | `1 << b` has exactly one bit set in a uint32 |
| V4l2.TwoBits | v4l2/videodev2.go:14-52 | two different single bits share no bit |
| V4l2.CaptureAndStreamingBits | v4l2/videodev2.go:14-52 | VIDEO_CAPTURE is bit 0, STREAMING bit 26 and DEVICE_CAPS bit 31 of the uint32 mask |
| Ioctl.ShiftLayout | v4l2/ioctl/ioctl.go:11-23 | the 8/8/14-bit widths give shifts 0, 8, 16 and 30, and the fields fill 32 bits |
| Ioctl.IocRoundTrip | v4l2/ioctl/ioctl.go:21-28 | fields that fit their widths occupy disjoint bits: the OR is a sum below 2^32, and decoding gives every field back |
| Ioctl.IocDecodeRoundTrip | v4l2/ioctl/ioctl.go:21-28 | every 32-bit code is the encoding of its own decoded fields |
| Ioctl.QueryCapCode | v4l2/ioctl/ioctl.go:25 | with the 104-byte capability struct, VIDIOC_QUERYCAP is 0x80685600: read, type 'V', number 0, size 104 |
| Ioctl.QueryCapValue | v4l2/ioctl/ioctl.go:25 | the fields and value of the QUERYCAP code for size 104 |
| Ioctl.SizeofCapabilityField | v4l2/ioctl/ioctl.go:25 | `unsafe.Sizeof(V4l2Capability{})` is 104 as the size field of the code |
| Ioctl.ReadWriteCodes | v4l2/ioctl/ioctl.go:26-28 | ENUM_FMT, ENUM_FRAMESIZES and S_FMT are read-write, type 'V', numbers 2, 74 and 5, carrying their struct size |
| Ioctl.Syscall | v4l2/ioctl/ioctl.go:32-86 | the raw return value of the ioctl becomes (r1, errno): an errno exactly for values above -4095, with r1 = -1; otherwise r1 is the value |
| Ioctl.QueryCapability | v4l2/ioctl/ioctl.go:32-41 | the filled struct comes back; the error is set exactly when errno is, and carries it |
| Ioctl.QueryFormat | v4l2/ioctl/ioctl.go:43-56 | found exactly when errno is 0 and r1 is not; the error is set exactly when errno is |
| Ioctl.QueryFrameSize | v4l2/ioctl/ioctl.go:58-71 | r1 is checked before errno: found exactly when both are 0; the error is returned only when r1 is 0 and errno is set |
| Ioctl.SetFrameSize | v4l2/ioctl/ioctl.go:73-86 | nil exactly when r1 and errno are 0; a positive r1 is a "Cannot set frame size" error carrying it; otherwise the errno |
| Ioctl.QueryFormatFoundOnlyOnPositive | v4l2/ioctl/ioctl.go:43-56 | QueryFormat reports an entry only for a positive non-error return, so a successful ioctl (0) reads as "no entry" |
| Ioctl.QueryFrameSizeHidesErrors | v4l2/ioctl/ioctl.go:58-71 | a failed call has r1 = -1 > 0, so QueryFrameSize never returns an error, and only 0 reads as found |
| Ioctl.SetFrameSizeReportsStatus | v4l2/ioctl/ioctl.go:73-86 | SetFrameSize succeeds exactly on 0; every failure is "Cannot set frame size" with status 0xFFFFFFFFFFFFFFFF, never the errno |
| Ioctl.QueryCapabilityReportsFailures | v4l2/ioctl/ioctl.go:32-41 | QueryCapability fails exactly on the error range, with the kernel's error number |
| Kernel.EnumAnswer | v4l2/ioctl/ioctl.go:43-47 | the answer to VIDIOC_ENUM_FMT past the last format is EINVAL |
| Kernel.Queried | webcam/camera.go:163-175 | a failed VIDIOC_QUERYBUF leaves the zero-valued buffer, offset 0 and length 0 |
| Kernel.CopyInto | webcam/camera.go:59-60 | a zeroed buffer of the given length after `copy` from src: src's bytes where it has them, then zeros |
| Kernel.CopyIntoSameLength | webcam/camera.go:59-60 | copying a buffer into another of the same length reproduces it |
| Kernel.Steps | webcam/camera.go:71-133 | the requests of a plan, in plan order |
| Kernel.FirstFailure | webcam/camera.go:71-133 | the position of the first checked request that fails, with none failing before it |
| Kernel.Advance | webcam/camera.go:71-133 | a checked failure ends the sequence with its error; any other request hands on to the next |
| Kernel.ExecuteFromStopsAtFirstFailure | webcam/camera.go:71-133 | a run issues every request up to and including the first failing checked one and returns its error, else all of them and nil |
| Kernel.ExecuteStopsAtFirstFailure | webcam/camera.go:71-133 | the same, for a whole plan |
| Kernel.ExecuteShape | webcam/camera.go:71-133 | a run succeeds exactly when no checked request fails; a failed run ends at the failing request, every earlier checked one having succeeded |
| Kernel.StepInTrace | webcam/camera.go:71-133 | a request is issued exactly when the plan holds it at or before the first failure |
| Kernel.File.QueryCapIoctl | v4l2/ioctl/ioctl.go:33 | the VIDIOC_QUERYCAP system call is recorded and answers the driver's struct and raw result |
| Kernel.File.EnumFormatIoctl | v4l2/ioctl/ioctl.go:44 | the VIDIOC_ENUM_FMT call is recorded; on success the pixel format is written into the descriptor |
| Kernel.File.SetFormatIoctl | v4l2/ioctl/ioctl.go:74 | the VIDIOC_S_FMT call is recorded and answers the raw result |
| Kernel.File.RequestBuffer | webcam/camera.go:160 | VIDIOC_REQBUFS is recorded and answers the driver's error |
| Kernel.File.QueryBuffer | webcam/camera.go:170 | VIDIOC_QUERYBUF is recorded and answers the queried offset and length |
| Kernel.MmapResult | webcam/camera.go:177-179 | `syscall.Mmap` refuses a zero length with EINVAL before the kernel is asked; any other length gets the driver's answer |
| Kernel.File.Mmap | webcam/camera.go:177-179 | `syscall.Mmap` is recorded and answers MmapResult; on success it gives a fresh zeroed buffer of the length, which becomes the mapping; on failure an empty slice and the old mapping |
| Kernel.File.StreamOnIoctl | webcam/camera.go:185-187 | VIDIOC_STREAMON is recorded and answers the driver's error |
| Kernel.File.StreamOffIoctl | webcam/camera.go:189-191 | VIDIOC_STREAMOFF is recorded and answers the driver's error |
| Kernel.File.QueueBuffer | webcam/camera.go:193-200 | VIDIOC_QBUF is recorded and answers the driver's error |
| Kernel.File.DequeueBuffer | webcam/camera.go:202-211 | VIDIOC_DQBUF is recorded; on success the mapped buffer holds the frame, zero-padded, otherwise it is unchanged |
| Kernel.File.Munmap | webcam/camera.go:181-183 | `syscall.Munmap` is recorded; on success the buffer is no longer mapped, on failure the mapping is kept |
| Kernel.File.Close | webcam/api.go:52 | closing the file is recorded as the last request |
| Kernel.Open | webcam/api.go:13-19 | `os.Open` fails with ENOENT on a missing path, with the device's errno on a refused one, and otherwise gives a fresh file with no requests made |
| WebcamApi.DiscreteFrameSize.String | webcam/api.go:77-79 | the text reads back, through `ParseFrameSize` (prefix `DiscreteFrame[`, digits, 'x', digits, ']'), as this very width and height |
| WebcamApi.ParseRendered | webcam/api.go:78 | `DiscreteFrame[` + digits + "x" + digits + "]" parses to the values of the two digit strings |
| WebcamApi.ParseDimensionsRendered | webcam/api.go:78 | the split of `w + "x" + h` at the end of the leading digit run gives w and h back |
| WebcamApi.FrameSizeStringInjective | webcam/api.go:77-79 | two frame sizes print alike only if they are equal |
| WebcamApi.FrameFormat | webcam/camera.go:139-151 | setFrameSize asks for the requested width and height, the given pixel format and V4L2_FIELD_NONE |
| WebcamApi.CapabilityGate | webcam/api.go:30-36 | nil exactly when both the capture and the streaming bit are set; without capture, "not a video capturing device" whatever the streaming bit; with capture but no streaming, "not able to stream frames" |
| WebcamApi.GateReadsTwoBits | webcam/api.go:30-36 | only bits 0 and 26 of the mask decide the gate |
| WebcamApi.OpenVideoDevice | webcam/api.go:12-40 | returns OpenError's error, and a device exactly when that is nil; the capability query is the only request on the opened file, made straight after the open, and the file is not closed on any error path |
| WebcamApi.Device.Close | webcam/api.go:52 | closing the device records a close of its file and nothing else |
| WebcamApi.OpenSucceedsIff | webcam/api.go:12-40 | a device comes back exactly when the path opens, the capability query succeeds and both gate bits are set |
| WebcamFormats.Repeat | webcam/formats.go:19-20 | n copies of the same query |
| WebcamFormats.SupportsAnswers | webcam/formats.go:12-34 | Supports reports support exactly when the first query succeeds with a positive result and the descriptor carries the format; it errs exactly when that query's errno is set, returning it |
| WebcamFormats.OneQueryDecides | webcam/formats.go:14-32 | the index is never advanced, so the first answer decides: either it ends the search, or no number of queries does |
| WebcamFormats.SuccessMeansUnsupported | webcam/formats.go:19-33 | a successful ioctl (0) ends the search after one query with (false, nil) |
| WebcamFormats.NoFormatsIsError | webcam/formats.go:20-24 | a device with no formats fails the first query with EINVAL, which is returned |
| WebcamFormats.SupportedFormats.Supports | webcam/formats.go:12-34 | the loop returns SupportsOutcome, asking only about index 0 of bufType, as many times as SupportsQueries says |
| WebcamCamera.CopyHandler.Handle | webcam/camera.go:58-62 | the handler's snapshot has the same frame size and length, and a fresh copy of `length` bytes of the mapped data |
| WebcamCamera.CaptureRunFollowsPlan | webcam/camera.go:71-133 | takeSnapshotAsync's cases are the plan setFrameSize, request, query (unchecked), mmap, stream on, queue, dequeue, handler, munmap, stream off, cut at the first failure |
| WebcamCamera.CaptureOrder | webcam/camera.go:71-133 | the requests are a prefix of that plan; nil comes back exactly when every checked request, teardown included, succeeds |
| WebcamCamera.HandlerRunsAfterDequeue | webcam/camera.go:115-120 | the handler runs exactly when every request up to the dequeue succeeded |
| WebcamCamera.RequestsIssuedOnce | webcam/camera.go:71-133 | no request is issued twice, so the handler runs at most once |
| WebcamCamera.TeardownOnlyAfterDequeue | webcam/camera.go:93-130 | munmap is issued exactly after a successful dequeue, and stream-off exactly after a successful munmap |
| WebcamCamera.Camera.SetFrameSize | webcam/camera.go:139-151 | one VIDIOC_S_FMT with the MJPEG frame format, classified by ioctl.SetFrameSize |
| WebcamCamera.Camera.RequestMmapBuffer | webcam/camera.go:153-161 | one VIDIOC_REQBUFS for one mmap video-capture buffer |
| WebcamCamera.Camera.QueryMmapBuffer | webcam/camera.go:163-175 | one VIDIOC_QUERYBUF of buffer 0; its result is dropped, and it never fails |
| WebcamCamera.Camera.MapBuffer | webcam/camera.go:177-179 | a shared read-write mapping of the queried offset and length, answering MmapResult; on success the new buffer is the mapping, on failure the mapping is unchanged |
| WebcamCamera.Camera.MunmapBuffer | webcam/camera.go:181-183 | unmaps the buffer, answering the driver's error; on success nothing is mapped any more, on failure the mapping is kept |
| WebcamCamera.Camera.ActivateStreaming | webcam/camera.go:185-187 | VIDIOC_STREAMON for video capture |
| WebcamCamera.Camera.DeactivateStreaming | webcam/camera.go:189-191 | VIDIOC_STREAMOFF for video capture |
| WebcamCamera.Camera.QueueBuffer | webcam/camera.go:193-200 | VIDIOC_QBUF, returning its error |
| WebcamCamera.Camera.DequeueBuffer | webcam/camera.go:202-211 | VIDIOC_DQBUF, returning its error; on success the mapped buffer holds the frame |
| WebcamCamera.Camera.TakeSnapshotAsync | webcam/camera.go:71-133 | issues exactly CaptureRun's requests and returns its error; after a successful dequeue the handler received the mapped buffer of the queried length, otherwise it was not called. The mapping afterwards: unchanged when the set-up fails before the mmap; none after a successful dequeue and munmap; otherwise a fresh buffer of the queried length is left mapped |
| WebcamCamera.Camera.TakeSnapshot | webcam/camera.go:54-69 | (nil, err) on any error, teardown included; on success a fresh snapshot of the requested size, the queried length, and the frame copied out, zero-padded. The mapping afterwards: unchanged when the set-up fails before the mmap; none after a successful dequeue and munmap; otherwise a fresh buffer of the queried length is left mapped |
| WebcamStillCamera.StillRunStreams | webcam/still_camera.go:42-111 | once the mapping succeeds, TakeSnapshot goes on with stream on, queue, dequeue, munmap, stream off |
| WebcamStillCamera.StillRunFollowsPlan | webcam/still_camera.go:42-114 | TakeSnapshot's cases are its plan cut at the first failing checked request |
| WebcamStillCamera.SameOrderAsCamera | webcam/still_camera.go:42-111 | TakeSnapshot makes takeSnapshotAsync's requests in the same order, without the handler |
| WebcamStillCamera.StillOrder | webcam/still_camera.go:42-114 | the requests are a prefix of the plan; nil comes back exactly when every checked request, teardown included, succeeds |
| WebcamStillCamera.StillTeardown | webcam/still_camera.go:42-111 | nothing acquired before a failure is released: munmap exactly after a successful dequeue, stream-off exactly after a successful munmap |
| WebcamStillCamera.CopiedFrame | webcam/still_camera.go:99 | a full copy of the mapped buffer after the dequeue holds the frame, zero-padded |
| WebcamStillCamera.StillCamera.SetFrameSize | webcam/still_camera.go:116-128 | one VIDIOC_S_FMT with the requested width and height, MJPEG and no field interlacing |
| WebcamStillCamera.StillCamera.RequestMmapBuffer | webcam/still_camera.go:130-138 | one VIDIOC_REQBUFS for one mmap video-capture buffer |
| WebcamStillCamera.StillCamera.QueryMmapBuffer | webcam/still_camera.go:140-152 | one VIDIOC_QUERYBUF of buffer 0; its result is dropped, and it never fails |
| WebcamStillCamera.StillCamera.MapBuffer | webcam/still_camera.go:154-156 | a shared read-write mapping of the queried offset and length, answering MmapResult; on success the new buffer is the mapping, on failure the mapping is unchanged |
| WebcamStillCamera.StillCamera.MunmapBuffer | webcam/still_camera.go:158-160 | unmaps the buffer, answering the driver's error; on success nothing is mapped any more, on failure the mapping is kept |
| WebcamStillCamera.StillCamera.ActivateStreaming | webcam/still_camera.go:162-164 | VIDIOC_STREAMON for video capture |
| WebcamStillCamera.StillCamera.DeactivateStreaming | webcam/still_camera.go:166-168 | VIDIOC_STREAMOFF for video capture |
| WebcamStillCamera.StillCamera.QueueBuffer | webcam/still_camera.go:170-177 | VIDIOC_QBUF, returning its error |
| WebcamStillCamera.StillCamera.DequeueBuffer | webcam/still_camera.go:179-188 | VIDIOC_DQBUF, returning its error; on success the mapped buffer holds the frame |
| WebcamStillCamera.StillCamera.Stream | webcam/still_camera.go:72-111 | stream on, queue, dequeue, copy all `length` mapped bytes into dataCopy before the munmap, then stream off, stopping at the first error; on success dataCopy holds the frame; the buffer stays mapped unless every streaming request and the munmap succeed |
| WebcamStillCamera.StillCamera.TakeSnapshot | webcam/still_camera.go:42-114 | issues exactly StillRun's requests and returns its error with no snapshot; on success a fresh snapshot of the requested size, the queried length, and the copy of the mapped buffer. The mapping afterwards: unchanged when the set-up fails before the mmap; none after a successful dequeue and munmap; otherwise a fresh buffer of the queried length is left mapped |
| WebcamSnapshot.TakeRunFollowsPlan | webcam/snapshot.go:15-62 | Take's cases are its plan (stream on and off unchecked) cut at the first failing checked request |
| WebcamSnapshot.TakeOrder | webcam/snapshot.go:15-62 | the requests are a prefix of the plan; nil comes back exactly when the set-up and the munmap succeed, whatever streaming answers |
| WebcamSnapshot.TeardownAfterMapping | webcam/snapshot.go:20-55 | once the mapping succeeds, stream on, stream off and munmap are all issued; before that none of them is |
| WebcamSnapshot.CapturesNoFrame | webcam/snapshot.go:15-62 | Take never queues, dequeues or delivers a frame |
| WebcamSnapshot.ReadOnlyMapping | webcam/snapshot.go:100-102 | the buffer is mapped PROT_READ only |
| WebcamSnapshot.StreamingErrorsDiscarded | webcam/snapshot.go:48-55 | the stream-on and stream-off answers change neither the requests nor the result |
| WebcamSnapshot.Snapshot.SetFrameSize | webcam/snapshot.go:64-76 | one VIDIOC_S_FMT with the MJPEG frame format, classified by ioctl.SetFrameSize |
| WebcamSnapshot.Snapshot.RequestMmapBuffer | webcam/snapshot.go:78-86 | one VIDIOC_REQBUFS for one mmap video-capture buffer |
| WebcamSnapshot.Snapshot.QueryMmapBuffer | webcam/snapshot.go:88-98 | one VIDIOC_QUERYBUF of buffer 0; its result is dropped, and it never fails |
| WebcamSnapshot.Snapshot.MapBuffer | webcam/snapshot.go:100-102 | a shared read-only mapping of the queried offset and length, answering MmapResult; on success the new buffer is the mapping, on failure the mapping is unchanged |
| WebcamSnapshot.Snapshot.MunmapBuffer | webcam/snapshot.go:104-106 | unmaps the buffer, answering the driver's error; on success nothing is mapped any more, on failure the mapping is kept |
| WebcamSnapshot.Snapshot.ActivateStreaming | webcam/snapshot.go:108-110 | VIDIOC_STREAMON, whose result is dropped |
| WebcamSnapshot.Snapshot.DeactivateStreaming | webcam/snapshot.go:112-114 | VIDIOC_STREAMOFF, whose result is dropped |
| WebcamSnapshot.Snapshot.Take | webcam/snapshot.go:15-62 | issues exactly TakeRun's requests and returns its error; the mapping is unchanged when the set-up fails, none after a successful munmap, and a fresh buffer of the queried length when the munmap fails |
| CamserverSnapshot.Distance | camserver/snapshot_endpoint.go:98-108 | the distance is value - request when that is non-negative, and 2^32 - (request - value) otherwise |
| CamserverSnapshot.Evaluations | camserver/snapshot_endpoint.go:114-115 | each size evaluated, in order |
| CamserverSnapshot.FirstMinIndex | camserver/snapshot_endpoint.go:110-123 | the unique position holding a least value with a strictly greater value at every earlier position |
| CamserverSnapshot.FindFrameSize | camserver/snapshot_endpoint.go:110-123 | the strict-`<` scan from MaxUint32 and index 0 returns the first size of least evaluation |
| CamserverSnapshot.NearestByWidth | camserver/snapshot_endpoint.go:98-123 | the chosen size is in the list, no size has a smaller width distance, and on a tie the earliest size wins: any size as close comes at or after it |
| CamserverSnapshot.NearestByHeight | camserver/snapshot_endpoint.go:104-123 | the chosen size is in the list, no size has a smaller height distance, and on a tie the earliest size wins: any size as close comes at or after it |
| CamserverSnapshot.FindNearestFrameSizeByWidth | camserver/snapshot_endpoint.go:98-102 | findFrameSize with the width distance returns NearestByWidth |
| CamserverSnapshot.FindNearestFrameSizeByHeight | camserver/snapshot_endpoint.go:104-108 | findFrameSize with the height distance returns NearestByHeight |
| CamserverSnapshot.HeightWrapsAround | camserver/snapshot_endpoint.go:104-108 | heights 240, 480 and 960 asked for at 500 give 960, because the smaller heights wrap around |
| CamserverSnapshot.WidthExample | camserver/snapshot_endpoint.go:98-102 | widths 320, 640 and 1280 asked for at 1200 give 1280 |
| CamserverSnapshot.ResolveFrameSize | camserver/snapshot_endpoint.go:125-170 | no parameters give 640x480; an enumeration or parse error is returned unchanged; a parsed width gives exactly NearestByWidth of it and a height alone exactly NearestByHeight, so the size is in the list, nearest, and the first on a tie; the number is taken modulo 2^32 |
| CamserverSnapshot.DefaultNeedsNoEnumeration | camserver/snapshot_endpoint.go:133-138 | without parameters the result does not depend on the device's frame sizes |
| CamserverSnapshot.WidthTakesPrecedence | camserver/snapshot_endpoint.go:157-166 | with a width given, the height parameter plays no part |
| CamserverSnapshot.NegativeWidthWraps | camserver/snapshot_endpoint.go:159-165 | width "-1" asks for the width nearest 0xFFFFFFFF |
| CamserverSnapshot.ResolveOutputFormat | camserver/snapshot_endpoint.go:176-198 | absent gives json, "json" and "raw" give themselves, anything else ("", false) |
| CamserverSnapshot.ResolveContentType | camserver/snapshot_endpoint.go:225-237 | json maps to application/json and raw to image/jpeg |
| CamserverSnapshot.FormatPayload | camserver/snapshot_endpoint.go:200-223 | json carries the snapshot data; raw is the data unchanged |
| CamserverSnapshot.JsonReportsFixedSize | camserver/snapshot_endpoint.go:201-205 | the JSON document always says 640x480, whatever size was captured |
| CamserverSnapshot.AcceptedFormatsAreServable | camserver/snapshot_endpoint.go:176-237 | every accepted format has a content type and a payload, and they agree |
| CamserverParams.IndexOf | camserver/params/parameters.go:23 | `strings.Index` gives the first position of the character |
| CamserverParams.SplitEntryRoundTrip | camserver/params/parameters.go:21-28 | the name holds no '=', and name + "=" + path is the argument again |
| CamserverParams.SplitEntryOfJoin | camserver/params/parameters.go:21-28 | joining a name without '=' to any path and splitting it gives both back |
| CamserverParams.VideofilesParser.Set | camserver/params/parameters.go:21-31 | appends exactly the split entry after the earlier ones and returns nil |
| CamserverParams.FirstNamed | camserver/params/parameters.go:46-55 | the position of the first file with the name, no earlier one having it |
| CamserverParams.GetVideoFile | camserver/params/parameters.go:46-55 | true exactly when some file has the name, returning the first such; otherwise the zero VideoFile |
| CamserverParams.ParseParams | camserver/params/parameters.go:60-75 | fails with "No video device entered" exactly when no device is given; otherwise the files and the port, 8989 by default |
| CamserverParams.DefaultPort | camserver/params/parameters.go:66 | without --port the server listens on 8989 |
| CamserverAll.TrimLeft | camserver/all_endpoint.go:94-96 | the leading NULs are removed, and nothing else |
| CamserverAll.TrimRight | camserver/all_endpoint.go:94-96 | the trailing NULs are removed, and nothing else |
| CamserverAll.Trim | camserver/all_endpoint.go:94-96 | the result has no NUL at either end |
| CamserverAll.TrimIsInfix | camserver/all_endpoint.go:94-96 | the input is NULs, the result, then NULs: the result is a contiguous middle part |
| CamserverAll.TrimKeepsUnpadded | camserver/all_endpoint.go:94-96 | a string with no NUL at either end is returned unchanged |
| CamserverAll.TrimIdempotent | camserver/all_endpoint.go:94-96 | trimming twice is trimming once |
| CamserverAll.TrimAllNul | camserver/all_endpoint.go:94-96 | a string of NULs only becomes empty |
| CamserverAll.TrimKeepsInteriorNul | camserver/all_endpoint.go:94-96 | a NUL between non-NUL characters survives |
| CamserverAll.Text | camserver/all_endpoint.go:81-83 | a NUL-padded byte array read as a string, one character per byte |
| CamserverAll.ReadCameraInfo | camserver/all_endpoint.go:57-92 | name and file always come from the config entry; an open error gives driver "cannot load: <err>" and empty fields; otherwise driver, card and bus info are exactly the capability fields read as text and NUL-trimmed (so no NUL at either end), and the version is the capability version |

## Left out

- The system calls themselves are not executed. `os.Open`, `ioctl`, `mmap` and `munmap`, and the wrappers
  `ioctl.RequestBuffer`, `QueryBuffer`, `QueueBuffer`, `DequeueBuffer`, `ActivateStreaming`
  and `DeactivateStreaming`, are not part of this model. The scripted `Driver` answers for them:
  each request kind always gets the same answer, the same for every call. Only the zero-length
  check of `syscall.Mmap` is written out (`Kernel.MmapResult`).
- Kernel.File.DequeueBuffer: what the frame bytes are is a parameter (`Driver.frame`). The
  driver is assumed to fill the mapped buffer from its start, with zero past the frame.
- `unsafe.Sizeof` of V4l2Fmtdesc, V4l2Frmsizeenum and V4l2Format: those structs are not part of this model,
  so their sizes are parameters of the request-code functions.
- HTTP routing, request parsing and the handlers (snapshotHandler, logAndWriteResponse, the
  camera endpoint, server.go) are not modelled. Query parameters are modelled as their first values, if present.
- CamserverSnapshot.FormatPayload: base64 and JSON encoding are not modelled. The JSON payload
  keeps the raw bytes, and the marshalling-failure panic is left out.
- CamserverSnapshot.ResolveFrameSize: the frame-size enumeration (`AllDiscreteMJPEG`) is not part of this
  model and is an argument. The case where it returns an empty list makes the Go code panic,
  so that case is excluded by the precondition.
- `processCameraInfo` and `allCamerasHandler` are not modelled (goroutines, WaitGroup, channel).
  `takeSnapshotChan` (channel and `log.Fatalf`) and webcamapp are not modelled either.
- CamserverAll.ReadCameraInfo: the open error arrives as the text `%v` renders it. The deferred
  `Close` and the debug `Printf` are not modelled.
- The debug write of the frame to a fixed file in still_camera.go (lines 94-96) is not
  modelled. Its errors are ignored.
- Logging everywhere, and `fmt.Sprintf` of the error messages. Errors are datatype
  values that carry the same parameters.
- CamserverParams.VideofilesParser.Set: an argument without '=' makes the Go code panic (slicing at index -1),
  so the model requires one.
- WebcamApi.Device.Name: `Name()` of the device is defined in no file of this model
  (webcam/api.go:31 and 35 only call it). It is taken to be the path passed to open,
  as in the message of webcam/device.go:18.
- CamserverAll.Text: the capability's `Driver`, `Card` and `BusInfo` accessors are not part of this model;
  they are taken to render the byte array one character per byte, NULs included, before the trim.
- `flag` parsing in ParseParams is not modelled. The model keeps the empty-device test and the
  default port. `videofiles_parser.String` is not modelled.
- WebcamFormats.SupportedFormats.Supports: the Go loop can run forever (when the first answer is a
  different format). The model bounds it by a query budget, and `OutOfFuel` stands for that endless loop.
- webcam/device.go is an older draft of OpenVideoDevice. Only its `&` test for HasCapability
  is modelled (`V4l2.HasCapability`).
- WebcamStillCamera.StillCamera.TakeSnapshot: the two halves of the Go function are two methods.
  Stream is the part from stream-on to stream-off. The zero fill of `dataCopy` before the copy is not stated.
- WebcamCamera.Camera.TakeSnapshotAsync: the handler is the copying closure of takeSnapshot
  (`CopyHandler`), not an arbitrary function. The order of the handler call is recorded as a
  `Deliver` entry in the trace.
- The `buffer` descriptor passed by pointer to queue and dequeue is modelled as the value
  `BUFFER_ZERO`. What the driver writes back into it is not used by the code and is not modelled.
