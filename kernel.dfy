/** A stand-in for the kernel side of an opened V4L2 device. The real system calls
    (open, ioctl, mmap, munmap) are not part of this model: a `Driver` value scripts
    what the device answers to each kind of request, and a `File` records every
    request made on it, in order, in a ghost trace.

    The capture code issues a fixed sequence of requests and stops at the first one
    whose error it checks and finds set. `Execute` states that discipline once, for
    any such sequence (a plan), and the capture variants are proved against it. */
module Kernel {
  import opened Base
  import opened V4l2
  import opened Ioctl

  // ---------------------------------------------------------------------------
  // Constants of the syscall package (Linux values)
  // ---------------------------------------------------------------------------

  const PROT_READ: bv32 := 0x1
  const PROT_WRITE: bv32 := 0x2
  const MAP_SHARED: bv32 := 0x1

  const ENOENT: bv64 := 2
  const EINVAL: bv64 := 22

  // ---------------------------------------------------------------------------
  // Request arguments
  // ---------------------------------------------------------------------------

  /** struct v4l2_pix_format, as far as the capture code fills it. */
  datatype PixFormat = PixFormat(width: Uint32, height: Uint32, pixelformat: bv32, field: Uint32)

  /** struct v4l2_requestbuffers */
  datatype RequestBuffers = RequestBuffers(count: Uint32, typ: Uint32, memory: Uint32)

  /** The identifying fields of a struct v4l2_buffer. */
  datatype BufferRef = BufferRef(index: Uint32, typ: Uint32, memory: Uint32)

  /** What VIDIOC_QUERYBUF reports about an mmap buffer: m.offset and length. */
  datatype BufferInfo = BufferInfo(offset: Uint32, length: Uint32)

  /** One request made on an opened device, or (Deliver) the moment the capture code
      hands a captured frame to its handler. */
  datatype Step =
    | QueryCap                                      // VIDIOC_QUERYCAP
    | EnumFormat(index: Uint32, typ: Uint32)        // VIDIOC_ENUM_FMT
    | SetFormat(format: PixFormat)                  // VIDIOC_S_FMT
    | RequestBufs(request: RequestBuffers)          // VIDIOC_REQBUFS
    | QueryBuf(buffer: BufferRef)                   // VIDIOC_QUERYBUF
    | MapBuffer(offset: Uint32, length: Uint32, prot: bv32, flags: bv32)   // syscall.Mmap
    | StreamOn(typ: Uint32)                         // VIDIOC_STREAMON
    | QueueBuf(buffer: BufferRef)                   // VIDIOC_QBUF
    | DequeueBuf(buffer: BufferRef)                 // VIDIOC_DQBUF
    | Deliver
    | UnmapBuffer(size: nat)                         // syscall.Munmap
    | StreamOff(typ: Uint32)                        // VIDIOC_STREAMOFF
    | Close                                         // (*os.File).Close

  /** What the driver answers to VIDIOC_ENUM_FMT for one index: the raw return value
      of the system call and the pixel format it writes into the descriptor. */
  datatype FmtAnswer = FmtAnswer(ax: bv64, pixelformat: bv32)

  /** What syscall.Mmap answers for a mapping of `length` bytes: a zero length is
      refused with EINVAL before the kernel is asked, any other the driver decides. */
  function MmapResult(d: Driver, length: Uint32): (r: Option<Error>)
    ensures length == 0 ==> r == Some(Errno(EINVAL))
    ensures length > 0 ==> r == d.mmap
  {
    if length == 0 then Some(Errno(EINVAL)) else d.mmap
  }

  /** The scripted device. The ioctls whose result the core classifies itself answer
      with the raw return value of the system call; the calls made through wrappers
      that are not part of this model answer with the error those wrappers return. */
  datatype Driver = Driver(
    capability: V4l2Capability,
    queryCapAx: bv64,
    formats: seq<FmtAnswer>,
    setFormatAx: bv64,
    requestBufs: Option<Error>,
    queryBuf: Result<BufferInfo, Error>,
    mmap: Option<Error>,
    streamOn: Option<Error>,
    queueBuf: Option<Error>,
    dequeueBuf: Option<Error>,
    munmap: Option<Error>,
    streamOff: Option<Error>,
    frame: seq<Byte>)   // the bytes a dequeued buffer holds

  /** The answer to VIDIOC_ENUM_FMT at an index: past the last format the kernel fails with EINVAL. */
  function EnumAnswer(d: Driver, index: Uint32): (a: FmtAnswer)
    ensures index >= |d.formats| ==> Syscall(a.ax) == SyscallResult(ALL_ONES, EINVAL)
  {
    if index < |d.formats| then d.formats[index] else FmtAnswer(0 - EINVAL, 0)
  }

  /** The offset and length the capture code reads back after VIDIOC_QUERYBUF. Its
      result is ignored, so on failure the zero-valued buffer gives 0 and 0. */
  function Queried(d: Driver): (b: BufferInfo)
    ensures d.queryBuf.Failure? ==> b == BufferInfo(0, 0)
  {
    if d.queryBuf.Success? then d.queryBuf.value else BufferInfo(0, 0)
  }

  /** A zeroed buffer of `length` bytes after copy(buffer, src): the first
      min(length, |src|) bytes of src, then zeros. This is what a freshly mapped
      buffer holds once a frame is dequeued into it, and what copying a buffer into
      a fresh slice yields. */
  function CopyInto(src: seq<Byte>, length: nat): (b: seq<Byte>)
    ensures |b| == length
    ensures forall i :: 0 <= i < length ==> b[i] == if i < |src| then src[i] else 0
  {
    seq(length, i requires 0 <= i < length => if i < |src| then src[i] else 0)
  }

  /** Copying a buffer into another of the same length changes nothing. */
  lemma CopyIntoSameLength(src: seq<Byte>, length: nat)
    ensures CopyInto(CopyInto(src, length), length) == CopyInto(src, length)
    ensures |src| == length ==> CopyInto(src, length) == src
  {
  }

  // ---------------------------------------------------------------------------
  // Plans: sequences of requests with early return on a checked error
  // ---------------------------------------------------------------------------

  /** A request whose error the code checks, with the error the driver answers (it
      returns at the first one that is set), or a request whose error it drops. */
  datatype Action = Checked(step: Step, outcome: Option<Error>) | Ignored(step: Step)

  /** The requests a capture made, and the error it returned (None for nil). */
  datatype Run = Run(trace: seq<Step>, err: Option<Error>)

  /** The code returns at this action. */
  predicate Fails(a: Action) {
    a.Checked? && a.outcome.Some?
  }

  function Steps(plan: seq<Action>): (s: seq<Step>)
    ensures |s| == |plan| && forall i :: 0 <= i < |plan| ==> s[i] == plan[i].step
  {
    seq(|plan|, i requires 0 <= i < |plan| => plan[i].step)
  }

  /** Running the plan from position k, after the requests in `done`. */
  function ExecuteFrom(plan: seq<Action>, k: nat, done: seq<Step>): Run
    requires k <= |plan|
    decreases |plan| - k
  {
    if k == |plan| then Run(done, None)
    else if Fails(plan[k]) then Run(done + [plan[k].step], plan[k].outcome)
    else ExecuteFrom(plan, k + 1, done + [plan[k].step])
  }

  /** Running the whole plan. */
  function Execute(plan: seq<Action>): Run {
    ExecuteFrom(plan, 0, [])
  }

  /** One step of a run: the action at k either ends it or hands on to k + 1. */
  lemma Advance(plan: seq<Action>, k: nat, done: seq<Step>)
    requires k < |plan|
    ensures ExecuteFrom(plan, k, done) ==
      if Fails(plan[k]) then Run(done + [plan[k].step], plan[k].outcome)
      else ExecuteFrom(plan, k + 1, done + [plan[k].step])
  {
  }

  /** Appending a request to a trace that extends `before`. */
  lemma AppendStep(before: seq<Step>, issued: seq<Step>, x: Step)
    ensures before + issued + [x] == before + (issued + [x])
  {
  }

  /** The position of the first action from k on at which the code returns, or |plan|. */
  function FirstFailure(plan: seq<Action>, k: nat): (f: nat)
    requires k <= |plan|
    ensures k <= f <= |plan|
    ensures f < |plan| ==> Fails(plan[f])
    ensures forall i :: k <= i < f ==> !Fails(plan[i])
    decreases |plan| - k
  {
    if k == |plan| || Fails(plan[k]) then k else FirstFailure(plan, k + 1)
  }

  /** Running a plan issues every request up to and including the first failing checked
      one, in plan order, and returns that request's error; with no failing request it
      issues them all and returns nil. */
  lemma {:induction false} ExecuteFromStopsAtFirstFailure(plan: seq<Action>, k: nat, done: seq<Step>)
    requires k <= |plan|
    ensures var f := FirstFailure(plan, k);
      ExecuteFrom(plan, k, done) ==
        if f < |plan| then Run(done + Steps(plan)[k..f + 1], plan[f].outcome)
        else Run(done + Steps(plan)[k..], None)
    decreases |plan| - k
  {
    if k < |plan| {
      var f := FirstFailure(plan, k);
      if Fails(plan[k]) {
        assert Steps(plan)[k..k + 1] == [plan[k].step];
      } else {
        ExecuteFromStopsAtFirstFailure(plan, k + 1, done + [plan[k].step]);
        if f < |plan| {
          assert Steps(plan)[k..f + 1] == [plan[k].step] + Steps(plan)[k + 1..f + 1];
        } else {
          assert Steps(plan)[k..] == [plan[k].step] + Steps(plan)[k + 1..];
        }
      }
    }
  }

  lemma ExecuteStopsAtFirstFailure(plan: seq<Action>)
    ensures var f := FirstFailure(plan, 0);
      Execute(plan) ==
        if f < |plan| then Run(Steps(plan)[..f + 1], plan[f].outcome)
        else Run(Steps(plan), None)
  {
    ExecuteFromStopsAtFirstFailure(plan, 0, []);
    assert Steps(plan)[0..] == Steps(plan);
  }

  /** A run succeeds exactly when no checked request fails; when it fails, its trace
      ends at the failing request and every earlier checked request succeeded. */
  lemma ExecuteShape(plan: seq<Action>)
    ensures Execute(plan).err.None? <==> forall i :: 0 <= i < |plan| ==> !Fails(plan[i])
    ensures Execute(plan).err.None? ==> Execute(plan).trace == Steps(plan)
    ensures Execute(plan).err.Some? ==>
      var n := |Execute(plan).trace|;
      0 < n <= |plan| && Execute(plan).trace == Steps(plan)[..n]
      && Fails(plan[n - 1]) && Execute(plan).err == plan[n - 1].outcome
      && forall i :: 0 <= i < n - 1 ==> !Fails(plan[i])
  {
    ExecuteStopsAtFirstFailure(plan);
  }

  /** A request appears in the trace exactly when the plan holds it at or before the
      first failing position. */
  lemma StepInTrace(plan: seq<Action>, x: Step)
    ensures x in Execute(plan).trace <==>
      exists i :: 0 <= i < |plan| && i <= FirstFailure(plan, 0) && plan[i].step == x
  {
    ExecuteStopsAtFirstFailure(plan);
    var f := FirstFailure(plan, 0);
    var t := Execute(plan).trace;
    assert |t| == if f < |plan| then f + 1 else |plan|;
    assert forall i :: 0 <= i < |t| ==> t[i] == plan[i].step;
  }

  // ---------------------------------------------------------------------------
  // The opened device
  // ---------------------------------------------------------------------------

  /** struct v4l2_fmtdesc, which VIDIOC_ENUM_FMT reads (index, type) and fills (pixelformat). */
  class Fmtdesc {
    var index: Uint32
    var typ: Uint32
    var pixelformat: bv32

    constructor ()
      ensures index == 0 && typ == 0 && pixelformat == 0
    {
      index := 0;
      typ := 0;
      pixelformat := 0;
    }
  }

  /** An *os.File opened on a video device. */
  class File {
    const name: string
    const driver: Driver
    ghost var trace: seq<Step>
    /** The buffer currently mapped with mmap, if any. */
    var mapping: array?<Byte>

    constructor (name: string, driver: Driver)
      ensures this.name == name && this.driver == driver && trace == [] && mapping == null
    {
      this.name := name;
      this.driver := driver;
      trace := [];
      mapping := null;
    }

    /** The VIDIOC_QUERYCAP system call: the structure it fills and the raw result. */
    method QueryCapIoctl() returns (capability: V4l2Capability, res: SyscallResult)
      modifies this`trace
      ensures trace == old(trace) + [QueryCap]
      ensures capability == driver.capability && res == Syscall(driver.queryCapAx)
    {
      trace := trace + [QueryCap];
      capability := driver.capability;
      res := Syscall(driver.queryCapAx);
    }

    /** The VIDIOC_ENUM_FMT system call; on success the kernel writes the pixel format. */
    method EnumFormatIoctl(desc: Fmtdesc) returns (res: SyscallResult)
      modifies this`trace, desc`pixelformat
      ensures trace == old(trace) + [EnumFormat(desc.index, desc.typ)]
      ensures res == Syscall(EnumAnswer(driver, desc.index).ax)
      ensures desc.pixelformat == if res.errno == 0 then EnumAnswer(driver, desc.index).pixelformat else old(desc.pixelformat)
    {
      trace := trace + [EnumFormat(desc.index, desc.typ)];
      var answer := EnumAnswer(driver, desc.index);
      res := Syscall(answer.ax);
      if res.errno == 0 {
        desc.pixelformat := answer.pixelformat;
      }
    }

    /** The VIDIOC_S_FMT system call. */
    method SetFormatIoctl(format: PixFormat) returns (res: SyscallResult)
      modifies this`trace
      ensures trace == old(trace) + [SetFormat(format)]
      ensures res == Syscall(driver.setFormatAx)
    {
      trace := trace + [SetFormat(format)];
      res := Syscall(driver.setFormatAx);
    }

    /** ioctl.RequestBuffer (VIDIOC_REQBUFS). */
    method RequestBuffer(request: RequestBuffers) returns (err: Option<Error>)
      modifies this`trace
      ensures trace == old(trace) + [RequestBufs(request)]
      ensures err == driver.requestBufs
    {
      trace := trace + [RequestBufs(request)];
      err := driver.requestBufs;
    }

    /** ioctl.QueryBuffer (VIDIOC_QUERYBUF): the offset and length it leaves in the buffer. */
    method QueryBuffer(buffer: BufferRef) returns (info: BufferInfo, err: Option<Error>)
      modifies this`trace
      ensures trace == old(trace) + [QueryBuf(buffer)]
      ensures info == Queried(driver) && err == (if driver.queryBuf.Failure? then Some(driver.queryBuf.error) else None)
    {
      trace := trace + [QueryBuf(buffer)];
      info := Queried(driver);
      err := if driver.queryBuf.Failure? then Some(driver.queryBuf.error) else None;
    }

    /** syscall.Mmap: on success a fresh byte slice of `length` bytes, zero until a
        frame is dequeued into it; on failure an empty slice. */
    method Mmap(offset: Uint32, length: Uint32, prot: bv32, flags: bv32) returns (data: array<Byte>, err: Option<Error>)
      modifies this`trace, this`mapping
      ensures trace == old(trace) + [MapBuffer(offset, length, prot, flags)]
      ensures err == MmapResult(driver, length)
      ensures fresh(data)
      ensures err.None? ==> data.Length == length && data[..] == CopyInto([], length) && mapping == data
      ensures err.Some? ==> data.Length == 0 && mapping == old(mapping)
    {
      trace := trace + [MapBuffer(offset, length, prot, flags)];
      err := if length == 0 then Some(Errno(EINVAL)) else driver.mmap;
      if err.None? {
        data := new Byte[length](i => 0);
        mapping := data;
      } else {
        data := new Byte[0];
      }
    }

    /** ioctl.ActivateStreaming (VIDIOC_STREAMON). */
    method StreamOnIoctl(typ: Uint32) returns (err: Option<Error>)
      modifies this`trace
      ensures trace == old(trace) + [StreamOn(typ)]
      ensures err == driver.streamOn
    {
      trace := trace + [StreamOn(typ)];
      err := driver.streamOn;
    }

    /** ioctl.DeactivateStreaming (VIDIOC_STREAMOFF). */
    method StreamOffIoctl(typ: Uint32) returns (err: Option<Error>)
      modifies this`trace
      ensures trace == old(trace) + [StreamOff(typ)]
      ensures err == driver.streamOff
    {
      trace := trace + [StreamOff(typ)];
      err := driver.streamOff;
    }

    /** ioctl.QueueBuffer (VIDIOC_QBUF). */
    method QueueBuffer(buffer: BufferRef) returns (err: Option<Error>)
      modifies this`trace
      ensures trace == old(trace) + [QueueBuf(buffer)]
      ensures err == driver.queueBuf
    {
      trace := trace + [QueueBuf(buffer)];
      err := driver.queueBuf;
    }

    /** ioctl.DequeueBuffer (VIDIOC_DQBUF): on success the driver has filled the mapped
        buffer with the frame, the bytes past the frame reading as zero. */
    method DequeueBuffer(buffer: BufferRef) returns (err: Option<Error>)
      requires mapping != null
      modifies this`trace, mapping
      ensures trace == old(trace) + [DequeueBuf(buffer)]
      ensures err == driver.dequeueBuf
      ensures mapping[..] == if err.None? then CopyInto(driver.frame, mapping.Length) else old(mapping[..])
    {
      trace := trace + [DequeueBuf(buffer)];
      err := driver.dequeueBuf;
      if err.None? {
        var m := mapping;
        forall i | 0 <= i < m.Length {
          m[i] := if i < |driver.frame| then driver.frame[i] else 0;
        }
      }
    }

    /** syscall.Munmap of the mapped slice. */
    method Munmap(data: array<Byte>) returns (err: Option<Error>)
      modifies this`trace, this`mapping
      ensures trace == old(trace) + [UnmapBuffer(data.Length)]
      ensures err == driver.munmap
      ensures mapping == if err.None? then null else old(mapping)
    {
      trace := trace + [UnmapBuffer(data.Length)];
      err := driver.munmap;
      if err.None? {
        mapping := null;
      }
    }

    /** Closing the device file: recorded, and nothing is asked of the driver. */
    method Close()
      modifies this`trace
      ensures trace == old(trace) + [Step.Close]
    {
      trace := trace + [Step.Close];
    }
  }

  /** os.Open on a device table: a missing path fails with ENOENT, a path the table
      refuses fails with its errno, both as *os.PathError. */
  method Open(devices: map<string, Result<Driver, bv64>>, path: string) returns (file: File?, err: Option<Error>)
    ensures path !in devices ==> file == null && err == Some(PathError("open", path, ENOENT))
    ensures path in devices && devices[path].Failure? ==>
      file == null && err == Some(PathError("open", path, devices[path].error))
    ensures path in devices && devices[path].Success? ==>
      err.None? && file != null && fresh(file) && file.name == path && file.driver == devices[path].value
      && file.trace == [] && file.mapping == null
  {
    if path !in devices {
      return null, Some(PathError("open", path, ENOENT));
    }
    match devices[path]
    case Failure(e) =>
      return null, Some(PathError("open", path, e));
    case Success(d) =>
      file := new File(path, d);
      err := None;
  }
}
