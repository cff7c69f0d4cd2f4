/** webcam/camera.go: a capture of one frame that hands the frame to a handler while
    the buffer is still mapped, and takeSnapshot, whose handler copies it out. */
module WebcamCamera {
  import opened Base
  import opened V4l2
  import opened Ioctl
  import opened Kernel
  import opened WebcamApi

  /** camera.go's snapshot: a frame size, the frame bytes and their count. */
  class Snapshot {
    const framesize: DiscreteFrameSize
    const data: array<Byte>
    const length: Uint32

    constructor (framesize: DiscreteFrameSize, data: array<Byte>, length: Uint32)
      ensures this.framesize == framesize && this.data == data && this.length == length
    {
      this.framesize := framesize;
      this.data := data;
      this.length := length;
    }
  }

  /** The closure takeSnapshot passes as handler: it copies the frame out of the
      mapped buffer into a fresh slice and keeps the result in `sn`. */
  class CopyHandler {
    var sn: Snapshot?

    constructor ()
      ensures sn == null
    {
      sn := null;
    }

    method Handle(snap: Snapshot)
      modifies this
      ensures sn != null && fresh(sn) && fresh(sn.data)
      ensures sn.framesize == snap.framesize && sn.length == snap.length
      ensures sn.data[..] == CopyInto(snap.data[..], snap.length)
    {
      var dataCopy := new Byte[snap.length](i => 0);
      var n := Copy(dataCopy, snap.data);
      sn := new Snapshot(snap.framesize, dataCopy, snap.length);
    }
  }

  /** The requests takeSnapshotAsync makes, in order, with whether it checks each. */
  function CapturePlan(d: Driver, frameSize: DiscreteFrameSize): seq<Action> {
    var q := Queried(d);
    [ Checked(SetFormat(FrameFormat(frameSize, V4L2_PIX_FMT_MJPEG)), Ioctl.SetFrameSize(Syscall(d.setFormatAx))),
      Checked(RequestBufs(MMAP_REQUEST), d.requestBufs),
      Ignored(QueryBuf(BUFFER_ZERO)),
      Checked(MapBuffer(q.offset, q.length, PROT_READ | PROT_WRITE, MAP_SHARED), MmapResult(d, q.length)),
      Checked(StreamOn(V4L2_BUF_TYPE_VIDEO_CAPTURE), d.streamOn),
      Checked(QueueBuf(BUFFER_ZERO), d.queueBuf),
      Checked(DequeueBuf(BUFFER_ZERO), d.dequeueBuf),
      Ignored(Deliver),
      Checked(UnmapBuffer(q.length), d.munmap),
      Checked(StreamOff(V4L2_BUF_TYPE_VIDEO_CAPTURE), d.streamOff) ]
  }

  /** Every request up to and including the dequeue succeeds, so a frame is captured. */
  predicate Dequeues(d: Driver) {
    MapsBuffer(d) && d.streamOn.None? && d.queueBuf.None? && d.dequeueBuf.None?
  }

  /** The requests takeSnapshotAsync makes and the error it returns, case by case. */
  function CaptureRun(d: Driver, frameSize: DiscreteFrameSize): Run {
    var q := Queried(d);
    var formatErr := Ioctl.SetFrameSize(Syscall(d.setFormatAx));
    var t1 := [SetFormat(FrameFormat(frameSize, V4L2_PIX_FMT_MJPEG))];
    var t2 := t1 + [RequestBufs(MMAP_REQUEST)];
    var t3 := t2 + [QueryBuf(BUFFER_ZERO)];
    var t4 := t3 + [MapBuffer(q.offset, q.length, PROT_READ | PROT_WRITE, MAP_SHARED)];
    var t5 := t4 + [StreamOn(V4L2_BUF_TYPE_VIDEO_CAPTURE)];
    var t6 := t5 + [QueueBuf(BUFFER_ZERO)];
    var t7 := t6 + [DequeueBuf(BUFFER_ZERO)];
    var t8 := t7 + [Deliver];
    var t9 := t8 + [UnmapBuffer(q.length)];
    var t10 := t9 + [StreamOff(V4L2_BUF_TYPE_VIDEO_CAPTURE)];
    if formatErr.Some? then Run(t1, formatErr)
    else if d.requestBufs.Some? then Run(t2, d.requestBufs)
    else if MmapResult(d, q.length).Some? then Run(t4, MmapResult(d, q.length))
    else if d.streamOn.Some? then Run(t5, d.streamOn)
    else if d.queueBuf.Some? then Run(t6, d.queueBuf)
    else if d.dequeueBuf.Some? then Run(t7, d.dequeueBuf)
    else if d.munmap.Some? then Run(t9, d.munmap)
    else Run(t10, d.streamOff)
  }

  /** The case analysis agrees with the generic reading of the plan: the requests up to
      the first failing checked one, and that request's error. */
  lemma CaptureRunFollowsPlan(d: Driver, frameSize: DiscreteFrameSize)
    ensures CaptureRun(d, frameSize) == Execute(CapturePlan(d, frameSize))
  {
    var plan := CapturePlan(d, frameSize);
    Advance(plan, 0, []);
    assert [] + [plan[0].step] == [plan[0].step];
    var done := [plan[0].step];
    if !Fails(plan[0]) {
      Advance(plan, 1, done);
      done := done + [plan[1].step];
      if !Fails(plan[1]) {
        Advance(plan, 2, done);
        done := done + [plan[2].step];
        Advance(plan, 3, done);
        done := done + [plan[3].step];
        if !Fails(plan[3]) {
          Advance(plan, 4, done);
          done := done + [plan[4].step];
          if !Fails(plan[4]) {
            Advance(plan, 5, done);
            done := done + [plan[5].step];
            if !Fails(plan[5]) {
              Advance(plan, 6, done);
              done := done + [plan[6].step];
              if !Fails(plan[6]) {
                Advance(plan, 7, done);
                done := done + [plan[7].step];
                Advance(plan, 8, done);
                done := done + [plan[8].step];
                if !Fails(plan[8]) {
                  Advance(plan, 9, done);
                  done := done + [plan[9].step];
                  assert ExecuteFrom(plan, 10, done) == Run(done, None);
                }
              }
            }
          }
        }
      }
    }
  }

  /** takeSnapshotAsync issues its requests in the order of CapturePlan and stops at the
      first failing checked one; it returns nil exactly when every checked request
      succeeds, teardown included. */
  lemma CaptureOrder(d: Driver, frameSize: DiscreteFrameSize)
    ensures var r := CaptureRun(d, frameSize);
      |r.trace| <= 10 && r.trace == Steps(CapturePlan(d, frameSize))[..|r.trace|]
    ensures CaptureRun(d, frameSize).err.None? <==>
      Dequeues(d) && d.munmap.None? && d.streamOff.None?
  {
    var plan := CapturePlan(d, frameSize);
    CaptureRunFollowsPlan(d, frameSize);
    ExecuteShape(plan);
  }

  /** The handler runs after a successful dequeue, and never otherwise. */
  lemma HandlerRunsAfterDequeue(d: Driver, frameSize: DiscreteFrameSize)
    ensures Deliver in CaptureRun(d, frameSize).trace <==> Dequeues(d)
  {
  }

  /** No request is issued twice; in particular the handler runs at most once. */
  lemma RequestsIssuedOnce(d: Driver, frameSize: DiscreteFrameSize)
    ensures var t := CaptureRun(d, frameSize).trace;
      forall i, j :: 0 <= i < j < |t| ==> t[i] != t[j]
  {
    var plan := CapturePlan(d, frameSize);
    CaptureOrder(d, frameSize);
    forall i, j | 0 <= i < j < 10
      ensures plan[i].step != plan[j].step
    {
    }
  }

  /** The buffer is unmapped only after a successful dequeue, and streaming is switched
      off only after a successful unmap: an error before the dequeue leaves the buffer
      mapped and the stream on. */
  lemma TeardownOnlyAfterDequeue(d: Driver, frameSize: DiscreteFrameSize)
    ensures UnmapBuffer(Queried(d).length) in CaptureRun(d, frameSize).trace <==> Dequeues(d)
    ensures StreamOff(V4L2_BUF_TYPE_VIDEO_CAPTURE) in CaptureRun(d, frameSize).trace <==>
      Dequeues(d) && d.munmap.None?
  {
  }

  class Camera {
    const file: File

    constructor (file: File)
      ensures this.file == file
    {
      this.file := file;
    }

    method SetFrameSize(frameSize: DiscreteFrameSize, pixelFormat: bv32) returns (err: Option<Error>)
      modifies file`trace
      ensures file.trace == old(file.trace) + [SetFormat(FrameFormat(frameSize, pixelFormat))]
      ensures err == Ioctl.SetFrameSize(Syscall(file.driver.setFormatAx))
    {
      var res := file.SetFormatIoctl(FrameFormat(frameSize, pixelFormat));
      err := Ioctl.SetFrameSize(res);
    }

    method RequestMmapBuffer() returns (err: Option<Error>)
      modifies file`trace
      ensures file.trace == old(file.trace) + [RequestBufs(MMAP_REQUEST)]
      ensures err == file.driver.requestBufs
    {
      err := file.RequestBuffer(MMAP_REQUEST);
    }

    /** queryMmapBuffer drops the result of the query and never fails. */
    method QueryMmapBuffer() returns (offset: Uint32, length: Uint32, err: Option<Error>)
      modifies file`trace
      ensures file.trace == old(file.trace) + [QueryBuf(BUFFER_ZERO)]
      ensures offset == Queried(file.driver).offset && length == Queried(file.driver).length
      ensures err.None?
    {
      var info, _ := file.QueryBuffer(BUFFER_ZERO);
      return info.offset, info.length, None;
    }

    method MapBuffer(offset: Uint32, length: Uint32) returns (data: array<Byte>, err: Option<Error>)
      modifies file`trace, file`mapping
      ensures file.trace == old(file.trace) + [Step.MapBuffer(offset, length, PROT_READ | PROT_WRITE, MAP_SHARED)]
      ensures err == MmapResult(file.driver, length) && fresh(data)
      ensures err.None? ==> data.Length == length && file.mapping == data
      ensures err.Some? ==> file.mapping == old(file.mapping)
    {
      data, err := file.Mmap(offset, length, PROT_READ | PROT_WRITE, MAP_SHARED);
    }

    method MunmapBuffer(data: array<Byte>) returns (err: Option<Error>)
      modifies file`trace, file`mapping
      ensures file.trace == old(file.trace) + [UnmapBuffer(data.Length)]
      ensures err == file.driver.munmap
      ensures file.mapping == if err.None? then null else old(file.mapping)
    {
      err := file.Munmap(data);
    }

    method ActivateStreaming() returns (err: Option<Error>)
      modifies file`trace
      ensures file.trace == old(file.trace) + [StreamOn(V4L2_BUF_TYPE_VIDEO_CAPTURE)]
      ensures err == file.driver.streamOn
    {
      err := file.StreamOnIoctl(V4L2_BUF_TYPE_VIDEO_CAPTURE);
    }

    method DeactivateStreaming() returns (err: Option<Error>)
      modifies file`trace
      ensures file.trace == old(file.trace) + [StreamOff(V4L2_BUF_TYPE_VIDEO_CAPTURE)]
      ensures err == file.driver.streamOff
    {
      err := file.StreamOffIoctl(V4L2_BUF_TYPE_VIDEO_CAPTURE);
    }

    method QueueBuffer(buffer: BufferRef) returns (err: Option<Error>)
      modifies file`trace
      ensures file.trace == old(file.trace) + [QueueBuf(buffer)]
      ensures err == file.driver.queueBuf
    {
      err := file.QueueBuffer(buffer);
    }

    /** dequeueBuffer: on success the mapped buffer holds the frame, zero-padded. */
    method DequeueBuffer(buffer: BufferRef) returns (err: Option<Error>)
      requires file.mapping != null
      modifies file`trace, file.mapping
      ensures file.trace == old(file.trace) + [DequeueBuf(buffer)]
      ensures err == file.driver.dequeueBuf
      ensures file.mapping[..] == if err.None? then CopyInto(file.driver.frame, file.mapping.Length) else old(file.mapping[..])
    {
      err := file.DequeueBuffer(buffer);
    }

    /** takeSnapshotAsync: the requests of CaptureRun, returning at the first checked
        error; after a successful dequeue the handler receives the mapped buffer. */
    method TakeSnapshotAsync(frameSize: DiscreteFrameSize, handler: CopyHandler) returns (err: Option<Error>)
      modifies file, handler
      ensures file.trace == old(file.trace) + CaptureRun(file.driver, frameSize).trace
      ensures err == CaptureRun(file.driver, frameSize).err
      ensures Dequeues(file.driver) ==>
        handler.sn != null && fresh(handler.sn) && handler.sn.framesize == frameSize
        && handler.sn.length == Queried(file.driver).length
        && handler.sn.data[..] == CopyInto(file.driver.frame, Queried(file.driver).length)
      ensures !Dequeues(file.driver) ==> handler.sn == old(handler.sn)
      ensures !MapsBuffer(file.driver) ==> file.mapping == old(file.mapping)
      ensures MapsBuffer(file.driver) && !(Dequeues(file.driver) && file.driver.munmap.None?) ==>
        file.mapping != null && fresh(file.mapping) && file.mapping.Length == Queried(file.driver).length
      ensures Dequeues(file.driver) && file.driver.munmap.None? ==> file.mapping == null
    {
      ghost var d := file.driver;
      ghost var t0 := file.trace;

      err := SetFrameSize(frameSize, V4L2_PIX_FMT_MJPEG);
      ghost var issued := [SetFormat(FrameFormat(frameSize, V4L2_PIX_FMT_MJPEG))];
      if err.Some? {
        return err;
      }
      err := RequestMmapBuffer();
      AppendStep(t0, issued, RequestBufs(MMAP_REQUEST));
      issued := issued + [RequestBufs(MMAP_REQUEST)];
      if err.Some? {
        return err;
      }
      var offset, length, qerr := QueryMmapBuffer();
      AppendStep(t0, issued, QueryBuf(BUFFER_ZERO));
      issued := issued + [QueryBuf(BUFFER_ZERO)];
      if qerr.Some? {
        return qerr;
      }
      var data;
      data, err := MapBuffer(offset, length);
      AppendStep(t0, issued, Step.MapBuffer(offset, length, PROT_READ | PROT_WRITE, MAP_SHARED));
      issued := issued + [Step.MapBuffer(offset, length, PROT_READ | PROT_WRITE, MAP_SHARED)];
      if err.Some? {
        return err;
      }
      err := ActivateStreaming();
      AppendStep(t0, issued, StreamOn(V4L2_BUF_TYPE_VIDEO_CAPTURE));
      issued := issued + [StreamOn(V4L2_BUF_TYPE_VIDEO_CAPTURE)];
      if err.Some? {
        return err;
      }
      var buffer := BUFFER_ZERO;
      err := QueueBuffer(buffer);
      AppendStep(t0, issued, QueueBuf(BUFFER_ZERO));
      issued := issued + [QueueBuf(BUFFER_ZERO)];
      if err.Some? {
        return err;
      }
      err := DequeueBuffer(buffer);
      AppendStep(t0, issued, DequeueBuf(BUFFER_ZERO));
      issued := issued + [DequeueBuf(BUFFER_ZERO)];
      if err.Some? {
        return err;
      }
      var snapshot := new Snapshot(frameSize, data, length);
      file.trace := file.trace + [Deliver];
      AppendStep(t0, issued, Deliver);
      issued := issued + [Deliver];
      handler.Handle(snapshot);
      CopyIntoSameLength(d.frame, length);
      err := MunmapBuffer(data);
      AppendStep(t0, issued, UnmapBuffer(length));
      issued := issued + [UnmapBuffer(length)];
      if err.Some? {
        return err;
      }
      err := DeactivateStreaming();
      AppendStep(t0, issued, StreamOff(V4L2_BUF_TYPE_VIDEO_CAPTURE));
      issued := issued + [StreamOff(V4L2_BUF_TYPE_VIDEO_CAPTURE)];
      if err.Some? {
        return err;
      }
      return None;
    }

    /** takeSnapshot: a capture whose handler copies the mapped buffer into a fresh
        slice of the queried length. Any error, teardown included, gives no snapshot. */
    method TakeSnapshot(frameSize: DiscreteFrameSize) returns (sn: Snapshot?, err: Option<Error>)
      modifies file
      ensures file.trace == old(file.trace) + CaptureRun(file.driver, frameSize).trace
      ensures err == CaptureRun(file.driver, frameSize).err
      ensures err.Some? ==> sn == null
      ensures err.None? ==>
        sn != null && fresh(sn) && sn.framesize == frameSize
        && sn.length == Queried(file.driver).length
        && sn.data[..] == CopyInto(file.driver.frame, Queried(file.driver).length)
      ensures !MapsBuffer(file.driver) ==> file.mapping == old(file.mapping)
      ensures MapsBuffer(file.driver) && !(Dequeues(file.driver) && file.driver.munmap.None?) ==>
        file.mapping != null && fresh(file.mapping) && file.mapping.Length == Queried(file.driver).length
      ensures Dequeues(file.driver) && file.driver.munmap.None? ==> file.mapping == null
    {
      var handler := new CopyHandler();
      err := TakeSnapshotAsync(frameSize, handler);
      if err.Some? {
        return null, err;
      }
      CaptureOrder(file.driver, frameSize);
      return handler.sn, None;
    }
  }
}
