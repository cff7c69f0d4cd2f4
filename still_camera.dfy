/** webcam/still_camera.go: the same one-frame capture, copying the mapped buffer into a
    slice allocated right after the mapping. */
module WebcamStillCamera {
  import opened Base
  import opened V4l2
  import opened Ioctl
  import opened Kernel
  import opened WebcamApi
  import WebcamCamera

  /** still_camera.go's snapshot: a frame size, the frame bytes and their count. */
  class Snapshot {
    const framesize: DiscreteFrameSize
    const data: array<Byte>
    const length: Uint32

    constructor (framesize: DiscreteFrameSize, data: array<Byte>, length: Uint32)
      ensures this.framesize == framesize && this.data == data && this.length == length
    {
      this.framesize := framesize;
      this.data := data;
      this.length := length;
    }
  }

  /** The requests TakeSnapshot makes, in order, with the error the driver answers to
      each one the code checks. */
  function StillPlan(d: Driver, frameSize: DiscreteFrameSize): seq<Action> {
    var q := Queried(d);
    [ Checked(SetFormat(FrameFormat(frameSize, V4L2_PIX_FMT_MJPEG)), Ioctl.SetFrameSize(Syscall(d.setFormatAx))),
      Checked(RequestBufs(MMAP_REQUEST), d.requestBufs),
      Ignored(QueryBuf(BUFFER_ZERO)),
      Checked(MapBuffer(q.offset, q.length, PROT_READ | PROT_WRITE, MAP_SHARED), MmapResult(d, q.length)),
      Checked(StreamOn(V4L2_BUF_TYPE_VIDEO_CAPTURE), d.streamOn),
      Checked(QueueBuf(BUFFER_ZERO), d.queueBuf),
      Checked(DequeueBuf(BUFFER_ZERO), d.dequeueBuf),
      Checked(UnmapBuffer(q.length), d.munmap),
      Checked(StreamOff(V4L2_BUF_TYPE_VIDEO_CAPTURE), d.streamOff) ]
  }

  /** The requests TakeSnapshot makes and the error it returns, case by case. */
  function StillRun(d: Driver, frameSize: DiscreteFrameSize): Run {
    var q := Queried(d);
    var formatErr := Ioctl.SetFrameSize(Syscall(d.setFormatAx));
    var t1 := [SetFormat(FrameFormat(frameSize, V4L2_PIX_FMT_MJPEG))];
    var t2 := t1 + [RequestBufs(MMAP_REQUEST)];
    var t3 := t2 + [QueryBuf(BUFFER_ZERO)];
    var t4 := t3 + [MapBuffer(q.offset, q.length, PROT_READ | PROT_WRITE, MAP_SHARED)];
    var t5 := t4 + [StreamOn(V4L2_BUF_TYPE_VIDEO_CAPTURE)];
    var t6 := t5 + [QueueBuf(BUFFER_ZERO)];
    var t7 := t6 + [DequeueBuf(BUFFER_ZERO)];
    var t8 := t7 + [UnmapBuffer(q.length)];
    var t9 := t8 + [StreamOff(V4L2_BUF_TYPE_VIDEO_CAPTURE)];
    if formatErr.Some? then Run(t1, formatErr)
    else if d.requestBufs.Some? then Run(t2, d.requestBufs)
    else if MmapResult(d, q.length).Some? then Run(t4, MmapResult(d, q.length))
    else if d.streamOn.Some? then Run(t5, d.streamOn)
    else if d.queueBuf.Some? then Run(t6, d.queueBuf)
    else if d.dequeueBuf.Some? then Run(t7, d.dequeueBuf)
    else if d.munmap.Some? then Run(t8, d.munmap)
    else Run(t9, d.streamOff)
  }

  /** The requests TakeSnapshot makes once the buffer is mapped, and the error it returns. */
  function StreamRun(d: Driver, length: Uint32): Run {
    var s1 := [StreamOn(V4L2_BUF_TYPE_VIDEO_CAPTURE)];
    var s2 := s1 + [QueueBuf(BUFFER_ZERO)];
    var s3 := s2 + [DequeueBuf(BUFFER_ZERO)];
    var s4 := s3 + [UnmapBuffer(length)];
    var s5 := s4 + [StreamOff(V4L2_BUF_TYPE_VIDEO_CAPTURE)];
    if d.streamOn.Some? then Run(s1, d.streamOn)
    else if d.queueBuf.Some? then Run(s2, d.queueBuf)
    else if d.dequeueBuf.Some? then Run(s3, d.dequeueBuf)
    else if d.munmap.Some? then Run(s4, d.munmap)
    else Run(s5, d.streamOff)
  }

  /** Once the mapping succeeds, StillRun goes on as StreamRun after the four set-up requests. */
  lemma StillRunStreams(d: Driver, frameSize: DiscreteFrameSize)
    requires MapsBuffer(d)
    ensures var q := Queried(d);
      var setup := [SetFormat(FrameFormat(frameSize, V4L2_PIX_FMT_MJPEG))] + [RequestBufs(MMAP_REQUEST)]
        + [QueryBuf(BUFFER_ZERO)] + [MapBuffer(q.offset, q.length, PROT_READ | PROT_WRITE, MAP_SHARED)];
      StillRun(d, frameSize) == Run(setup + StreamRun(d, q.length).trace, StreamRun(d, q.length).err)
  {
  }

  /** The case analysis agrees with the generic reading of the plan. */
  lemma StillRunFollowsPlan(d: Driver, frameSize: DiscreteFrameSize)
    ensures StillRun(d, frameSize) == Execute(StillPlan(d, frameSize))
  {
    var plan := StillPlan(d, frameSize);
    Advance(plan, 0, []);
    assert [] + [plan[0].step] == [plan[0].step];
    var done := [plan[0].step];
    if !Fails(plan[0]) {
      Advance(plan, 1, done);
      done := done + [plan[1].step];
      if !Fails(plan[1]) {
        Advance(plan, 2, done);
        done := done + [plan[2].step];
        Advance(plan, 3, done);
        done := done + [plan[3].step];
        if !Fails(plan[3]) {
          Advance(plan, 4, done);
          done := done + [plan[4].step];
          if !Fails(plan[4]) {
            Advance(plan, 5, done);
            done := done + [plan[5].step];
            if !Fails(plan[5]) {
              Advance(plan, 6, done);
              done := done + [plan[6].step];
              if !Fails(plan[6]) {
                Advance(plan, 7, done);
                done := done + [plan[7].step];
                if !Fails(plan[7]) {
                  Advance(plan, 8, done);
                  done := done + [plan[8].step];
                  assert ExecuteFrom(plan, 9, done) == Run(done, None);
                }
              }
            }
          }
        }
      }
    }
  }

  /** TakeSnapshot makes the requests of takeSnapshotAsync in the same order, without
      the handler. */
  lemma SameOrderAsCamera(d: Driver, frameSize: DiscreteFrameSize)
    ensures var capture := Steps(WebcamCamera.CapturePlan(d, frameSize));
      Steps(StillPlan(d, frameSize)) == capture[..7] + capture[8..]
  {
    var capture := Steps(WebcamCamera.CapturePlan(d, frameSize));
    var still := Steps(StillPlan(d, frameSize));
    assert |still| == |capture[..7] + capture[8..]| == 9;
    forall i | 0 <= i < 9
      ensures still[i] == (capture[..7] + capture[8..])[i]
    {
      if i >= 7 {
        assert (capture[..7] + capture[8..])[i] == capture[i + 1];
      }
    }
  }

  /** Requests stop at the first checked failure; nil is returned exactly when every
      checked request succeeds, teardown included. */
  lemma StillOrder(d: Driver, frameSize: DiscreteFrameSize)
    ensures var r := StillRun(d, frameSize);
      |r.trace| <= 9 && r.trace == Steps(StillPlan(d, frameSize))[..|r.trace|]
    ensures StillRun(d, frameSize).err.None? <==>
      WebcamCamera.Dequeues(d) && d.munmap.None? && d.streamOff.None?
  {
    var plan := StillPlan(d, frameSize);
    StillRunFollowsPlan(d, frameSize);
    ExecuteShape(plan);
  }

  /** Nothing acquired before a failure is released: the buffer is unmapped only after
      a successful dequeue, streaming switched off only after a successful unmap. */
  lemma StillTeardown(d: Driver, frameSize: DiscreteFrameSize)
    ensures UnmapBuffer(Queried(d).length) in StillRun(d, frameSize).trace <==> WebcamCamera.Dequeues(d)
    ensures StreamOff(V4L2_BUF_TYPE_VIDEO_CAPTURE) in StillRun(d, frameSize).trace <==>
      WebcamCamera.Dequeues(d) && d.munmap.None?
  {
  }

  /** A full copy of the mapped buffer after a dequeue holds the frame as CopyInto does. */
  lemma CopiedFrame(copied: seq<Byte>, mapped: seq<Byte>, frame: seq<Byte>, length: nat)
    requires |copied| == |mapped| == length
    requires mapped == CopyInto(frame, length)
    requires copied[..length] == mapped[..length]
    ensures copied == CopyInto(frame, length)
  {
    assert copied == copied[..length];
    assert mapped == mapped[..length];
  }

  class StillCamera {
    const file: File

    constructor (file: File)
      ensures this.file == file
    {
      this.file := file;
    }

    method SetFrameSize(frameSize: DiscreteFrameSize, pixelFormat: bv32) returns (err: Option<Error>)
      modifies file`trace
      ensures file.trace == old(file.trace) + [SetFormat(FrameFormat(frameSize, pixelFormat))]
      ensures err == Ioctl.SetFrameSize(Syscall(file.driver.setFormatAx))
    {
      var res := file.SetFormatIoctl(FrameFormat(frameSize, pixelFormat));
      err := Ioctl.SetFrameSize(res);
    }

    method RequestMmapBuffer() returns (err: Option<Error>)
      modifies file`trace
      ensures file.trace == old(file.trace) + [RequestBufs(MMAP_REQUEST)]
      ensures err == file.driver.requestBufs
    {
      err := file.RequestBuffer(MMAP_REQUEST);
    }

    /** queryMmapBuffer drops the result of the query and never fails. */
    method QueryMmapBuffer() returns (offset: Uint32, length: Uint32, err: Option<Error>)
      modifies file`trace
      ensures file.trace == old(file.trace) + [QueryBuf(BUFFER_ZERO)]
      ensures offset == Queried(file.driver).offset && length == Queried(file.driver).length
      ensures err.None?
    {
      var info, _ := file.QueryBuffer(BUFFER_ZERO);
      return info.offset, info.length, None;
    }

    method MapBuffer(offset: Uint32, length: Uint32) returns (data: array<Byte>, err: Option<Error>)
      modifies file`trace, file`mapping
      ensures file.trace == old(file.trace) + [Step.MapBuffer(offset, length, PROT_READ | PROT_WRITE, MAP_SHARED)]
      ensures err == MmapResult(file.driver, length) && fresh(data)
      ensures err.None? ==> data.Length == length && file.mapping == data
      ensures err.Some? ==> file.mapping == old(file.mapping)
    {
      data, err := file.Mmap(offset, length, PROT_READ | PROT_WRITE, MAP_SHARED);
    }

    method MunmapBuffer(data: array<Byte>) returns (err: Option<Error>)
      modifies file`trace, file`mapping
      ensures file.trace == old(file.trace) + [UnmapBuffer(data.Length)]
      ensures err == file.driver.munmap
      ensures file.mapping == if err.None? then null else old(file.mapping)
    {
      err := file.Munmap(data);
    }

    method ActivateStreaming() returns (err: Option<Error>)
      modifies file`trace
      ensures file.trace == old(file.trace) + [StreamOn(V4L2_BUF_TYPE_VIDEO_CAPTURE)]
      ensures err == file.driver.streamOn
    {
      err := file.StreamOnIoctl(V4L2_BUF_TYPE_VIDEO_CAPTURE);
    }

    method DeactivateStreaming() returns (err: Option<Error>)
      modifies file`trace
      ensures file.trace == old(file.trace) + [StreamOff(V4L2_BUF_TYPE_VIDEO_CAPTURE)]
      ensures err == file.driver.streamOff
    {
      err := file.StreamOffIoctl(V4L2_BUF_TYPE_VIDEO_CAPTURE);
    }

    method QueueBuffer(buffer: BufferRef) returns (err: Option<Error>)
      modifies file`trace
      ensures file.trace == old(file.trace) + [QueueBuf(buffer)]
      ensures err == file.driver.queueBuf
    {
      err := file.QueueBuffer(buffer);
    }

    /** dequeueBuffer: on success the mapped buffer holds the frame, zero-padded. */
    method DequeueBuffer(buffer: BufferRef) returns (err: Option<Error>)
      requires file.mapping != null
      modifies file`trace, file.mapping
      ensures file.trace == old(file.trace) + [DequeueBuf(buffer)]
      ensures err == file.driver.dequeueBuf
      ensures file.mapping[..] == if err.None? then CopyInto(file.driver.frame, file.mapping.Length) else old(file.mapping[..])
    {
      err := file.DequeueBuffer(buffer);
    }

    /** The second half of TakeSnapshot: stream one frame into the mapped buffer, copy
        it out, then release the mapping and stop streaming, returning at the first error. */
    method Stream(data: array<Byte>, dataCopy: array<Byte>, length: Uint32) returns (err: Option<Error>)
      requires file.mapping == data && data.Length == length && dataCopy.Length == length && data != dataCopy
      modifies file`trace, file`mapping, data, dataCopy
      ensures file.trace == old(file.trace) + StreamRun(file.driver, length).trace
      ensures err == StreamRun(file.driver, length).err
      ensures err.None? ==> dataCopy[..] == CopyInto(file.driver.frame, length)
      ensures file.mapping ==
        if file.driver.streamOn.None? && file.driver.queueBuf.None? && file.driver.dequeueBuf.None?
           && file.driver.munmap.None?
        then null else data
    {
      ghost var d := file.driver;
      ghost var t0 := file.trace;

      err := ActivateStreaming();
      ghost var issued := [StreamOn(V4L2_BUF_TYPE_VIDEO_CAPTURE)];
      if err.Some? {
        return err;
      }
      var buffer := BUFFER_ZERO;
      err := QueueBuffer(buffer);
      AppendStep(t0, issued, QueueBuf(BUFFER_ZERO));
      issued := issued + [QueueBuf(BUFFER_ZERO)];
      if err.Some? {
        return err;
      }
      err := DequeueBuffer(buffer);
      AppendStep(t0, issued, DequeueBuf(BUFFER_ZERO));
      issued := issued + [DequeueBuf(BUFFER_ZERO)];
      if err.Some? {
        return err;
      }
      var n := Copy(dataCopy, data);
      CopiedFrame(dataCopy[..], data[..], d.frame, n);
      err := MunmapBuffer(data);
      AppendStep(t0, issued, UnmapBuffer(length));
      issued := issued + [UnmapBuffer(length)];
      if err.Some? {
        return err;
      }
      err := DeactivateStreaming();
      AppendStep(t0, issued, StreamOff(V4L2_BUF_TYPE_VIDEO_CAPTURE));
      issued := issued + [StreamOff(V4L2_BUF_TYPE_VIDEO_CAPTURE)];
    }

    /** TakeSnapshot: the requests of StillRun, returning (nil, err) at the first checked
        error; on success the snapshot holds the copy of the mapped buffer taken after
        the dequeue, the queried length and the requested frame size. */
    method TakeSnapshot(frameSize: DiscreteFrameSize) returns (sn: Snapshot?, err: Option<Error>)
      modifies file`trace, file`mapping
      ensures file.trace == old(file.trace) + StillRun(file.driver, frameSize).trace
      ensures err == StillRun(file.driver, frameSize).err
      ensures err.Some? ==> sn == null
      ensures err.None? ==>
        sn != null && fresh(sn) && fresh(sn.data) && sn.framesize == frameSize
        && sn.length == Queried(file.driver).length
        && sn.data[..] == CopyInto(file.driver.frame, sn.length)
      ensures !MapsBuffer(file.driver) ==> file.mapping == old(file.mapping)
      ensures MapsBuffer(file.driver) && !(WebcamCamera.Dequeues(file.driver) && file.driver.munmap.None?) ==>
        file.mapping != null && fresh(file.mapping) && file.mapping.Length == Queried(file.driver).length
      ensures WebcamCamera.Dequeues(file.driver) && file.driver.munmap.None? ==> file.mapping == null
    {
      ghost var d := file.driver;
      ghost var t0 := file.trace;

      err := SetFrameSize(frameSize, V4L2_PIX_FMT_MJPEG);
      ghost var issued := [SetFormat(FrameFormat(frameSize, V4L2_PIX_FMT_MJPEG))];
      if err.Some? {
        return null, err;
      }
      err := RequestMmapBuffer();
      AppendStep(t0, issued, RequestBufs(MMAP_REQUEST));
      issued := issued + [RequestBufs(MMAP_REQUEST)];
      if err.Some? {
        return null, err;
      }
      var offset, length, qerr := QueryMmapBuffer();
      AppendStep(t0, issued, QueryBuf(BUFFER_ZERO));
      issued := issued + [QueryBuf(BUFFER_ZERO)];
      if qerr.Some? {
        return null, qerr;
      }
      var data;
      data, err := MapBuffer(offset, length);
      AppendStep(t0, issued, Step.MapBuffer(offset, length, PROT_READ | PROT_WRITE, MAP_SHARED));
      issued := issued + [Step.MapBuffer(offset, length, PROT_READ | PROT_WRITE, MAP_SHARED)];
      if err.Some? {
        return null, err;
      }
      var dataCopy := new Byte[length];
      err := Stream(data, dataCopy, length);
      StillRunStreams(d, frameSize);
      if err.Some? {
        return null, err;
      }
      sn := new Snapshot(frameSize, dataCopy, length);
    }
  }
}
