/** webcam/snapshot.go: a dry run of the capture set-up. It maps the buffer read-only,
    switches streaming on and straight off again, discarding both results, and unmaps
    the buffer; no frame is ever queued or dequeued. */
module WebcamSnapshot {
  import opened Base
  import opened V4l2
  import opened Ioctl
  import opened Kernel
  import opened WebcamApi

  /** The requests Take makes, in order, with the error the driver answers to each one
      the code checks. */
  function TakePlan(d: Driver, frameSize: DiscreteFrameSize): seq<Action> {
    var q := Queried(d);
    [ Checked(SetFormat(FrameFormat(frameSize, V4L2_PIX_FMT_MJPEG)), Ioctl.SetFrameSize(Syscall(d.setFormatAx))),
      Checked(RequestBufs(MMAP_REQUEST), d.requestBufs),
      Ignored(QueryBuf(BUFFER_ZERO)),
      Checked(MapBuffer(q.offset, q.length, PROT_READ, MAP_SHARED), MmapResult(d, q.length)),
      Ignored(StreamOn(V4L2_BUF_TYPE_VIDEO_CAPTURE)),
      Ignored(StreamOff(V4L2_BUF_TYPE_VIDEO_CAPTURE)),
      Checked(UnmapBuffer(q.length), d.munmap) ]
  }

  /** The requests Take makes and the error it returns, case by case. */
  function TakeRun(d: Driver, frameSize: DiscreteFrameSize): Run {
    var q := Queried(d);
    var formatErr := Ioctl.SetFrameSize(Syscall(d.setFormatAx));
    var t1 := [SetFormat(FrameFormat(frameSize, V4L2_PIX_FMT_MJPEG))];
    var t2 := t1 + [RequestBufs(MMAP_REQUEST)];
    var t3 := t2 + [QueryBuf(BUFFER_ZERO)];
    var t4 := t3 + [MapBuffer(q.offset, q.length, PROT_READ, MAP_SHARED)];
    var t5 := t4 + [StreamOn(V4L2_BUF_TYPE_VIDEO_CAPTURE)];
    var t6 := t5 + [StreamOff(V4L2_BUF_TYPE_VIDEO_CAPTURE)];
    var t7 := t6 + [UnmapBuffer(q.length)];
    if formatErr.Some? then Run(t1, formatErr)
    else if d.requestBufs.Some? then Run(t2, d.requestBufs)
    else if MmapResult(d, q.length).Some? then Run(t4, MmapResult(d, q.length))
    else Run(t7, d.munmap)
  }

  /** The case analysis agrees with the generic reading of the plan. */
  lemma TakeRunFollowsPlan(d: Driver, frameSize: DiscreteFrameSize)
    ensures TakeRun(d, frameSize) == Execute(TakePlan(d, frameSize))
  {
    var plan := TakePlan(d, frameSize);
    Advance(plan, 0, []);
    assert [] + [plan[0].step] == [plan[0].step];
    var done := [plan[0].step];
    if !Fails(plan[0]) {
      Advance(plan, 1, done);
      done := done + [plan[1].step];
      if !Fails(plan[1]) {
        Advance(plan, 2, done);
        done := done + [plan[2].step];
        Advance(plan, 3, done);
        done := done + [plan[3].step];
        if !Fails(plan[3]) {
          Advance(plan, 4, done);
          done := done + [plan[4].step];
          Advance(plan, 5, done);
          done := done + [plan[5].step];
          Advance(plan, 6, done);
          done := done + [plan[6].step];
          if !Fails(plan[6]) {
            assert ExecuteFrom(plan, 7, done) == Run(done, None);
          }
        }
      }
    }
  }


  /** Requests stop at the first checked failure; nil is returned exactly when the
      set-up and the unmap succeed, whatever the streaming requests answer. */
  lemma TakeOrder(d: Driver, frameSize: DiscreteFrameSize)
    ensures var r := TakeRun(d, frameSize);
      |r.trace| <= 7 && r.trace == Steps(TakePlan(d, frameSize))[..|r.trace|]
    ensures TakeRun(d, frameSize).err.None? <==> MapsBuffer(d) && d.munmap.None?
  {
    var plan := TakePlan(d, frameSize);
    TakeRunFollowsPlan(d, frameSize);
    ExecuteShape(plan);
  }

  /** Once the buffer is mapped, streaming is switched on, then off, then the buffer is
      unmapped, all three always; before that, none of them is issued. */
  lemma TeardownAfterMapping(d: Driver, frameSize: DiscreteFrameSize)
    ensures MapsBuffer(d) ==> TakeRun(d, frameSize).trace == Steps(TakePlan(d, frameSize))
    ensures !MapsBuffer(d) ==>
      var t := TakeRun(d, frameSize).trace;
      StreamOn(V4L2_BUF_TYPE_VIDEO_CAPTURE) !in t && StreamOff(V4L2_BUF_TYPE_VIDEO_CAPTURE) !in t
      && UnmapBuffer(Queried(d).length) !in t
  {
    TakeOrder(d, frameSize);
    var plan := TakePlan(d, frameSize);
    var t := TakeRun(d, frameSize).trace;
    if MapsBuffer(d) {
      assert |t| == 7 == |Steps(plan)|;
    } else {
      assert |t| <= 4;
      forall i | 0 <= i < |t|
        ensures t[i] == plan[i].step && i < 4
      {
      }
    }
  }

  /** Take issues no queue or dequeue request and delivers no frame. */
  lemma CapturesNoFrame(d: Driver, frameSize: DiscreteFrameSize)
    ensures forall x :: x in TakeRun(d, frameSize).trace ==> !x.QueueBuf? && !x.DequeueBuf? && !x.Deliver?
  {
    TakeOrder(d, frameSize);
  }

  /** The buffer is mapped for reading only. */
  lemma ReadOnlyMapping(d: Driver, frameSize: DiscreteFrameSize)
    ensures forall x :: x in TakeRun(d, frameSize).trace && x.MapBuffer? ==>
      x.prot == PROT_READ && x.prot & PROT_WRITE == 0
  {
    TakeOrder(d, frameSize);
  }

  /** The answers to stream-on and stream-off change neither the requests nor the result. */
  lemma StreamingErrorsDiscarded(d: Driver, frameSize: DiscreteFrameSize, on: Option<Error>, off: Option<Error>)
    ensures TakeRun(d.(streamOn := on, streamOff := off), frameSize) == TakeRun(d, frameSize)
  {
    assert Queried(d.(streamOn := on, streamOff := off)) == Queried(d);
  }

  /** snapshot.go's snapshot: an opened device file. */
  class Snapshot {
    const file: File

    constructor (file: File)
      ensures this.file == file
    {
      this.file := file;
    }

    method SetFrameSize(frameSize: DiscreteFrameSize, pixelFormat: bv32) returns (err: Option<Error>)
      modifies file`trace
      ensures file.trace == old(file.trace) + [SetFormat(FrameFormat(frameSize, pixelFormat))]
      ensures err == Ioctl.SetFrameSize(Syscall(file.driver.setFormatAx))
    {
      var res := file.SetFormatIoctl(FrameFormat(frameSize, pixelFormat));
      err := Ioctl.SetFrameSize(res);
    }

    method RequestMmapBuffer() returns (err: Option<Error>)
      modifies file`trace
      ensures file.trace == old(file.trace) + [RequestBufs(MMAP_REQUEST)]
      ensures err == file.driver.requestBufs
    {
      err := file.RequestBuffer(MMAP_REQUEST);
    }

    /** queryMmapBuffer drops the result of the query and never fails. */
    method QueryMmapBuffer() returns (offset: Uint32, length: Uint32, err: Option<Error>)
      modifies file`trace
      ensures file.trace == old(file.trace) + [QueryBuf(BUFFER_ZERO)]
      ensures offset == Queried(file.driver).offset && length == Queried(file.driver).length
      ensures err.None?
    {
      var info, _ := file.QueryBuffer(BUFFER_ZERO);
      return info.offset, info.length, None;
    }

    /** mapBuffer: a shared, read-only mapping. */
    method MapBuffer(offset: Uint32, length: Uint32) returns (data: array<Byte>, err: Option<Error>)
      modifies file`trace, file`mapping
      ensures file.trace == old(file.trace) + [Step.MapBuffer(offset, length, PROT_READ, MAP_SHARED)]
      ensures err == MmapResult(file.driver, length) && fresh(data)
      ensures err.None? ==> data.Length == length && file.mapping == data
      ensures err.Some? ==> file.mapping == old(file.mapping)
    {
      data, err := file.Mmap(offset, length, PROT_READ, MAP_SHARED);
    }

    method MunmapBuffer(data: array<Byte>) returns (err: Option<Error>)
      modifies file`trace, file`mapping
      ensures file.trace == old(file.trace) + [UnmapBuffer(data.Length)]
      ensures err == file.driver.munmap
      ensures file.mapping == if err.None? then null else old(file.mapping)
    {
      err := file.Munmap(data);
    }

    /** activateStreaming: the result of VIDIOC_STREAMON is dropped. */
    method ActivateStreaming()
      modifies file`trace
      ensures file.trace == old(file.trace) + [StreamOn(V4L2_BUF_TYPE_VIDEO_CAPTURE)]
    {
      var _ := file.StreamOnIoctl(V4L2_BUF_TYPE_VIDEO_CAPTURE);
    }

    /** deactivateStreaming: the result of VIDIOC_STREAMOFF is dropped. */
    method DeactivateStreaming()
      modifies file`trace
      ensures file.trace == old(file.trace) + [StreamOff(V4L2_BUF_TYPE_VIDEO_CAPTURE)]
    {
      var _ := file.StreamOffIoctl(V4L2_BUF_TYPE_VIDEO_CAPTURE);
    }

    /** Take: the requests of TakeRun, returning the first checked error. */
    method Take(frameSize: DiscreteFrameSize) returns (err: Option<Error>)
      modifies file`trace, file`mapping
      ensures file.trace == old(file.trace) + TakeRun(file.driver, frameSize).trace
      ensures err == TakeRun(file.driver, frameSize).err
      ensures !MapsBuffer(file.driver) ==> file.mapping == old(file.mapping)
      ensures MapsBuffer(file.driver) && file.driver.munmap.None? ==> file.mapping == null
      ensures MapsBuffer(file.driver) && file.driver.munmap.Some? ==>
        file.mapping != null && fresh(file.mapping) && file.mapping.Length == Queried(file.driver).length
    {
      ghost var t0 := file.trace;

      err := SetFrameSize(frameSize, V4L2_PIX_FMT_MJPEG);
      ghost var issued := [SetFormat(FrameFormat(frameSize, V4L2_PIX_FMT_MJPEG))];
      if err.Some? {
        return err;
      }
      err := RequestMmapBuffer();
      AppendStep(t0, issued, RequestBufs(MMAP_REQUEST));
      issued := issued + [RequestBufs(MMAP_REQUEST)];
      if err.Some? {
        return err;
      }
      var offset, length, qerr := QueryMmapBuffer();
      AppendStep(t0, issued, QueryBuf(BUFFER_ZERO));
      issued := issued + [QueryBuf(BUFFER_ZERO)];
      if qerr.Some? {
        return qerr;
      }
      var data;
      data, err := MapBuffer(offset, length);
      AppendStep(t0, issued, Step.MapBuffer(offset, length, PROT_READ, MAP_SHARED));
      issued := issued + [Step.MapBuffer(offset, length, PROT_READ, MAP_SHARED)];
      if err.Some? {
        return err;
      }
      ActivateStreaming();
      AppendStep(t0, issued, StreamOn(V4L2_BUF_TYPE_VIDEO_CAPTURE));
      issued := issued + [StreamOn(V4L2_BUF_TYPE_VIDEO_CAPTURE)];
      DeactivateStreaming();
      AppendStep(t0, issued, StreamOff(V4L2_BUF_TYPE_VIDEO_CAPTURE));
      issued := issued + [StreamOff(V4L2_BUF_TYPE_VIDEO_CAPTURE)];
      var err2 := MunmapBuffer(data);
      AppendStep(t0, issued, UnmapBuffer(length));
      issued := issued + [UnmapBuffer(length)];
      if err2.Some? {
        return err2;
      }
      return None;
    }
  }
}
