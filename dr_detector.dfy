/**
 * The stream driver `DrDetector`: its read loop, warm-up gating, background
 * recomputation, region check and guaranteed release of the capture.
 *
 * Exceptions are values: `CvError` is `cv2.error`, `OtherError` any other
 * exception. The handlers are written `except error or Exception`, and
 * `error or Exception` evaluates to `error`, so only `cv2.error` is caught;
 * any other exception still runs the `finally` block and then leaves.
 *
 * The video source is a `Capture` that replays a finite script of read
 * results; the OpenCV image operations are the functions of a `Vision`.
 */
module Detector {
  import opened Wrappers
  import opened QueueLists
  import opened MedianBackground
  import opened Regions

  /** `cv2.error`, or any other exception. */
  datatype ErrKind = CvError | OtherError

  /** One `read()` of the capture: `(flag, frame)`, or the exception it raised. */
  datatype ReadStep = Got(flag: bool, frame: Slot) | Raises(kind: ErrKind)

  /** The two messages the driver logs. */
  datatype LogEntry =
    | StreamingFailed(kind: ErrKind)   // 'Failed while streaming', inside the loop
    | CriticalError(kind: ErrKind)     // 'Critical streaming error', in run_processing

  /** The OpenCV calls the driver makes; their numerics are not modelled. */
  datatype Vision = Vision(
    // cvtColor(..., COLOR_RGB2GRAY) of the median frame
    toGray: Frame -> Result<Frame, ErrKind>,
    // grey conversion of the frame, absdiff with the background, GaussianBlur,
    // Otsu threshold and findContours with RETR_EXTERNAL
    contoursOf: (Frame, Frame) -> Result<seq<Contour>, ErrKind>,
    // rectangle: draws one bounding box on the frame
    draw: (Frame, Box) -> Frame)

  /** Constructor defaults of `DrDetector`. */
  const DefaultFramesSize := 20
  const DefaultContourMinSize := 100

  /** The detector's settings. */
  datatype Config = Config(framesSize: int, contourMinSize: int, vision: Vision)

  /**
   * What the driver has changed so far: the buffer's items, the local
   * `_frame`, `background_frame`, the frames handed to `imshow`, and the log.
   */
  datatype State = State(
    buf: seq<Slot>, frame: Slot, background: Option<Frame>, shown: seq<Frame>, log: seq<LogEntry>)

  /**
   * `_generate_median_frame`: the grey median of the buffer. numpy cannot
   * stack `None` entries or frames of different shapes and raises a
   * non-OpenCV exception; the median of an empty stack is not a frame, and
   * the grey conversion rejects it with `cv2.error`.
   */
  function BackgroundFrom(v: Vision, buf: seq<Slot>): (r: Result<Frame, ErrKind>)
    ensures buf == [] ==> r == Err(CvError)
    ensures MedianFrame(buf).Err? && buf != [] ==> r == Err(OtherError)
    ensures MedianFrame(buf).Ok? ==> r == v.toGray(MedianFrame(buf).value)
  {
    match MedianFrame(buf)
    case Err(EmptyStack) => Err(CvError)
    case Err(NotUniform) => Err(OtherError)
    case Ok(m) => v.toGray(m)
  }

  /**
   * `_check_moving_objects(frame)`: the frame with the bounding box of every
   * contour of area at least `contourMinSize` drawn on it, or the exception.
   */
  function CheckResult(c: Config, frame: Slot, background: Option<Frame>): Result<Frame, ErrKind>
  {
    if frame.NoFrame? || background.None? then Err(CvError)
    else
      match c.vision.contoursOf(frame.px, background.value)
      case Err(k) => Err(k)
      case Ok(cs) => Ok(DrawAll(c.vision.draw, frame.px, Boxes(Kept(cs, c.contourMinSize))))
  }

  /** The loop body goes past the warm-up check and runs the detection. */
  predicate Detects(c: Config, s: State, step: ReadStep)
  {
    step.Got? && step.flag && |s.buf| >= c.framesSize
  }

  /** The `try` block of one loop iteration: the new state and what it raised. */
  function TryBlock(c: Config, s: State, step: ReadStep): (State, Option<ErrKind>)
  {
    match step
    case Raises(k) => (s, Some(k))
    case Got(flag, f) =>
      var s1 := s.(frame := f);
      if !flag || |s.buf| < c.framesSize then (s1, None)
      else
        match BackgroundFrom(c.vision, s.buf)
        case Err(k) => (s1, Some(k))
        case Ok(g) =>
          var s2 := s1.(background := Some(g));
          match CheckResult(c, f, Some(g))
          case Err(k) => (s2, Some(k))
          case Ok(a) => (s2.(frame := Img(a), shown := s2.shown + [a]), None)
  }

  /**
   * One loop iteration: the `try` block, the `cv2.error` handler, and the
   * `finally` append of `_frame`. The second component is the exception
   * that leaves the loop, if any.
   */
  function Iteration(c: Config, s: State, step: ReadStep): (State, Option<ErrKind>)
  {
    var (t, raised) := TryBlock(c, s, step);
    var t' := if raised == Some(CvError) then t.(log := t.log + [StreamingFailed(CvError)]) else t;
    (t'.(buf := Appended(t'.buf, c.framesSize, t'.frame)),
     if raised == Some(OtherError) then raised else None)
  }

  /** The `while isOpened()` loop over the remaining read results. */
  function Loop(c: Config, s: State, steps: seq<ReadStep>): (State, Option<ErrKind>)
    decreases |steps|
  {
    if steps == [] then (s, None)
    else
      var (t, escaped) := Iteration(c, s, steps[0]);
      if escaped.Some? then (t, escaped) else Loop(c, t, steps[1..])
  }

  /**
   * `_processing_stream`: a first read outside the `try`, then the loop.
   * A read on an exhausted or released capture returns `(False, None)`.
   */
  function Stream(c: Config, s: State, script: seq<ReadStep>): (State, Option<ErrKind>)
  {
    var first := if script == [] then Got(false, NoFrame) else script[0];
    match first
    case Raises(k) => (s, Some(k))
    case Got(_, f) => Loop(c, s.(frame := f), if script == [] then [] else script[1..])
  }

  /** `run_processing`: a `cv2.error` from the stream is logged, any other propagates. */
  function Run(c: Config, s: State, script: seq<ReadStep>): (State, Option<ErrKind>)
  {
    var (t, escaped) := Stream(c, s, script);
    if escaped == Some(CvError) then (t.(log := t.log + [CriticalError(CvError)]), None)
    else (t, escaped)
  }

  /**
   * Every iteration appends exactly one entry, the `_frame` it ends with: on
   * `continue`, after a caught `cv2.error`, and before any other exception
   * leaves the loop. That entry is the frame just read, or the previous
   * `_frame` when the read itself raised. Only non-OpenCV exceptions leave.
   */
  lemma IterationAppendsFrame(c: Config, s: State, step: ReadStep)
    ensures var (t, e) := Iteration(c, s, step);
            t.buf == Appended(s.buf, c.framesSize, t.frame) &&
            (step.Raises? ==> t.frame == s.frame && e == (if step.kind == OtherError then Some(OtherError) else None)) &&
            (step.Got? && !Detects(c, s, step) ==> t.frame == step.frame && e == None) &&
            (step.Got? && Detects(c, s, step) ==>
               t.frame == step.frame ||
               (BackgroundFrom(c.vision, s.buf).Ok? &&
                t.frame == Img(CheckResult(c, step.frame, Some(BackgroundFrom(c.vision, s.buf).value)).value))) &&
            e != Some(CvError)
  {
    var (u, raised) := TryBlock(c, s, step);
    match step
    case Raises(k) =>
      assert u == s;
    case Got(flag, f) =>
      if Detects(c, s, step) {
        match BackgroundFrom(c.vision, s.buf)
        case Err(k) =>
          assert u.frame == f;
        case Ok(g) =>
          assert u.frame == f || CheckResult(c, f, Some(g)).Ok?;
      } else {
        assert u == s.(frame := f) && raised == None;
      }
  }

  /**
   * Warm-up gating: an iteration that fails the read or finds the buffer
   * short of `frames_size` neither recomputes the background nor shows a frame.
   */
  lemma WarmUpDoesNotDetect(c: Config, s: State, step: ReadStep)
    requires !Detects(c, s, step)
    ensures Iteration(c, s, step).0.background == s.background
    ensures Iteration(c, s, step).0.shown == s.shown
    ensures step.Raises? ==> Iteration(c, s, step).0.log == s.log + (if step.kind == CvError then [StreamingFailed(CvError)] else [])
    ensures step.Got? ==> Iteration(c, s, step).0.log == s.log
  {
  }

  /**
   * A frame is judged against the background of the buffer as it stood
   * before that frame is appended. When the background or the check fails,
   * nothing is shown and the frame as read is appended; after a successful
   * check the frame, with its regions drawn on, is both shown and appended.
   */
  lemma JudgedAgainstEarlierFrames(c: Config, s: State, f: Slot)
    requires Detects(c, s, Got(true, f))
    ensures var (t, e) := Iteration(c, s, Got(true, f));
            var bg := BackgroundFrom(c.vision, s.buf);
            (bg.Err? ==> t.background == s.background && t.shown == s.shown &&
                         t.buf == Appended(s.buf, c.framesSize, f)) &&
            (bg.Ok? ==> t.background == Some(bg.value)) &&
            (bg.Ok? && CheckResult(c, f, Some(bg.value)).Err? ==>
               t.shown == s.shown && t.buf == Appended(s.buf, c.framesSize, f)) &&
            (bg.Ok? && CheckResult(c, f, Some(bg.value)).Ok? ==>
               var a := CheckResult(c, f, Some(bg.value)).value;
               t.shown == s.shown + [a] && t.buf == Appended(s.buf, c.framesSize, Img(a)) && e == None)
  {
  }

  /**
   * A `None` from a failed read stays in the buffer, and the next
   * detection then raises a non-OpenCV exception (numpy cannot stack it),
   * which ends the stream.
   */
  lemma NoneInBufferEndsStream(c: Config, s: State, f: Slot)
    requires NoFrame in s.buf && Detects(c, s, Got(true, f))
    ensures Iteration(c, s, Got(true, f)).1 == Some(OtherError)
  {
  }

  /**
   * No detection during warm-up: while the buffer holds fewer than
   * `frames_size` entries the loop never touches the background or the
   * display. From an empty buffer this covers the first `frames_size`
   * iterations, so the first detection is at iteration `frames_size + 1`
   * at the earliest.
   */
  lemma {:induction false} NoDetectionDuringWarmUp(c: Config, s: State, steps: seq<ReadStep>)
    requires |s.buf| + |steps| <= c.framesSize
    ensures Loop(c, s, steps).0.background == s.background
    ensures Loop(c, s, steps).0.shown == s.shown
    decreases |steps|
  {
    if steps != [] {
      WarmUpDoesNotDetect(c, s, steps[0]);
      var (t, e) := Iteration(c, s, steps[0]);
      IterationAppendsFrame(c, s, steps[0]);
      if e.None? {
        NoDetectionDuringWarmUp(c, t, steps[1..]);
      }
    }
  }

  /**
   * Each warm-up iteration adds one entry, so unless a read raises a
   * non-OpenCV exception the buffer holds `frames_size` entries after
   * `frames_size` iterations from empty, and the next successful read is
   * checked.
   */
  lemma {:induction false} WarmUpFillsBuffer(c: Config, s: State, steps: seq<ReadStep>)
    requires |s.buf| + |steps| <= c.framesSize
    requires forall i | 0 <= i < |steps| :: steps[i] != Raises(OtherError)
    ensures Loop(c, s, steps).1 == None
    ensures |Loop(c, s, steps).0.buf| == |s.buf| + |steps|
    decreases |steps|
  {
    if steps != [] {
      var (t, e) := Iteration(c, s, steps[0]);
      IterationAppendsFrame(c, s, steps[0]);
      WarmUpFillsBuffer(c, t, steps[1..]);
    }
  }

  /** With `frames_size >= 2` the buffer never holds more than `frames_size` entries. */
  lemma {:induction false} BufferStaysBounded(c: Config, s: State, steps: seq<ReadStep>)
    requires c.framesSize >= 2 && |s.buf| <= c.framesSize
    ensures |Loop(c, s, steps).0.buf| <= c.framesSize
    decreases |steps|
  {
    if steps != [] {
      var (t, e) := Iteration(c, s, steps[0]);
      IterationAppendsFrame(c, s, steps[0]);
      AppendedKeepsBound(s.buf, c.framesSize, t.frame);
      if e.None? {
        BufferStaysBounded(c, t, steps[1..]);
      }
    }
  }

  /**
   * With `frames_size == 1` the buffer is unbounded: every iteration of a
   * stream that runs to its end adds an entry, and each detection takes the
   * median over every frame seen so far.
   */
  lemma {:induction false} BufferUnboundedAtOne(c: Config, s: State, steps: seq<ReadStep>)
    requires c.framesSize == 1 && Loop(c, s, steps).1 == None
    ensures |Loop(c, s, steps).0.buf| == |s.buf| + |steps|
    decreases |steps|
  {
    if steps != [] {
      var (t, e) := Iteration(c, s, steps[0]);
      IterationAppendsFrame(c, s, steps[0]);
      BufferUnboundedAtOne(c, t, steps[1..]);
    }
  }

  /**
   * The frame of the read before the loop is not buffered: the loop's first
   * read overwrites `_frame` before the `finally` appends it, unless that
   * read raises, in which case the first frame is what gets appended.
   */
  lemma FirstReadNotBuffered(c: Config, s: State, b: bool, f0: Slot, step: ReadStep)
    requires s.buf == []
    ensures Stream(c, s, [Got(b, f0), step]).0.buf == [if step.Got? then step.frame else f0]
  {
    var s' := s.(frame := f0);
    assert [Got(b, f0), step][1..] == [step];
    IterationAppendsFrame(c, s', step);
    var (t, e) := Iteration(c, s', step);
    if step.Got? && Detects(c, s', step) {
      assert BackgroundFrom(c.vision, s'.buf) == Err(CvError);
      assert t.frame == step.frame;
    }
    assert Loop(c, s', [step]).0 == t;
  }

  /** No `cv2.error` ever leaves the loop: the handler inside it catches them all. */
  lemma {:induction false} LoopNeverLetsCvErrorOut(c: Config, s: State, steps: seq<ReadStep>)
    ensures Loop(c, s, steps).1 != Some(CvError)
    decreases |steps|
  {
    if steps != [] {
      IterationAppendsFrame(c, s, steps[0]);
      var (t, e) := Iteration(c, s, steps[0]);
      if e.None? {
        LoopNeverLetsCvErrorOut(c, t, steps[1..]);
      }
    }
  }

  /** A video source that replays a finite script of read results. */
  class Capture {
    const script: seq<ReadStep>
    var pos: nat
    /** How many times `release()` was called. */
    var releases: nat

    ghost predicate Valid()
      reads this
    {
      pos <= |script|
    }

    constructor (script: seq<ReadStep>)
      ensures Valid() && this.script == script && pos == 0 && releases == 0
    {
      this.script := script;
      pos, releases := 0, 0;
    }

    /** The reads still to come; none once the capture is released. */
    ghost function Remaining(): seq<ReadStep>
      reads this
      requires Valid()
    {
      if releases == 0 then script[pos..] else []
    }

    /** `isOpened()`: not released and not at the end of the source. */
    predicate IsOpened()
      reads this
      requires Valid()
      ensures IsOpened() <==> Remaining() != []
    {
      releases == 0 && pos < |script|
    }

    /** `read()`: the next scripted result, or `(False, None)` when closed. */
    method Read() returns (r: ReadStep)
      requires Valid()
      modifies this`pos
      ensures Valid()
      ensures old(Remaining()) == [] ==> r == Got(false, NoFrame) && Remaining() == []
      ensures old(Remaining()) != [] ==> r == old(Remaining())[0] && Remaining() == old(Remaining())[1..]
    {
      if releases == 0 && pos < |script| {
        r := script[pos];
        pos := pos + 1;
      } else {
        r := Got(false, NoFrame);
      }
    }

    /** `release()`. */
    method Release()
      modifies this`releases
      ensures releases == old(releases) + 1
    {
      releases := releases + 1;
    }
  }

  class DrDetector {
    const videoCapture: Capture
    const framesSize: int
    const isVideoFile: bool
    const contourMinSize: int
    const vision: Vision
    var backgroundFrame: Option<Frame>
    const bgFramesSet: QueueList<Slot>
    /** The frames passed to `imshow`, oldest first. */
    var shown: seq<Frame>
    /** The messages passed to the logger, oldest first. */
    var log: seq<LogEntry>

    ghost predicate Valid()
      reads this, bgFramesSet, videoCapture
    {
      bgFramesSet.maxSize == framesSize && videoCapture.Valid()
    }

    function Cfg(): Config
      reads this
    {
      Config(framesSize, contourMinSize, vision)
    }

    /** The detector's state, with `frame` as the loop's `_frame`. */
    function StateWith(frame: Slot): State
      reads this, bgFramesSet
    {
      State(bgFramesSet.items, frame, backgroundFrame, shown, log)
    }

    /** The fields agree with `s` (the local `_frame` aside). */
    ghost predicate Holds(s: State)
      reads this, bgFramesSet
    {
      bgFramesSet.items == s.buf && backgroundFrame == s.background && shown == s.shown && log == s.log
    }

    /**
     * `DrDetector(capture, frame_size=20, contour_min_size=100,
     * is_video_file=False)`: an empty buffer of capacity `frame_size` and no
     * background yet.
     */
    constructor (capture: Capture, vision: Vision, frameSize: int := DefaultFramesSize,
                 contourMinSize: int := DefaultContourMinSize, isVideoFile: bool := false)
      requires capture.Valid()
      ensures Valid() && fresh(bgFramesSet)
      ensures videoCapture == capture && this.vision == vision
      ensures framesSize == frameSize && this.contourMinSize == contourMinSize
      ensures this.isVideoFile == isVideoFile
      ensures backgroundFrame == None && bgFramesSet.items == [] && shown == [] && log == []
    {
      videoCapture := capture;
      framesSize := frameSize;
      this.isVideoFile := isVideoFile;
      this.contourMinSize := contourMinSize;
      this.vision := vision;
      backgroundFrame := None;
      bgFramesSet := new QueueList(frameSize);
      shown, log := [], [];
    }

    /** `_check_moving_objects(frame)`: draws the large regions and shows the frame. */
    method CheckMovingObjects(frame: Slot) returns (r: Result<Frame, ErrKind>)
      modifies this`shown
      ensures r == CheckResult(Cfg(), frame, backgroundFrame)
      ensures shown == old(shown) + (if r.Ok? then [r.value] else [])
    {
      if frame.NoFrame? || backgroundFrame.None? {
        return Err(CvError);
      }
      var contours := vision.contoursOf(frame.px, backgroundFrame.value);
      if contours.Err? {
        return Err(contours.error);
      }
      var annotated, _ := DrawRegions(vision.draw, frame.px, contours.value, contourMinSize);
      shown := shown + [annotated];
      r := Ok(annotated);
    }

    /** One pass of the `while` loop of `_processing_stream`. */
    method Iterate(frame: Slot) returns (next: Slot, escaped: Option<ErrKind>)
      requires Valid() && videoCapture.IsOpened()
      modifies this, bgFramesSet, videoCapture`pos
      ensures Valid() && videoCapture.releases == old(videoCapture.releases)
      ensures videoCapture.Remaining() == old(videoCapture.Remaining())[1..]
      ensures (StateWith(next), escaped) ==
              Iteration(Cfg(), old(StateWith(frame)), old(videoCapture.Remaining())[0])
    {
      ghost var s := StateWith(frame);
      next := frame;
      var raised: Option<ErrKind> := None;
      // try:
      var r := videoCapture.Read();
      match r {
        case Raises(k) =>
          raised := Some(k);
        case Got(flag, f) =>
          next := f;
          if !flag || bgFramesSet.Size() < framesSize {
            // continue
          } else {
            var bg := BackgroundFrom(vision, bgFramesSet.ToList());
            if bg.Err? {
              raised := Some(bg.error);
            } else {
              backgroundFrame := Some(bg.value);
              var checked := CheckMovingObjects(next);
              if checked.Err? {
                raised := Some(checked.error);
                assert shown == s.shown;
              } else {
                // rectangle() drew on the very array `_frame` refers to
                next := Img(checked.value);
              }
            }
          }
      }
      assert (StateWith(next), raised) == TryBlock(Cfg(), s, r);
      // except error:
      if raised == Some(CvError) {
        log := log + [StreamingFailed(CvError)];
      }
      // finally:
      bgFramesSet.Append(next);
      escaped := if raised == Some(OtherError) then raised else None;
    }

    /** `_processing_stream`. */
    method ProcessingStream() returns (escaped: Option<ErrKind>)
      requires Valid()
      modifies this, bgFramesSet, videoCapture`pos
      ensures Valid() && videoCapture.releases == old(videoCapture.releases)
      ensures var (s, e) := Stream(Cfg(), old(StateWith(NoFrame)), old(videoCapture.Remaining()));
              escaped == e && Holds(s)
      ensures escaped.None? ==> !videoCapture.IsOpened()
    {
      ghost var c := Cfg();
      ghost var script := videoCapture.Remaining();
      ghost var s0 := StateWith(NoFrame);
      var first := videoCapture.Read();
      if first.Raises? {
        return Some(first.kind);
      }
      var frame := first.frame;
      assert Stream(c, s0, script) == Loop(c, StateWith(frame), videoCapture.Remaining());
      while videoCapture.IsOpened()
        invariant Valid() && videoCapture.releases == old(videoCapture.releases)
        invariant Stream(c, s0, script) == Loop(c, StateWith(frame), videoCapture.Remaining())
        decreases |videoCapture.Remaining()|
      {
        var e;
        frame, e := Iterate(frame);
        if e.Some? {
          return e;
        }
      }
      escaped := None;
    }

    /**
     * `run_processing`: runs the stream, logs a `cv2.error` that escapes it,
     * and releases the capture exactly once whatever happened.
     */
    method RunProcessing() returns (raised: Option<ErrKind>)
      requires Valid()
      modifies this, bgFramesSet, videoCapture
      ensures Valid()
      ensures videoCapture.releases == old(videoCapture.releases) + 1
      ensures raised != Some(CvError)
      ensures var (s, e) := Run(Cfg(), old(StateWith(NoFrame)), old(videoCapture.Remaining()));
              raised == e && Holds(s)
    {
      // try:
      var e := ProcessingStream();
      if e == Some(CvError) {
        // except error:
        log := log + [CriticalError(CvError)];
        raised := None;
      } else {
        raised := e;
      }
      // finally:
      videoCapture.Release();
    }
  }
}
