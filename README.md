# dr-detector: bounded frame buffer and median-background stream driver in Dafny

This project models the core of dr-detector, a motion detector for video
streams. It has two parts.

- `QueueList` (`src/queue_list.py`) is the frame buffer. It is a list that
  keeps the most recent `max_size` items.
- `DrDetector` (`src/dr_detector.py`) is the stream driver. Its read loop fills
  the buffer during a warm-up phase. Once the buffer holds `frames_size`
  frames, each successfully read frame is checked: the driver recomputes a
  per-pixel median background from the buffer, finds the changed regions, and
  draws the box of every region whose area is at least `contour_min_size`.
  The frame just read is then appended to the buffer. `run_processing` always
  releases the capture.

Files:

- `wrappers.dfy`: module `Wrappers`, the `Option` and `Result` datatypes.
- `queue_list.dfy`: module `QueueLists`. It models Python's `s[a:]` slice,
  `s[i]` index and `list.pop(i)` exactly. On top of those it has the spec
  function `Appended`, the sliding-window lemmas, and the class `QueueList`.
  The class keeps `_list_object` as a `seq` field (`items`) and `_max_size` as
  an `int` field (`maxSize`). Its methods change these fields in place.
- `median.dfy`: module `MedianBackground`. A frame is a flat sequence of
  `uint8` samples. The file has numpy's median of a list of samples, the
  per-position median frame, and the robustness lemmas (majority, single
  outlier).
- `regions.dfy`: module `Regions`. It has the minimum-area filter over
  abstract contours, each one an area and a bounding box, and the loop that
  draws the kept boxes.
- `dr_detector.dfy`: module `Detector`. It has:
  - a scripted `Capture` that stands in for `VideoCapture`;
  - the spec functions `TryBlock`, `Iteration`, `Loop`, `Stream` and `Run`;
  - the class `DrDetector`, whose methods are proved equal to those functions;
  - the lemmas about warm-up, append order, buffer bounds, the first read and
    which exceptions escape.

Exceptions are values of type `ErrKind`. `CvError` stands for `cv2.error`
and `OtherError` for any other exception. Both handlers in the driver are
written `except error or Exception`. That expression evaluates to `error`, so
only `cv2.error` is caught. Any other exception still runs the `finally`
block (which appends to the buffer, or releases the capture) and then
propagates. The model follows that behaviour.

Behaviours of the code that the model reproduces and proves:

- **`max_size == 1` does not bound the buffer.** `append` cuts the list to
  `[-0:]`, which is the whole list.
- **`max_size <= 0` cuts from the front.** The slice start `1 - max_size`
  is positive. With capacity 0 each append drops the oldest item and adds
  one, so a non-empty buffer keeps its length. With capacity `-k` each
  append removes `k` items net, until a single item is left. A buffer of at
  most one item stays at most one item.
- **`pop_pre_last` on a one-item buffer removes that item.** It calls
  `pop(-1)`.
- **The `max_size` setter keeps the stored items.** It clears the inherited
  `list` storage, and the class never fills that storage.
- **The last item read is always appended.** The append of the local `_frame`
  sits in `finally`. So it runs on every iteration: after a failed read (it
  appends `None`), after `continue`, after a caught `cv2.error`, and before
  another exception leaves. If the read itself raised, the previous `_frame`
  is appended.
- **The buffer holds the annotated frame.** `rectangle` draws on the array
  that `_frame` refers to, so after a successful check the appended frame
  carries the drawn boxes.
- **A `None` in the buffer ends the stream.** When a detection later runs,
  numpy cannot stack the `None`, and the resulting exception is not a
  `cv2.error`.

Further behaviours of the code that a reader may not expect:

- The setter does not clear the buffer.
- A failed read does change the buffer: it appends `None`.
- Detection runs whenever the buffer holds at least `frames_size` entries,
  not only exactly that many.
- A processing failure other than `cv2.error` ends the session instead of
  being logged and skipped.

## Model

| member | source | states |
|---|---|---|
| `QueueLists.SliceFrom` | src/queue_list.py:87 | Python's `s[a:]`: a negative start counts from the end and is clamped at 0; a non-negative start is clamped at the length |
| `QueueLists.Appended` | src/queue_list.py:85-89 | append below capacity gives old items then `x`; at or above a capacity of at least 2 gives the last `max_size-1` old items then `x`, so exactly `max_size` items; capacity 1 always grows by one; capacity `<= 0` drops the first `1-max_size` items first; the last item is `x` |
| `QueueLists.AppendedKeepsBound` | src/queue_list.py:85-89 | for a capacity of at least 2, `size <= max_size` before an append implies it after |
| `QueueLists.AppendedAllIsWindow` | src/queue_list.py:85-89 | from a buffer within a capacity of at least 2, appending any sequence leaves exactly the most recent `max_size` items, in arrival order |
| `QueueLists.AppendedAllAtMostOneBelowOne` | src/queue_list.py:85-89 | with `max_size <= 0`, a buffer of at most one item holds at most one item after any sequence of appends |
| `QueueLists.AppendedAllKeepsLengthAtZero` | src/queue_list.py:85-89 | with `max_size == 0`, a non-empty buffer keeps its length after any sequence of appends |
| `QueueLists.AppendedAllUnboundedAtOne` | src/queue_list.py:85-89 | with `max_size == 1` appending a sequence keeps every old item and every new one, so the list grows without limit |
| `QueueLists.Pop` | src/queue_list.py:66-76 | `list.pop(i)` succeeds iff `-len <= i < len`, returns the item at `i` (or `len+i`), leaves the others in order, and the removed item plus the rest form the old multiset |
| `QueueLists.Index` | src/queue_list.py:55 | `s[i]` succeeds iff `-len <= i < len` and then returns `s[i]` or `s[len+i]`; otherwise IndexError |
| `QueueLists.Last` | src/queue_list.py:60 | `s[-1:][0]` is the last item of a non-empty list and IndexError on an empty one |
| `QueueLists.AppendedThenLast` | src/queue_list.py:57-60 | after any append, `get_last` returns the appended item |
| `QueueLists.QueueList.constructor` | src/queue_list.py:9-19 | a new buffer is empty and its capacity is the argument, 15 by default |
| `QueueLists.QueueList.MaxSize` | src/queue_list.py:21-23 | the `max_size` getter returns `_max_size` |
| `QueueLists.QueueList.SetMaxSize` | src/queue_list.py:25-28 | the setter replaces the capacity and leaves the stored items unchanged |
| `QueueLists.QueueList.ToList` | src/queue_list.py:30-32 | `to_list` returns the stored items themselves, oldest first |
| `QueueLists.QueueList.Size` | src/queue_list.py:34-36 | `size` is the length of `to_list` |
| `QueueLists.QueueList.Length` | src/queue_list.py:38-41 | `len()` agrees with `size` and with `to_list` |
| `QueueLists.QueueList.GetItem` | src/queue_list.py:48-55 | indexing succeeds iff `-size <= i < size`, and returns the item at `i`, counted from the end when `i` is negative; otherwise IndexError |
| `QueueLists.QueueList.GetLast` | src/queue_list.py:57-60 | `get_last` returns the newest item, and raises IndexError on an empty buffer |
| `QueueLists.QueueList.PopFirst` | src/queue_list.py:62-66 | on an empty buffer it returns None and changes nothing; otherwise it returns the first item and leaves the tail |
| `QueueLists.QueueList.PopLast` | src/queue_list.py:68-71 | it returns and removes the last item, and raises IndexError on an empty buffer with nothing changed |
| `QueueLists.QueueList.PopPreLast` | src/queue_list.py:73-76 | with at least 2 items it returns and removes the item at `size-2` and keeps the rest in order; with one item it removes that one; on empty it raises IndexError |
| `QueueLists.QueueList.Append` | src/queue_list.py:78-89 | the new items are `Appended(old items, max_size, x)`, the capacity is unchanged, and `get_last` is `x` |
| `MedianBackground.Sort` | src/dr_detector.py:65 | the sort inside numpy's median: an ascending permutation of the samples |
| `MedianBackground.MedianOf` | src/dr_detector.py:65 | numpy's median of the samples at one pixel, truncated to `uint8`, lies between the smallest and the largest sample, and a value held by more than half of the samples is the median |
| `MedianBackground.MedianFrame` | src/dr_detector.py:65 | `median(frames, axis=0).astype(uint8)` fails on an empty stack and on `None` or frames of different size, and otherwise gives a frame of the same size whose every sample lies between the stack's extremes at that position |
| `MedianBackground.MedianFrameOfMajority` | src/dr_detector.py:65 | a frame that fills more than half of the buffer is the median background |
| `MedianBackground.MedianFrameRejectsOutlier` | src/dr_detector.py:65 | with more than two frames, one outlier frame does not move the background away from the frame all the others equal |
| `Regions.Kept` | src/dr_detector.py:74-75 | a contour is kept iff its area is at least `contour_min_size` (inclusive) |
| `Regions.KeptConcat` | src/dr_detector.py:74-75 | the filter keeps discovery order: filtering a concatenation concatenates the filtered parts |
| `Regions.DrawRegions` | src/dr_detector.py:74-77 | the loop draws exactly the bounding boxes of the kept contours, in discovery order |
| `Detector.BackgroundFrom` | src/dr_detector.py:64-66 | the background is the grey conversion of the median of the buffer; an empty buffer gives `cv2.error`, and `None` entries or a shape mismatch give a non-OpenCV exception |
| `Detector.IterationAppendsFrame` | src/dr_detector.py:49-60 | every iteration appends exactly one entry, the final `_frame`: the previous `_frame` when the read raised; the frame read when no detection ran; after a detection, the frame read or, when the check succeeded, that frame with its regions drawn on; no `cv2.error` leaves an iteration |
| `Detector.WarmUpDoesNotDetect` | src/dr_detector.py:50-52 | an iteration whose read failed or whose buffer is short of `frames_size` changes neither the background nor the display |
| `Detector.JudgedAgainstEarlierFrames` | src/dr_detector.py:51-60 | a checked frame is judged against the background of the buffer before that frame is appended; when the background or the check fails nothing is shown and the frame as read is appended; after a successful check the annotated frame is shown and appended |
| `Detector.NoneInBufferEndsStream` | src/dr_detector.py:50-60 | a `None` left in the buffer by a failed read makes the next detection raise a non-OpenCV exception, which leaves the loop |
| `Detector.NoDetectionDuringWarmUp` | src/dr_detector.py:48-55 | while the buffer is short of `frames_size` the loop never touches the background or the display, so from empty the first `frames_size` iterations do no detection |
| `Detector.WarmUpFillsBuffer` | src/dr_detector.py:48-60 | if no read raises a non-OpenCV exception, each warm-up iteration adds one entry, so the buffer is full after `frames_size` iterations and the next successful read is checked |
| `Detector.BufferStaysBounded` | src/dr_detector.py:48-60 | with `frames_size >= 2` the buffer never holds more than `frames_size` entries |
| `Detector.BufferUnboundedAtOne` | src/dr_detector.py:48-60 | with `frames_size == 1` every iteration of a stream that runs to its end adds an entry |
| `Detector.FirstReadNotBuffered` | src/dr_detector.py:46-60 | the frame of the read before the loop is not buffered, unless the loop's first read raises, in which case it is what gets appended |
| `Detector.LoopNeverLetsCvErrorOut` | src/dr_detector.py:48-58 | the loop catches every `cv2.error`; only other exceptions leave it |
| `Detector.DrDetector.constructor` | src/dr_detector.py:20-32 | the defaults are `frames_size = 20` and `contour_min_size = 100`; the buffer is created empty with capacity `frames_size`; the background starts as None |
| `Detector.DrDetector.CheckMovingObjects` | src/dr_detector.py:68-79 | the result is the frame with the large regions drawn on, or the exception; a successful check shows exactly that frame |
| `Detector.DrDetector.Iterate` | src/dr_detector.py:49-62 | one pass of the loop body changes the detector exactly as `Iteration` says and consumes one read |
| `Detector.DrDetector.ProcessingStream` | src/dr_detector.py:46-62 | `_processing_stream` ends in the state given by `Stream` over the capture's reads, never releases the capture, and leaves it closed when no exception escapes |
| `Detector.DrDetector.RunProcessing` | src/dr_detector.py:38-44 | `run_processing` releases the capture exactly once on every path, logs a `cv2.error`, and lets only other exceptions out |

## Left out

- The OpenCV and numpy image operations: `cvtColor`, `absdiff`,
  `GaussianBlur`, Otsu `threshold`, `findContours`, `contourArea`,
  `boundingRect`, `rectangle` and `imshow` (`src/dr_detector.py:66,69-79`).
  They are foreign library numerics. They are the functions of a `Vision`
  value, which the caller supplies. `imshow` is modelled only as a record of
  the frames shown.
- `VideoCapture` I/O (`read`, `isOpened`, `release`, `build_video_capture`).
  It is replaced by a finite script of read results. `isOpened` is true until
  the script runs out or the capture is released. A file capture that stays
  open at end of file and keeps returning `(False, None)` would loop forever;
  a finite script cannot express that.
- `waitKey(10)` when `is_video_file` is set. It is display pacing only. The
  flag is stored and nothing else.
- The logger's message text. Only which message is logged is kept.
- `__repr__`, and `__getitem__` with a slice argument: they carry no logic
  beyond Python's own.
- The inherited `list` storage of `QueueList`. `append` is overridden, so
  that storage is always empty, and the `clear()` in the setter has no effect
  on the modelled state.
- `MedianBackground.MedianFrame`: a frame is its flat sequence of samples, so
  two frames of different shape but the same number of samples count as
  uniform here, while numpy would reject them.
- The floating-point intermediate of numpy's median. The model uses the
  integer floor of the mean of the two middle values. For `uint8` samples
  this equals the value after `astype(uint8)`.
- How numpy reports failures. The model decides the exception kind: a stack
  holding `None` or mismatched frames raises a non-OpenCV exception. An empty
  stack (only possible when `frames_size <= 0`) yields `cv2.error`, on the
  grounds that the grey conversion rejects the degenerate median.
- `launch.py` (argument parsing and the KeyboardInterrupt exit),
  `config.py` and `src/__init__.py` (logging setup), and `test.py`, an
  earlier draft of the driver that is not on the live path. None of them is
  part of this model.
