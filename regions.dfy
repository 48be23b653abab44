/**
 * The minimum-area filter of `_check_moving_objects`. Finding the contours
 * of the thresholded difference image is OpenCV's work and stays outside the
 * model: a contour is the pair of what the loop asks of it, its area
 * (`contourArea`) and its bounding box (`boundingRect`). Drawing a box
 * (`rectangle`) is a function given by the caller.
 */
module Regions {
  import opened MedianBackground

  /** `boundingRect`: top-left corner, width and height. */
  datatype Box = Box(x: int, y: int, w: int, h: int)

  /** An outer contour as the filter sees it. */
  datatype Contour = Contour(area: real, box: Box)

  /** The contours the loop keeps, in the order `findContours` found them. */
  function Kept(contours: seq<Contour>, minSize: int): (r: seq<Contour>)
    ensures forall c :: c in r <==> c in contours && c.area >= minSize as real
    ensures |r| <= |contours|
  {
    if contours == [] then []
    else
      var rest := Kept(contours[1..], minSize);
      assert forall c :: c in contours <==> c == contours[0] || c in contours[1..];
      if contours[0].area >= minSize as real then [contours[0]] + rest else rest
  }

  /**
   * The filter keeps discovery order: filtering a concatenation is the
   * concatenation of the filtered parts.
   */
  lemma {:induction false} KeptConcat(a: seq<Contour>, b: seq<Contour>, minSize: int)
    ensures Kept(a + b, minSize) == Kept(a, minSize) + Kept(b, minSize)
    decreases |a|
  {
    if a != [] {
      assert (a + b)[1..] == a[1..] + b;
      KeptConcat(a[1..], b, minSize);
    } else {
      assert a + b == b;
    }
  }

  /** The bounding boxes of the given contours, in order. */
  function Boxes(contours: seq<Contour>): (r: seq<Box>)
    ensures |r| == |contours| && forall i | 0 <= i < |r| :: r[i] == contours[i].box
  {
    seq(|contours|, i requires 0 <= i < |contours| => contours[i].box)
  }

  /** `frame` after drawing each box in turn, first box first. */
  function DrawAll(draw: (Frame, Box) -> Frame, frame: Frame, boxes: seq<Box>): Frame
  {
    if boxes == [] then frame
    else draw(DrawAll(draw, frame, boxes[..|boxes| - 1]), boxes[|boxes| - 1])
  }

  /** Looking at one more contour adds its box exactly when it is large enough. */
  lemma KeptStep(contours: seq<Contour>, i: nat, minSize: int)
    requires i < |contours|
    ensures Boxes(Kept(contours[..i + 1], minSize)) ==
            Boxes(Kept(contours[..i], minSize)) +
            (if contours[i].area >= minSize as real then [contours[i].box] else [])
  {
    assert contours[..i + 1] == contours[..i] + [contours[i]];
    KeptConcat(contours[..i], [contours[i]], minSize);
    assert Kept([contours[i]], minSize) == if contours[i].area >= minSize as real then [contours[i]] else [];
  }

  /**
   * The loop over the contours: a contour whose area is at least
   * `minSize` has its bounding box drawn on the frame, in discovery order.
   * Returns the drawn frame and the boxes drawn.
   */
  method DrawRegions(draw: (Frame, Box) -> Frame, frame: Frame, contours: seq<Contour>, minSize: int)
    returns (annotated: Frame, boxes: seq<Box>)
    ensures boxes == Boxes(Kept(contours, minSize))
    ensures annotated == DrawAll(draw, frame, boxes)
  {
    annotated, boxes := frame, [];
    for i := 0 to |contours|
      invariant boxes == Boxes(Kept(contours[..i], minSize))
      invariant annotated == DrawAll(draw, frame, boxes)
    {
      var c := contours[i];
      KeptStep(contours, i, minSize);
      if c.area >= minSize as real {
        ghost var before := boxes;
        boxes := boxes + [c.box];
        annotated := draw(annotated, c.box);
        assert boxes[..|boxes| - 1] == before;
      }
    }
    assert contours[..|contours|] == contours;
  }
}
