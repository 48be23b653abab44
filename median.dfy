/**
 * The per-pixel median background of `_generate_median_frame`: numpy's
 * `median(frames, axis=0)` followed by `.astype(uint8)`.
 *
 * A frame is its flat sequence of 8-bit samples (rows, columns and channels
 * laid out in one order); the median runs independently at every position.
 * For an even number of frames numpy averages the two middle values in
 * floating point and the cast truncates, which for non-negative samples is
 * the floor of their mean.
 */
module MedianBackground {
  import opened Wrappers

  /** One 8-bit sample (`uint8`). */
  type Sample = x: int | 0 <= x < 256

  /** A frame: its samples in a fixed flat order. */
  type Frame = seq<Sample>

  /** What a read hands back and the buffer stores: a frame, or Python's `None`. */
  datatype Slot = NoFrame | Img(px: Frame)

  /** Why numpy cannot take the median of the stack. */
  datatype MedianError =
    | EmptyStack   // no frames at all
    | NotUniform   // a `None` entry, or frames of different shapes

  ghost predicate Sorted(s: seq<int>)
  {
    forall i, j :: 0 <= i < j < |s| ==> s[i] <= s[j]
  }

  function Insert(x: int, s: seq<int>): (r: seq<int>)
    ensures |r| == |s| + 1
    ensures r[0] == x || (s != [] && r[0] == s[0])
  {
    if s == [] || x <= s[0] then [x] + s else [s[0]] + Insert(x, s[1..])
  }

  lemma {:induction false} InsertSorted(x: int, s: seq<int>)
    requires Sorted(s)
    ensures Sorted(Insert(x, s))
  {
    if s != [] && x > s[0] {
      var rest := Insert(x, s[1..]);
      InsertSorted(x, s[1..]);
      assert s[0] <= rest[0];
      assert forall k | 0 <= k < |rest| :: rest[0] <= rest[k];
    }
  }

  lemma {:induction false} InsertMultiset(x: int, s: seq<int>)
    ensures multiset(Insert(x, s)) == multiset(s) + multiset{x}
  {
    if s != [] && x > s[0] {
      assert s == [s[0]] + s[1..];
      InsertMultiset(x, s[1..]);
    }
  }

  /** The values of `s` in ascending order. */
  function Sort(s: seq<int>): (r: seq<int>)
    ensures Sorted(r) && multiset(r) == multiset(s)
  {
    if s == [] then []
    else
      assert s == [s[0]] + s[1..];
      InsertSorted(s[0], Sort(s[1..]));
      InsertMultiset(s[0], Sort(s[1..]));
      Insert(s[0], Sort(s[1..]))
  }

  lemma CountAtMostLength(s: seq<int>, v: int)
    ensures multiset(s)[v] <= |s|
  {
  }

  /** In a sorted sequence, a value above position `p` occurs only after it. */
  lemma CountAbove(t: seq<int>, p: nat, v: int)
    requires Sorted(t) && p < |t| && t[p] < v
    ensures multiset(t)[v] <= |t| - p - 1
  {
    assert t == t[..p + 1] + t[p + 1..];
    assert v !in t[..p + 1];
    CountAtMostLength(t[p + 1..], v);
  }

  /** In a sorted sequence, a value below position `p` occurs only before it. */
  lemma CountBelow(t: seq<int>, p: nat, v: int)
    requires Sorted(t) && p < |t| && v < t[p]
    ensures multiset(t)[v] <= p
  {
    assert t == t[..p] + t[p..];
    assert v !in t[p..];
    CountAtMostLength(t[..p], v);
  }

  /**
   * In a sorted sequence a value that fills more than half of it sits at
   * both middle positions.
   */
  lemma MajorityAtMiddle(t: seq<int>, v: int, p: nat)
    requires Sorted(t) && 2 * multiset(t)[v] > |t|
    requires p == |t| / 2 || (|t| % 2 == 0 && p == |t| / 2 - 1)
    requires p < |t|
    ensures t[p] == v
  {
    if t[p] < v {
      CountAbove(t, p, v);
    } else if t[p] > v {
      CountBelow(t, p, v);
    }
  }

  /** The middle of a sorted list: numpy's median, truncated to an integer. */
  function Middle(t: seq<int>): int
    requires |t| > 0
  {
    var n := |t|;
    if n % 2 == 1 then t[n / 2] else (t[n / 2 - 1] + t[n / 2]) / 2
  }

  /** The middle of the sorted samples lies between two of the samples. */
  lemma MiddleBetween(vals: seq<int>)
    requires |vals| > 0
    ensures exists i :: 0 <= i < |vals| && vals[i] <= Middle(Sort(vals))
    ensures exists j :: 0 <= j < |vals| && Middle(Sort(vals)) <= vals[j]
  {
    var t := Sort(vals);
    var n := |t|;
    var lo := if n % 2 == 1 then t[n / 2] else t[n / 2 - 1];
    var hi := t[n / 2];
    assert lo <= Middle(t) <= hi;
    assert lo in multiset(vals) && hi in multiset(vals);
    var i :| 0 <= i < |vals| && vals[i] == lo;
    var j :| 0 <= j < |vals| && vals[j] == hi;
  }

  /** A value held by more than half of the samples is the middle. */
  lemma MiddleOfMajority(vals: seq<int>, v: int)
    requires |vals| > 0 && 2 * multiset(vals)[v] > |vals|
    ensures Middle(Sort(vals)) == v
  {
    var t := Sort(vals);
    var n := |t|;
    MajorityAtMiddle(t, v, n / 2);
    if n % 2 == 0 {
      MajorityAtMiddle(t, v, n / 2 - 1);
    }
  }

  /**
   * numpy's median of a non-empty list of samples: the middle value for an odd
   * count, the floor of the mean of the two middle values for an even one.
   * It lies between the smallest and the largest sample, and a value held by
   * more than half of the samples is the median.
   */
  function MedianOf(vals: seq<int>): (m: int)
    requires |vals| > 0
    ensures exists i :: 0 <= i < |vals| && vals[i] <= m
    ensures exists j :: 0 <= j < |vals| && m <= vals[j]
    ensures forall v :: 2 * multiset(vals)[v] > |vals| ==> m == v
  {
    MiddleBetween(vals);
    assert forall v :: 2 * multiset(vals)[v] > |vals| ==> Middle(Sort(vals)) == v by {
      forall v | 2 * multiset(vals)[v] > |vals| {
        MiddleOfMajority(vals, v);
      }
    }
    Middle(Sort(vals))
  }

  /** Every entry is a frame with `w` samples. */
  predicate Uniform(stack: seq<Slot>, w: nat)
  {
    forall k | 0 <= k < |stack| :: stack[k].Img? && |stack[k].px| == w
  }

  /** The samples at position `p` across the stack, oldest first. */
  function Column(stack: seq<Slot>, p: nat): (c: seq<int>)
    requires forall k | 0 <= k < |stack| :: stack[k].Img? && p < |stack[k].px|
    ensures |c| == |stack|
    ensures forall k | 0 <= k < |c| :: c[k] == stack[k].px[p]
  {
    if stack == [] then [] else [stack[0].px[p]] + Column(stack[1..], p)
  }

  /** The median sample at position `p`. */
  function MedianPixel(stack: seq<Slot>, w: nat, p: nat): Sample
    requires stack != [] && Uniform(stack, w) && p < w
  {
    var c := Column(stack, p);
    var m := MedianOf(c);
    assert exists i :: 0 <= i < |c| && c[i] <= m;
    assert exists j :: 0 <= j < |c| && m <= c[j];
    m
  }

  /**
   * `median(frames, axis=0).astype(uint8)`: the per-position median frame.
   * It fails on an empty stack and on a stack holding `None` or frames of
   * different shapes; otherwise every sample of the result lies between the
   * smallest and the largest sample the stack holds at that position.
   */
  function MedianFrame(stack: seq<Slot>): (r: Result<Frame, MedianError>)
    ensures stack == [] <==> r == Err(EmptyStack)
    ensures r.Ok? <==> stack != [] && stack[0].Img? && Uniform(stack, |stack[0].px|)
    ensures r.Ok? ==> |r.value| == |stack[0].px|
    ensures r.Ok? ==> forall p | 0 <= p < |r.value| ::
              (exists k :: 0 <= k < |stack| && stack[k].px[p] <= r.value[p]) &&
              (exists k :: 0 <= k < |stack| && r.value[p] <= stack[k].px[p])
  {
    if stack == [] then Err(EmptyStack)
    else if !stack[0].Img? || !Uniform(stack, |stack[0].px|) then Err(NotUniform)
    else
      var w := |stack[0].px|;
      Ok(seq(w, p requires 0 <= p < w => MedianPixel(stack, w, p)))
  }

  /** A slot held by more than half of the stack is held as often in every column. */
  lemma {:induction false} ColumnCount(stack: seq<Slot>, f: Frame, p: nat)
    requires Uniform(stack, |f|) && p < |f|
    ensures multiset(Column(stack, p))[f[p]] >= multiset(stack)[Img(f)]
  {
    if stack != [] {
      assert stack == [stack[0]] + stack[1..];
      ColumnCount(stack[1..], f, p);
      assert Column(stack, p) == [stack[0].px[p]] + Column(stack[1..], p);
    }
  }

  /**
   * Robustness of the median: a frame that fills more than half of the
   * buffer (all frames of its shape) is the background, whatever the others hold.
   */
  lemma MedianFrameOfMajority(stack: seq<Slot>, f: Frame)
    requires Uniform(stack, |f|)
    requires 2 * multiset(stack)[Img(f)] > |stack|
    ensures MedianFrame(stack) == Ok(f)
  {
    assert Img(f) in multiset(stack);
    assert stack != [] && stack[0].Img? && |stack[0].px| == |f|;
    var r := MedianFrame(stack);
    forall p | 0 <= p < |f|
      ensures r.value[p] == f[p]
    {
      ColumnCount(stack, f, p);
      assert r.value[p] == MedianOf(Column(stack, p));
    }
    assert r.value == f;
  }

  lemma {:induction false} CountAllEqual(stack: seq<Slot>, s: Slot)
    requires forall k | 0 <= k < |stack| :: stack[k] == s
    ensures multiset(stack)[s] == |stack|
  {
    if stack != [] {
      assert stack == [stack[0]] + stack[1..];
      CountAllEqual(stack[1..], s);
    }
  }

  lemma CountAllBut(stack: seq<Slot>, s: Slot, i: nat)
    requires i < |stack|
    requires forall k | 0 <= k < |stack| && k != i :: stack[k] == s
    ensures multiset(stack)[s] >= |stack| - 1
  {
    assert stack == stack[..i] + [stack[i]] + stack[i + 1..];
    CountAllEqual(stack[..i], s);
    CountAllEqual(stack[i + 1..], s);
  }

  /**
   * A single outlier frame, however extreme, does not move the background
   * of a stack of more than two frames whose other frames all equal `f`.
   */
  lemma MedianFrameRejectsOutlier(stack: seq<Slot>, f: Frame, i: nat)
    requires |stack| > 2 && i < |stack|
    requires Uniform(stack, |f|)
    requires forall k | 0 <= k < |stack| && k != i :: stack[k] == Img(f)
    ensures MedianFrame(stack) == Ok(f)
  {
    CountAllBut(stack, Img(f), i);
    MedianFrameOfMajority(stack, f);
  }
}
