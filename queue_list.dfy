/**
 * The bounded frame buffer `QueueList`: a list of at most `max_size` recent
 * items, as the Python class keeps it in its `_list_object` field.
 *
 * Python's slicing and `list.pop` are modelled exactly (negative indices,
 * clamping, IndexError), so the class's quirks follow from its code:
 * with `max_size == 1` the slice `[-0:]` keeps the whole list and the buffer
 * is unbounded, and the `max_size` setter leaves the stored items in place.
 */
module QueueLists {
  import opened Wrappers

  /** The exceptions the buffer's operations can raise. */
  datatype PyError = IndexError

  /** Default capacity of a new buffer. */
  const DefaultMaxSize := 15

  function Min(a: int, b: int): int { if a <= b then a else b }

  /** Python's `s[a:]` for an integer `a`: a negative start counts from the end. */
  function SliceFrom<T>(s: seq<T>, a: int): (r: seq<T>)
    ensures a < 0 ==> r == s[|s| - Min(-a, |s|)..]
    ensures a >= 0 ==> r == s[Min(a, |s|)..]
  {
    if a < 0 then s[if |s| + a < 0 then 0 else |s| + a..]
    else s[if a > |s| then |s| else a..]
  }

  /**
   * The list after `append(x)` on a buffer holding `s` with capacity
   * `maxSize`: when full, the list is cut to `s[-(maxSize - 1):]` first.
   */
  function Appended<T>(s: seq<T>, maxSize: int, x: T): (r: seq<T>)
    ensures |s| < maxSize ==> r == s + [x]
    ensures maxSize >= 2 && |s| >= maxSize ==>
              r == s[|s| - (maxSize - 1)..] + [x] && |r| == maxSize
    ensures maxSize == 1 ==> r == s + [x]
    ensures maxSize <= 0 ==> r == s[Min(1 - maxSize, |s|)..] + [x] && |r| <= |s| + 1
    ensures |r| > 0 && r[|r| - 1] == x
  {
    (if |s| >= maxSize then SliceFrom(s, -(maxSize - 1)) else s) + [x]
  }

  /** The list after appending every element of `xs`, in order. */
  function AppendedAll<T>(s: seq<T>, maxSize: int, xs: seq<T>): seq<T>
    decreases |xs|
  {
    if xs == [] then s else AppendedAll(Appended(s, maxSize, xs[0]), maxSize, xs[1..])
  }

  /** The last `n` elements of `s` (all of `s` when it is shorter). */
  function Window<T>(s: seq<T>, n: nat): (r: seq<T>)
    ensures |r| == Min(n, |s|)
  {
    s[|s| - Min(n, |s|)..]
  }

  /** With a capacity of at least 2, a buffer within capacity stays within it. */
  lemma AppendedKeepsBound<T>(s: seq<T>, maxSize: int, x: T)
    requires maxSize >= 2 && |s| <= maxSize
    ensures |Appended(s, maxSize, x)| <= maxSize
  {
  }

  /** One append on a buffer within capacity keeps the last `maxSize` items. */
  lemma AppendedIsWindow<T>(s: seq<T>, maxSize: int, x: T)
    requires maxSize >= 2 && |s| <= maxSize
    ensures Appended(s, maxSize, x) == Window(s + [x], maxSize)
  {
  }

  /** Dropping a prefix that leaves at least `n` items does not change the window. */
  lemma WindowOfSuffix<T>(t: seq<T>, k: nat, n: nat)
    requires k <= |t| && |t| - k >= Min(n, |t|)
    ensures Window(t[k..], n) == Window(t, n)
  {
  }

  /**
   * The sliding window: from any buffer within a capacity of at least 2,
   * appending `xs` leaves exactly the most recent `maxSize` items of
   * `s + xs`, in arrival order.
   */
  lemma {:induction false} AppendedAllIsWindow<T>(s: seq<T>, maxSize: int, xs: seq<T>)
    requires maxSize >= 2 && |s| <= maxSize
    ensures AppendedAll(s, maxSize, xs) == Window(s + xs, maxSize)
    decreases |xs|
  {
    if xs == [] {
      WindowOfShort(s, maxSize);
    } else {
      var x, rest := xs[0], xs[1..];
      var w := Window(s + [x], maxSize);
      calc {
        AppendedAll(s, maxSize, xs);
      == { AppendedAllStep(s, maxSize, xs); }
        AppendedAll(w, maxSize, rest);
      == { AppendedAllIsWindow(w, maxSize, rest); }
        Window(w + rest, maxSize);
      == { WindowOfWindow(s + [x], rest, maxSize); }
        Window((s + [x]) + rest, maxSize);
      == { assert (s + [x]) + rest == s + xs; }
        Window(s + xs, maxSize);
      }
    }
  }

  /** Unfolding one append of a buffer within capacity, stated with windows. */
  lemma AppendedAllStep<T>(s: seq<T>, maxSize: int, xs: seq<T>)
    requires maxSize >= 2 && |s| <= maxSize && xs != []
    ensures AppendedAll(s, maxSize, xs) == AppendedAll(Window(s + [xs[0]], maxSize), maxSize, xs[1..])
  {
    AppendedIsWindow(s, maxSize, xs[0]);
  }

  /** A sequence no longer than `n` is its own window, with nothing appended. */
  lemma WindowOfShort<T>(s: seq<T>, n: int)
    requires 0 <= n && |s| <= n
    ensures AppendedAll(s, n, []) == Window(s + [], n)
  {
    assert s + [] == s;
  }

  /** Taking the window before appending more items does not change the final window. */
  lemma WindowOfWindow<T>(t: seq<T>, u: seq<T>, n: nat)
    ensures Window(Window(t, n) + u, n) == Window(t + u, n)
  {
    var k := |t| - Min(n, |t|);
    SuffixThenConcat(t, u, k);
    WindowOfSuffix(t + u, k, n);
  }

  lemma SuffixThenConcat<T>(t: seq<T>, u: seq<T>, k: nat)
    requires k <= |t|
    ensures t[k..] + u == (t + u)[k..]
  {
  }

  /** With `max_size == 1` nothing is ever dropped: appends only grow the list. */
  lemma {:induction false} AppendedAllUnboundedAtOne<T>(s: seq<T>, xs: seq<T>)
    ensures AppendedAll(s, 1, xs) == s + xs
    decreases |xs|
  {
    if xs == [] {
      assert s + xs == s;
    } else {
      AppendedAllUnboundedAtOne(s + [xs[0]], xs[1..]);
      assert (s + [xs[0]]) + xs[1..] == s + xs;
    }
  }

  /**
   * With `max_size <= 0` a buffer holding at most one item keeps at most
   * one: every append first drops at least one old item.
   */
  lemma {:induction false} AppendedAllAtMostOneBelowOne<T>(s: seq<T>, maxSize: int, xs: seq<T>)
    requires maxSize <= 0 && |s| <= 1
    ensures |AppendedAll(s, maxSize, xs)| <= 1
    decreases |xs|
  {
    if xs != [] {
      AppendedAllAtMostOneBelowOne(Appended(s, maxSize, xs[0]), maxSize, xs[1..]);
    }
  }

  /**
   * With `max_size == 0` the cut is `[1:]`, so a non-empty buffer keeps its
   * length forever: each append drops exactly the oldest item. (The setter
   * keeps the items, so such a buffer can be longer than one.)
   */
  lemma {:induction false} AppendedAllKeepsLengthAtZero<T>(s: seq<T>, xs: seq<T>)
    requires |s| >= 1
    ensures |AppendedAll(s, 0, xs)| == |s|
    decreases |xs|
  {
    if xs != [] {
      AppendedAllKeepsLengthAtZero(Appended(s, 0, xs[0]), xs[1..]);
    }
  }

  /** Python's `list.pop(i)` index check: the position removed, or None for IndexError. */
  function PopIndex(n: nat, i: int): (j: Option<nat>)
    ensures j.Some? <==> -(n as int) <= i < n
    ensures j.Some? ==> j.value < n && (j.value == i || j.value == n + i)
  {
    var k := if i < 0 then i + n else i;
    if 0 <= k < n then Some(k) else None
  }

  /** `s.pop(i)`: the removed item and the remaining list, or IndexError. */
  function Pop<T>(s: seq<T>, i: int): (r: Result<(T, seq<T>), PyError>)
    ensures r.Ok? <==> -|s| <= i < |s|
    ensures r.Ok? ==> exists j :: 0 <= j < |s| && (j == i || j == |s| + i) &&
                        r.value.0 == s[j] && r.value.1 == s[..j] + s[j + 1..]
    ensures r.Ok? ==> multiset(r.value.1) + multiset{r.value.0} == multiset(s)
  {
    match PopIndex(|s|, i)
    case None => Err(IndexError)
    case Some(j) =>
      assert s == s[..j] + [s[j]] + s[j + 1..];
      Ok((s[j], s[..j] + s[j + 1..]))
  }

  /** `s[i]` with Python's negative indices, or IndexError. */
  function Index<T>(s: seq<T>, i: int): (r: Result<T, PyError>)
    ensures r.Ok? <==> -|s| <= i < |s|
    ensures 0 <= i < |s| ==> r == Ok(s[i])
    ensures -|s| <= i < 0 ==> r == Ok(s[|s| + i])
  {
    if 0 <= i < |s| then Ok(s[i])
    else if -|s| <= i < 0 then Ok(s[|s| + i])
    else Err(IndexError)
  }

  /** `s[-1:][0]`: the last item, or IndexError on an empty list. */
  function Last<T>(s: seq<T>): (r: Result<T, PyError>)
    ensures r.Ok? <==> s != []
    ensures r.Ok? ==> r.value == s[|s| - 1]
  {
    var t := SliceFrom(s, -1);
    if |t| > 0 then Ok(t[0]) else Err(IndexError)
  }

  /** After any append the last item is the one appended. */
  lemma AppendedThenLast<T>(s: seq<T>, maxSize: int, x: T)
    ensures Last(Appended(s, maxSize, x)) == Ok(x)
  {
  }

  class QueueList<T> {
    /** `_list_object`: the stored items, oldest first. */
    var items: seq<T>
    /** `_max_size`: the capacity. */
    var maxSize: int

    /** `QueueList(max_size=15)`: an empty buffer with the given capacity. */
    constructor (maxSize: int := DefaultMaxSize)
      ensures items == [] && this.maxSize == maxSize
    {
      items := [];
      this.maxSize := maxSize;
    }

    /** The `max_size` property getter. */
    function MaxSize(): (m: int)
      reads this
      ensures m == maxSize
    {
      maxSize
    }

    /**
     * The `max_size` setter. It clears the inherited `list` storage, which the
     * class never fills, so the stored items survive the capacity change.
     */
    method SetMaxSize(value: int)
      modifies this
      ensures maxSize == value && items == old(items)
    {
      maxSize := value;
    }

    /** The `to_list` property: the stored items themselves. */
    function ToList(): (r: seq<T>)
      reads this
      ensures r == items
    {
      items
    }

    /** The `size` property. */
    function Size(): (n: nat)
      reads this
      ensures n == |ToList()|
    {
      |items|
    }

    /** `len(q)`, which agrees with `size`. */
    function Length(): (n: nat)
      reads this
      ensures n == Size() && n == |ToList()|
    {
      |items|
    }

    /** `q[i]` for an integer index. */
    function GetItem(i: int): (r: Result<T, PyError>)
      reads this
      ensures r.Ok? <==> -(Size() as int) <= i < Size()
      ensures r.Ok? ==> r.value == ToList()[if i >= 0 then i else Size() + i]
    {
      Index(items, i)
    }

    /** `get_last()`: the newest item, IndexError when empty. */
    function GetLast(): (r: Result<T, PyError>)
      reads this
      ensures r.Ok? <==> Size() > 0
      ensures r.Ok? ==> r.value == ToList()[Size() - 1]
    {
      Last(items)
    }

    /** `pop_first()`: removes and returns the oldest item, or None when empty. */
    method PopFirst() returns (r: Option<T>)
      modifies this
      ensures old(items) == [] ==> r == None && items == []
      ensures old(items) != [] ==> r == Some(old(items)[0]) && items == old(items)[1..]
      ensures maxSize == old(maxSize)
    {
      if |items| > 0 {
        var p := Pop(items, 0);
        r := Some(p.value.0);
        items := p.value.1;
      } else {
        r := None;
      }
    }

    /** `pop_last()`: `pop(len - 1)`, IndexError on an empty buffer. */
    method PopLast() returns (r: Result<T, PyError>)
      modifies this
      ensures old(items) == [] ==> r == Err(IndexError) && items == []
      ensures old(items) != [] ==>
                r == Ok(old(items)[|old(items)| - 1]) && items == old(items)[..|old(items)| - 1]
      ensures maxSize == old(maxSize)
    {
      var p := Pop(items, Length() - 1);
      if p.Ok? {
        r := Ok(p.value.0);
        items := p.value.1;
      } else {
        r := Err(p.error);
      }
    }

    /**
     * `pop_pre_last()`: `pop(len - 2)`. With two or more items it removes the
     * one at `len - 2`; with exactly one, `pop(-1)` removes that one; with
     * none it raises IndexError.
     */
    method PopPreLast() returns (r: Result<T, PyError>)
      modifies this
      ensures |old(items)| >= 2 ==>
                var n := |old(items)|;
                r == Ok(old(items)[n - 2]) && items == old(items)[..n - 2] + [old(items)[n - 1]]
      ensures |old(items)| == 1 ==> r == Ok(old(items)[0]) && items == []
      ensures old(items) == [] ==> r == Err(IndexError) && items == []
      ensures maxSize == old(maxSize)
    {
      var p := Pop(items, Length() - 2);
      if p.Ok? {
        r := Ok(p.value.0);
        items := p.value.1;
      } else {
        r := Err(p.error);
      }
    }

    /** `append(x)`: drops the oldest items when full, then adds `x` at the end. */
    method Append(x: T)
      modifies this
      ensures items == Appended(old(items), old(maxSize), x)
      ensures maxSize == old(maxSize)
      ensures GetLast() == Ok(x)
    {
      if |items| >= maxSize {
        var offset := maxSize - 1;
        items := SliceFrom(items, -offset);
      }
      items := items + [x];
    }
  }
}
