/** The bounded history of one service's memory, and why it is deep enough: what
    it says about growth is what the whole history since the service appeared
    would say. */
module Rings {
  import opened Basics
  import opened Episode

  /** How often services are sampled, in nanoseconds. */
  const SERVICE_INTERVAL: int := 5_000_000_000

  datatype Point = Point(at: Time, anon: nat)

  /** How a service grew: from its lowest point in the window to its latest. */
  datatype Measure = Measure(before: nat, size: nat, window: int)

  // ---------------------------------------------------------------- slots

  lemma {:induction false} MulGrows(d: int, m: int)
    requires m > 0
    ensures d >= 1 ==> d * m >= m
    ensures d <= -1 ==> d * m <= -m
  {
  }

  lemma {:induction false} ModIs(x: int, m: int, q: int, r: int)
    requires m > 0 && x == q * m + r && 0 <= r < m
    ensures x % m == r
  {
    var d := q - x / m;
    assert d * m == x % m - r;
    MulGrows(d, m);
  }

  /** Where the i-th newest point of a ring lies. */
  function Slot(next: nat, i: nat, depth: nat): (s: nat)
    requires next < depth && i < depth
    ensures s < depth
  {
    if i < next then next - 1 - i else next - 1 - i + depth
  }

  lemma {:induction false} SlotIs(next: nat, i: nat, depth: nat)
    requires next < depth && i < depth
    ensures (next - 1 - i + 2 * depth) % depth == Slot(next, i, depth)
    ensures (next - 1 + depth) % depth == Slot(next, 0, depth)
    ensures (next + 1) % depth == if next + 1 == depth then 0 else next + 1
  {
    if i < next { ModIs(next - 1 - i + 2 * depth, depth, 2, Slot(next, i, depth)); }
    else { ModIs(next - 1 - i + 2 * depth, depth, 1, Slot(next, i, depth)); }
    if 0 < next { ModIs(next - 1 + depth, depth, 1, next - 1); } else { ModIs(next - 1 + depth, depth, 0, depth - 1); }
    if next + 1 == depth { ModIs(next + 1, depth, 1, 0); } else { ModIs(next + 1, depth, 0, next + 1); }
  }

  // ---------------------------------------------------------------- growth

  predicate InWindow(p: Point, at: Time, window: int) { at - p.at <= window }

  /** How many of the newest points lie in the window, up to the first that does
      not. */
  function Reached(c: seq<Point>, at: Time, window: int): (n: nat)
    ensures n <= |c|
    ensures forall i :: 0 <= i < n ==> InWindow(c[i], at, window)
    ensures n < |c| ==> !InWindow(c[n], at, window)
  {
    if c == [] || !InWindow(c[0], at, window) then 0 else 1 + Reached(c[1..], at, window)
  }

  /** The position of the lowest of the n newest points, the newest such one. */
  function Lowest(c: seq<Point>, n: nat): (l: nat)
    requires 0 < n <= |c|
    ensures l < n
    ensures forall i :: 0 <= i < n ==> c[l].anon <= c[i].anon
    ensures forall i :: 0 <= i < l ==> c[l].anon < c[i].anon
  {
    if n == 1 then 0
    else
      var l := Lowest(c, n - 1);
      if c[n - 1].anon < c[l].anon then n - 1 else l
  }

  /** What a history (newest first) says about growth in the window ending at
      `at`; it needs two points in the window. */
  function Growth(c: seq<Point>, at: Time, window: int): Option<Measure> {
    if |c| < 2 then None
    else
      var n := Reached(c, at, window);
      if n < 2 then None
      else
        var low := c[Lowest(c, n)];
        Some(Measure(low.anon, c[0].anon, c[0].at - low.at))
  }

  /** The lowest of the n newest points; the latest one when n is 0. */
  ghost function LowestOf(c: seq<Point>, n: nat): Point
    requires n <= |c| && c != []
  {
    if n == 0 then c[0] else c[Lowest(c, n)]
  }

  lemma {:induction false} LowestStep(c: seq<Point>, n: nat)
    requires n < |c|
    ensures LowestOf(c, n + 1) == if c[n].anon < LowestOf(c, n).anon then c[n] else LowestOf(c, n)
  {
  }

  lemma {:induction false} ReachedIs(c: seq<Point>, at: Time, window: int, n: nat)
    requires n <= |c| && forall i :: 0 <= i < n ==> InWindow(c[i], at, window)
    requires n < |c| ==> !InWindow(c[n], at, window)
    ensures Reached(c, at, window) == n
  {
    if n > 0 { ReachedIs(c[1..], at, window, n - 1); }
  }

  class Ring {
    const points: array<Point>
    var next: nat
    var n: nat

    ghost predicate Valid()
      reads this
    {
      next < points.Length && n <= points.Length
    }

    /** The points held, newest first. */
    ghost function Contents(): (c: seq<Point>)
      requires Valid()
      reads this, points
      ensures |c| == n
    {
      seq(n, i requires 0 <= i < n && Valid() reads this, points => points[Slot(next, i, points.Length)])
    }

    constructor (depth: nat)
      requires depth > 0
      ensures Valid() && fresh(points) && points.Length == depth && Contents() == []
    {
      points := new Point[depth](_ => Point(0, 0));
      next, n := 0, 0;
    }

    method Add(p: Point)
      requires Valid()
      modifies this, points
      ensures Valid()
      ensures var all := [p] + old(Contents());
              Contents() == if |all| > points.Length then all[..points.Length] else all
    {
      ghost var c, was, depth := Contents(), next, points.Length;
      SlotIs(next, 0, depth);
      points[next] := p;
      next := (next + 1) % points.Length;
      if n < points.Length { n := n + 1; }
      forall i | 0 <= i < n ensures Contents()[i] == ([p] + c)[i] {
        if i > 0 {
          assert Slot(next, i, depth) == Slot(was, i - 1, depth) != was;
        }
      }
    }

    method Reset()
      requires Valid()
      modifies this
      ensures Valid() && Contents() == []
    {
      next, n := 0, 0;
    }

    method Latest() returns (p: Point)
      requires Valid() && n > 0
      ensures p == Contents()[0]
    {
      SlotIs(next, 0, points.Length);
      p := points[(next - 1 + points.Length) % points.Length];
    }

    /** Measures the growth from the lowest point of the window to the latest,
        walking back until the window ends. */
    method Grown(at: Time, window: int) returns (m: Option<Measure>)
      requires Valid()
      ensures m == Growth(Contents(), at, window)
    {
      hide Lowest, Reached, Slot;
      if n < 2 { return None; }
      var latest := Latest();
      var low, samples := latest, 0;
      ghost var c := Contents();
      for i := 0 to n
        invariant samples == i
        invariant forall k :: 0 <= k < i ==> InWindow(c[k], at, window)
        invariant low == LowestOf(c, i)
      {
        SlotIs(next, i, points.Length);
        var p := points[(next - 1 - i + 2 * points.Length) % points.Length];
        assert p == c[i];
        if at - p.at > window { break; }
        LowestStep(c, i);
        samples := samples + 1;
        if p.anon < low.anon { low := p; }
      }
      ReachedIs(c, at, window, samples);
      if samples < 2 { return None; }
      return Some(Measure(low.anon, latest.anon, latest.at - low.at));
    }
  }

  // ---------------------------------------------------------------- depth

  /** How deep a ring is made for a window; the division truncates. */
  function Depth(window: int): (d: nat)
    ensures d >= 1 && d * SERVICE_INTERVAL > window
    ensures window >= 0 ==> (d - 1) * SERVICE_INTERVAL <= window
  {
    var q := if window >= 0 then window / SERVICE_INTERVAL else -(-window / SERVICE_INTERVAL);
    if q + 1 > 1 then q + 1 else 1
  }

  /** A history, newest first, whose samples are at least an interval apart. */
  ghost predicate Spaced(h: seq<Point>) {
    forall i :: 0 < i < |h| ==> h[i - 1].at - h[i].at >= SERVICE_INTERVAL
  }

  lemma {:induction false} SpacedFar(h: seq<Point>, i: nat)
    requires Spaced(h) && i < |h|
    ensures h[0].at - h[i].at >= i * SERVICE_INTERVAL
  {
    if i > 0 { SpacedFar(h, i - 1); }
  }

  function Recent(h: seq<Point>, depth: nat): seq<Point> {
    if |h| > depth then h[..depth] else h
  }

  /** m is the growth the whole history h shows in the window: m tells the latest
      point from the lowest one in the window, the most recent if several. */
  ghost predicate Shows(h: seq<Point>, at: Time, window: int, m: Measure) {
    exists l :: 0 <= l < |h| && at - h[l].at <= window
      && m == Measure(h[l].anon, h[0].anon, h[0].at - h[l].at)
      && (forall i :: 0 <= i < |h| && at - h[i].at <= window ==> h[l].anon <= h[i].anon)
      && (forall i :: 0 <= i < l && at - h[i].at <= window ==> h[l].anon < h[i].anon)
  }

  ghost predicate TwoInWindow(h: seq<Point>, at: Time, window: int) {
    exists i, j :: 0 <= i < j < |h| && at - h[i].at <= window && at - h[j].at <= window
  }

  /** Every point of a spaced history that lies in the window is still in the
      ring, and the window is reached without a gap. */
  lemma {:induction false} WindowReached(h: seq<Point>, at: Time, window: int, i: nat)
    requires Spaced(h) && i < |h| && at >= h[0].at && InWindow(h[i], at, window)
    ensures i < Depth(window) && i < Reached(Recent(h, Depth(window)), at, window)
  {
    SpacedFar(h, i);
    assert i * SERVICE_INTERVAL <= window;
    assert i <= window / SERVICE_INTERVAL;
    var c := Recent(h, Depth(window));
    var n := Reached(c, at, window);
    if n <= i { Older(h, n, i); }
  }

  lemma {:induction false} Older(h: seq<Point>, n: nat, i: nat)
    requires Spaced(h) && n <= i < |h|
    ensures h[n].at >= h[i].at
  {
    if n < i { Older(h, n, i - 1); }
  }

  lemma {:induction false} ShowsLowest(h: seq<Point>, at: Time, window: int, n: nat)
    requires Spaced(h) && h != [] && at >= h[0].at
    requires n == Reached(Recent(h, Depth(window)), at, window) && n >= 1
    ensures var low := h[Lowest(Recent(h, Depth(window)), n)];
            Shows(h, at, window, Measure(low.anon, h[0].anon, h[0].at - low.at)) && low.anon <= h[0].anon
  {
    hide Depth, Spaced, Reached;
    var c := Recent(h, Depth(window));
    var l := Lowest(c, n);
    assert l < n <= |c|;
    forall i | 0 <= i < |h| && InWindow(h[i], at, window) ensures i < n && h[l].anon <= h[i].anon {
      WindowReached(h, at, window, i);
      assert c[i] == h[i];
    }
    forall i | 0 <= i < l ensures h[l].anon < h[i].anon { assert c[i] == h[i]; }
    assert InWindow(c[l], at, window) && c[l] == h[l];
  }

  /** The bounded ring measures what the unbounded history shows. */
  lemma {:induction false} RingMeasuresHistory(h: seq<Point>, at: Time, window: int)
    requires Spaced(h) && (h != [] ==> at >= h[0].at)
    ensures var m := Growth(Recent(h, Depth(window)), at, window);
            && (m.Some? <==> TwoInWindow(h, at, window))
            && (m.Some? ==> Shows(h, at, window, m.value) && m.value.before <= m.value.size)
  {
    hide Shows, Lowest, Spaced, Depth;
    var c := Recent(h, Depth(window));
    var n := Reached(c, at, window);
    if TwoInWindow(h, at, window) {
      var i, j :| 0 <= i < j < |h| && InWindow(h[i], at, window) && InWindow(h[j], at, window);
      WindowReached(h, at, window, j);
    }
    if n >= 2 {
      assert InWindow(c[0], at, window) && InWindow(c[1], at, window) && c[0] == h[0] && c[1] == h[1];
      ShowsLowest(h, at, window, n);
      assert c[Lowest(c, n)] == h[Lowest(c, n)];
    }
  }

  /** The history shows one growth only. */
  lemma {:induction false} ShowsOne(h: seq<Point>, at: Time, window: int, a: Measure, b: Measure)
    requires Shows(h, at, window, a) && Shows(h, at, window, b)
    ensures a == b
  {
  }
}
