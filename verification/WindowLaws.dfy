/** How often windows count a point, and what their totals add up to. */
module WindowLaws {
  import opened Common
  import opened AggregationWindow

  // ---------------------------------------------------------------- the result is determined

  lemma SpanUnique(points: seq<DataPoint>, a: int, b: int, c: int, d: int)
    requires IsSpan(points, a, b) && IsSpan(points, c, d)
    ensures a == c && b == d
  {
  }

  lemma SeriesUnique(v: seq<Window>, w: seq<Window>, points: seq<DataPoint>, first: int, last: int, step: int,
                     size: int)
    requires step > 0 && Series(v, points, first, last, step, size) && Series(w, points, first, last, step, size)
    ensures v == w
  {
  }

  /** The series over the points is unique, so a sliding aggregation with step = size returns the tumbling one. */
  lemma CoversUnique(v: seq<Window>, w: seq<Window>, points: seq<DataPoint>, size: int, step: int, origin: int)
    requires size > 0 && step > 0 && Covers(v, points, size, step, origin) && Covers(w, points, size, step, origin)
    ensures v == w
  {
    if points != [] {
      var lo, hi :| IsSpan(points, lo, hi) && Series(v, points, WindowStartFor(lo, size, origin), hi, step, size);
      var lo', hi' :| IsSpan(points, lo', hi') && Series(w, points, WindowStartFor(lo', size, origin), hi', step, size);
      SpanUnique(points, lo, hi, lo', hi');
      SeriesUnique(v, w, points, WindowStartFor(lo, size, origin), hi, step, size);
    }
  }

  // ---------------------------------------------------------------- multiplicity

  /** How many of the first `n` windows contain the timestamp. */
  function Multiplicity(t: int, first: int, step: int, size: int, n: nat): nat {
    if n == 0 then 0
    else Multiplicity(t, first, step, size, n - 1)
         + if first + (n - 1) * step <= t < first + (n - 1) * step + size then 1 else 0
  }

  lemma InsideIff(d: int, k: int, step: int, size: int)
    requires step > 0
    ensures k * step <= d < k * step + size <==> (d - size) / step < k <= d / step
  {
    FloorBounds(d, step);
    FloorBounds(d - size, step);
    if k <= d / step { MulMono(k, d / step, step); } else { MulMono(d / step + 1, k, step); }
    if (d - size) / step < k { MulMono((d - size) / step + 1, k, step); } else { MulMono(k, (d - size) / step, step); }
  }

  lemma {:induction false} MultiplicityBetween(d: int, first: int, step: int, size: int, n: nat)
    requires step > 0
    ensures Multiplicity(first + d, first, step, size, n) ==
      Max(0, Min(n - 1, d / step) - Max(-1, (d - size) / step))
  {
    if n > 0 {
      MultiplicityBetween(d, first, step, size, n - 1);
      InsideIff(d, n - 1, step, size);
    }
  }

  /** Windows before a start after `last` include every window whose start is not after `d`. */
  lemma LastWindow(d: int, span: int, step: int, n: int)
    requires step > 0 && d <= span < n * step
    ensures d / step <= n - 1
  {
  }

  /**
   * A point at distance `d` from the first start is counted in exactly
   * floor(d / step) - max(-1, floor((d - size) / step)) windows.
   */
  lemma PointMultiplicity(t: int, first: int, last: int, step: int, size: int, n: nat)
    requires step > 0 && size > 0 && first <= t <= last < first + n * step
    ensures Multiplicity(t, first, step, size, n) == (t - first) / step - Max(-1, (t - first - size) / step)
  {
    var d := t - first;
    MultiplicityBetween(d, first, step, size, n);
    LastWindow(d, last - first, step, n);
    FloorBounds(d, step);
    FloorBounds(d - size, step);
    if d / step < 0 { MulMono(d / step + 1, 0, step); }
    if (d - size) / step > d / step { MulMono(d / step + 1, (d - size) / step, step); }
  }

  lemma ShiftedFloor(d: int, m: int, step: int)
    requires step > 0
    ensures (d - m * step) / step == d / step - m
  {
    FloorBounds(d, step);
    assert (d / step - m) * step == d / step * step - m * step;
    assert (d / step - m + 1) * step == (d / step + 1) * step - m * step;
    FloorIs(d - m * step, step, d / step - m);
  }

  /** When the step divides the size into `m` parts, every point but those of the opening ramp is counted `m` times. */
  lemma EvenMultiplicity(t: int, first: int, last: int, step: int, m: nat, n: nat)
    requires step > 0 && m > 0 && m * step > 0 && first <= t <= last < first + n * step
    ensures Multiplicity(t, first, step, m * step, n) == Min(m, (t - first) / step + 1)
    ensures t - first >= (m - 1) * step ==> Multiplicity(t, first, step, m * step, n) == m
  {
    PointMultiplicity(t, first, last, step, m * step, n);
    ShiftedFloor(t - first, m, step);
    if t - first >= (m - 1) * step { FloorAtLeast(t - first, m - 1, step); }
  }

  lemma FloorAtLeast(d: int, k: int, step: int)
    requires step > 0 && d >= k * step
    ensures d / step >= k
  {
    FloorBounds(d, step);
    if d / step < k { MulMono(d / step + 1, k, step); }
  }

  /** A point is counted at all just when it does not fall into the gap a step longer than the window leaves. */
  lemma CountedIff(t: int, first: int, last: int, step: int, size: int, n: nat)
    requires step > 0 && size > 0 && first <= t <= last < first + n * step
    ensures Multiplicity(t, first, step, size, n) > 0 <==> (t - first) % step < size
  {
    var d := t - first;
    var q := d / step;
    PointMultiplicity(t, first, last, step, size, n);
    FloorBounds(d, step);
    FloorBounds(d - size, step);
    InsideIff(d, q, step, size);
    if q < 0 { MulMono(q + 1, 0, step); }
  }

  // ---------------------------------------------------------------- totals

  function CountTotal(ws: seq<Window>): nat {
    if ws == [] then 0 else CountTotal(ws[..|ws| - 1]) + ws[|ws| - 1].count
  }

  function SumTotal(ws: seq<Window>): real {
    if ws == [] then 0.0 else SumTotal(ws[..|ws| - 1]) + ws[|ws| - 1].sum
  }

  /** Points counted by the first `n` windows of a series, with multiplicity. */
  function Counted(points: seq<DataPoint>, first: int, step: int, size: int, n: nat): nat {
    if points == [] then 0
    else Counted(points[..|points| - 1], first, step, size, n)
         + Multiplicity(points[|points| - 1].timestamp, first, step, size, n)
  }

  function Weighted(points: seq<DataPoint>, first: int, step: int, size: int, n: nat): real {
    if points == [] then 0.0
    else Weighted(points[..|points| - 1], first, step, size, n)
         + Times(points[|points| - 1].value, Multiplicity(points[|points| - 1].timestamp, first, step, size, n))
  }

  /** One more window counts exactly the points inside it once more. */
  lemma {:induction false} OneMoreCount(points: seq<DataPoint>, first: int, step: int, size: int, n: nat)
    ensures Counted(points, first, step, size, n + 1) ==
      Counted(points, first, step, size, n) + |Select(points, first + n * step, first + n * step + size)|
  {
    if points != [] { OneMoreCount(points[..|points| - 1], first, step, size, n); }
  }

  lemma SelectSum(points: seq<DataPoint>, start: int, end: int)
    requires points != []
    ensures var p := points[|points| - 1];
      Sum(Select(points, start, end)) ==
      Sum(Select(points[..|points| - 1], start, end)) + if Inside(p, start, end) then p.value else 0.0
  {
    var before, p := Select(points[..|points| - 1], start, end), points[|points| - 1];
    SumSnoc(before, p);
    assert before + [] == before;
  }

  lemma {:induction false} OneMoreSum(points: seq<DataPoint>, first: int, step: int, size: int, n: nat)
    ensures Weighted(points, first, step, size, n + 1) ==
      Weighted(points, first, step, size, n) + Sum(Select(points, first + n * step, first + n * step + size))
  {
    if points != [] {
      var start := first + n * step;
      OneMoreSum(points[..|points| - 1], first, step, size, n);
      SelectSum(points, start, start + size);
    }
  }

  lemma {:induction false} NoWindows(points: seq<DataPoint>, first: int, step: int, size: int)
    ensures Counted(points, first, step, size, 0) == 0 && Weighted(points, first, step, size, 0) == 0.0
  {
    if points != [] { NoWindows(points[..|points| - 1], first, step, size); }
  }

  /** Double counting: summing over windows is summing over points with multiplicity. */
  lemma {:induction false} TotalsByPoint(ws: seq<Window>, points: seq<DataPoint>, first: int, step: int, size: int)
    requires forall k :: 0 <= k < |ws| ==> Summarises(ws[k], points, first + k * step, first + k * step + size)
    ensures CountTotal(ws) == Counted(points, first, step, size, |ws|)
    ensures SumTotal(ws) == Weighted(points, first, step, size, |ws|)
  {
    if ws == [] {
      NoWindows(points, first, step, size);
    } else {
      TotalsByPoint(ws[..|ws| - 1], points, first, step, size);
      OneMoreCount(points, first, step, size, |ws| - 1);
      OneMoreSum(points, first, step, size, |ws| - 1);
    }
  }

  lemma {:induction false} AllOnce(points: seq<DataPoint>, first: int, step: int, size: int, n: nat)
    requires forall k :: 0 <= k < |points| ==> Multiplicity(points[k].timestamp, first, step, size, n) == 1
    ensures Counted(points, first, step, size, n) == |points| && Weighted(points, first, step, size, n) == Sum(points)
  {
    if points != [] {
      var v := points[|points| - 1].value;
      AllOnce(points[..|points| - 1], first, step, size, n);
      assert Times(v, 1) == Times(v, 0) + v;
    }
  }

  lemma TumblingOnce(t: int, first: int, last: int, size: int, n: nat)
    requires size > 0 && first <= t <= last < first + n * size
    ensures Multiplicity(t, first, size, size, n) == 1
  {
    EvenMultiplicity(t, first, last, size, 1, n);
    FloorBounds(t - first, size);
    if (t - first) / size < 0 { MulMono((t - first) / size + 1, 0, size); }
  }

  lemma SeriesConserves(ws: seq<Window>, points: seq<DataPoint>, first: int, last: int, size: int)
    requires size > 0 && Series(ws, points, first, last, size, size)
    requires forall k :: 0 <= k < |points| ==> first <= points[k].timestamp <= last
    ensures CountTotal(ws) == |points| && SumTotal(ws) == Sum(points)
  {
    TotalsByPoint(ws, points, first, size, size);
    forall k | 0 <= k < |points|
      ensures Multiplicity(points[k].timestamp, first, size, size, |ws|) == 1
    {
      TumblingOnce(points[k].timestamp, first, last, size, |ws|);
    }
    AllOnce(points, first, size, size, |ws|);
  }

  /** Tumbling windows neither lose nor duplicate a point: their counts and sums add up to those of the input. */
  lemma TumblingConserves(ws: seq<Window>, points: seq<DataPoint>, size: int, origin: int)
    requires size > 0 && Covers(ws, points, size, size, origin)
    ensures CountTotal(ws) == |points| && SumTotal(ws) == Sum(points)
  {
    if points != [] {
      var lo, hi :| IsSpan(points, lo, hi) && Series(ws, points, WindowStartFor(lo, size, origin), hi, size, size);
      WindowStartUnique(lo, size, origin, 0);
      forall k | 0 <= k < |points|
        ensures WindowStartFor(lo, size, origin) <= points[k].timestamp <= hi
      {
        assert points[k] in points;
      }
      SeriesConserves(ws, points, WindowStartFor(lo, size, origin), hi, size);
    }
  }

  // ---------------------------------------------------------------- tumbling is group-by

  /** The points whose window start is `start`, in input order. */
  function Group(points: seq<DataPoint>, size: int, origin: int, start: int): seq<DataPoint>
    requires size > 0
  {
    if points == [] then []
    else
      var last := points[|points| - 1];
      Group(points[..|points| - 1], size, origin, start)
      + if WindowStartFor(last.timestamp, size, origin) == start then [last] else []
  }

  lemma {:induction false} SelectIsGroup(points: seq<DataPoint>, size: int, origin: int, k: int)
    requires size > 0
    ensures Select(points, origin + k * size, origin + k * size + size) ==
      Group(points, size, origin, origin + k * size)
  {
    if points != [] {
      SelectIsGroup(points[..|points| - 1], size, origin, k);
      WindowStartUnique(points[|points| - 1].timestamp, size, origin, k);
    }
  }

  lemma AlignedStart(lo: int, size: int, origin: int, k: int)
    requires size > 0
    ensures WindowStartFor(lo, size, origin) + k * size == origin + ((lo - origin) / size + k) * size
  {
  }

  ghost predicate IsGroupWindow(w: Window, points: seq<DataPoint>, size: int, origin: int)
    requires size > 0
  {
    && (exists q: int :: w.start == origin + q * size) && w.end == w.start + size
    && Select(points, w.start, w.end) == Group(points, size, origin, w.start)
    && Summarises(w, points, w.start, w.end)
  }

  ghost predicate HasWindow(ws: seq<Window>, start: int) {
    exists k :: 0 <= k < |ws| && ws[k].start == start
  }

  lemma StartIndex(a: int, b: int, size: int, n: nat)
    requires size > 0 && a <= b && b * size < a * size + n * size
    ensures b - a < n
  {
  }

  lemma FloorMono(x: int, y: int, d: int)
    requires d > 0 && x <= y
    ensures x / d <= y / d
  {
    FloorBounds(x, d);
    FloorBounds(y, d);
    if y / d < x / d { MulMono(y / d + 1, x / d, d); }
  }

  lemma StartInSeries(ws: seq<Window>, points: seq<DataPoint>, lo: int, hi: int, size: int, origin: int, t: int)
    requires size > 0 && lo <= t <= hi
    requires Series(ws, points, WindowStartFor(lo, size, origin), hi, size, size)
    ensures HasWindow(ws, WindowStartFor(t, size, origin))
  {
    var a, b := (lo - origin) / size, (t - origin) / size;
    FloorMono(lo - origin, t - origin, size);
    FloorBounds(t - origin, size);
    StartIndex(a, b, size, |ws|);
    AlignedStart(lo, size, origin, b - a);
    assert ws[b - a].start == WindowStartFor(lo, size, origin) + (b - a) * size;
  }

  lemma SeriesGroups(ws: seq<Window>, points: seq<DataPoint>, lo: int, hi: int, size: int, origin: int, k: nat)
    requires size > 0 && k < |ws| && Series(ws, points, WindowStartFor(lo, size, origin), hi, size, size)
    ensures IsGroupWindow(ws[k], points, size, origin)
    ensures k + 1 < |ws| ==> ws[k].end == ws[k + 1].start
  {
    var q := (lo - origin) / size + k;
    AlignedStart(lo, size, origin, k);
    SelectIsGroup(points, size, origin, q);
    assert (k + 1) * size == k * size + size;
    assert ws[k].start == origin + q * size;
  }

  /**
   * `aggregateTumbling` refines group-by on `windowStartFor`: its windows are contiguous
   * and origin-aligned, each summarises exactly the group of its start, and every
   * point's group has its window.
   */
  lemma TumblingIsGroupBy(ws: seq<Window>, points: seq<DataPoint>, size: int, origin: int)
    requires size > 0 && Covers(ws, points, size, size, origin)
    ensures forall k :: 0 <= k < |ws| - 1 ==> ws[k].end == ws[k + 1].start
    ensures forall k :: 0 <= k < |ws| ==> IsGroupWindow(ws[k], points, size, origin)
    ensures forall p <- points :: HasWindow(ws, WindowStartFor(p.timestamp, size, origin))
  {
    if points != [] {
      var lo, hi :| IsSpan(points, lo, hi) && Series(ws, points, WindowStartFor(lo, size, origin), hi, size, size);
      forall k | 0 <= k < |ws|
        ensures IsGroupWindow(ws[k], points, size, origin) && (k + 1 < |ws| ==> ws[k].end == ws[k + 1].start)
      {
        SeriesGroups(ws, points, lo, hi, size, origin, k);
      }
      forall p | p in points
        ensures HasWindow(ws, WindowStartFor(p.timestamp, size, origin))
      {
        StartInSeries(ws, points, lo, hi, size, origin, p.timestamp);
      }
    }
  }
}
