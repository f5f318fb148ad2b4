/**
 * backend/src/services/aggregationWindow.ts: tumbling and sliding half-open
 * windows over timestamped points. Times are integers, values are reals.
 */
module AggregationWindow {
  import opened Common

  datatype WindowConfig = WindowConfig(sizeMs: int, stepMs: Option<int>, originMs: Option<int>)

  datatype ConfigError = BadSize(sizeMs: int) | BadStep(stepMs: int)

  datatype Required = Required(sizeMs: int, stepMs: int, originMs: int)

  datatype DataPoint = DataPoint(timestamp: int, value: real)

  datatype Window = Window(
    start: int, end: int, count: nat, sum: real, min: Option<real>, max: Option<real>, avg: Option<real>)

  function ValidateConfig(c: WindowConfig): (r: Result<Required, ConfigError>)
    ensures r.Success? <==> c.sizeMs > 0 && (c.stepMs.Some? ==> c.stepMs.value > 0)
    ensures r.Success? ==>
      && r.value.sizeMs == c.sizeMs && r.value.stepMs > 0
      && (c.stepMs.Some? ==> r.value.stepMs == c.stepMs.value) && (c.stepMs.None? ==> r.value.stepMs == c.sizeMs)
      && (c.originMs.Some? ==> r.value.originMs == c.originMs.value) && (c.originMs.None? ==> r.value.originMs == 0)
    ensures r.Failure? ==> if c.sizeMs <= 0 then r.error == BadSize(c.sizeMs) else r.error == BadStep(c.stepMs.value)
  {
    var stepMs := if c.stepMs.Some? then c.stepMs.value else c.sizeMs;
    var originMs := if c.originMs.Some? then c.originMs.value else 0;
    if c.sizeMs <= 0 then Failure(BadSize(c.sizeMs))
    else if stepMs <= 0 then Failure(BadStep(stepMs))
    else Success(Required(c.sizeMs, stepMs, originMs))
  }

  /** Start of the tumbling window holding `timestamp`; the division floors, also below the origin. */
  function WindowStartFor(timestamp: int, size: int, origin: int): int
    requires size > 0
  {
    origin + (timestamp - origin) / size * size
  }

  lemma MulMono(a: int, b: int, d: int)
    requires a <= b && d >= 0
    ensures a * d <= b * d
  {
  }

  lemma FloorBounds(x: int, d: int)
    requires d > 0
    ensures x / d * d <= x < (x / d + 1) * d && x == x / d * d + x % d
  {
  }

  /** The quotient is the only `k` with k * d <= x < (k + 1) * d. */
  lemma FloorIs(x: int, d: int, k: int)
    requires d > 0 && k * d <= x < (k + 1) * d
    ensures x / d == k
  {
    FloorBounds(x, d);
    if x / d < k { MulMono(x / d + 1, k, d); }
    if x / d > k { MulMono(k + 1, x / d, d); }
  }

  /** The window start is the one origin-aligned start whose half-open window holds the timestamp. */
  lemma WindowStartUnique(timestamp: int, size: int, origin: int, k: int)
    requires size > 0
    ensures WindowStartFor(timestamp, size, origin) <= timestamp < WindowStartFor(timestamp, size, origin) + size
    ensures origin + k * size <= timestamp < origin + k * size + size <==>
      origin + k * size == WindowStartFor(timestamp, size, origin)
  {
    FloorBounds(timestamp - origin, size);
    if origin + k * size <= timestamp < origin + k * size + size {
      FloorIs(timestamp - origin, size, k);
    }
  }

  // ---------------------------------------------------------------- one window

  predicate Inside(p: DataPoint, start: int, end: int) { start <= p.timestamp < end }

  /** The points of the half-open interval, in input order. */
  function Select(points: seq<DataPoint>, start: int, end: int): seq<DataPoint> {
    if points == [] then []
    else
      var last := points[|points| - 1];
      Select(points[..|points| - 1], start, end) + if Inside(last, start, end) then [last] else []
  }

  function Sum(points: seq<DataPoint>): real {
    if points == [] then 0.0 else Sum(points[..|points| - 1]) + points[|points| - 1].value
  }

  /** `m` is the least value of `points`, or absent when there are none. */
  ghost predicate IsMin(m: Option<real>, points: seq<DataPoint>) {
    if points == [] then m == None
    else m.Some? && (exists p <- points :: p.value == m.value) && (forall p <- points :: m.value <= p.value)
  }

  ghost predicate IsMax(m: Option<real>, points: seq<DataPoint>) {
    if points == [] then m == None
    else m.Some? && (exists p <- points :: p.value == m.value) && (forall p <- points :: p.value <= m.value)
  }

  /** `w` summarises exactly the points of [start, end). */
  ghost predicate Summarises(w: Window, points: seq<DataPoint>, start: int, end: int) {
    var inside := Select(points, start, end);
    && w.start == start && w.end == end
    && w.count == |inside|
    && w.sum == Sum(inside)
    && IsMin(w.min, inside) && IsMax(w.max, inside)
    && w.avg == if inside == [] then None else Some(Sum(inside) / |inside| as real)
  }

  lemma SumSnoc(points: seq<DataPoint>, p: DataPoint)
    ensures Sum(points + [p]) == Sum(points) + p.value
  {
  }

  lemma SelectSnoc(points: seq<DataPoint>, i: nat, start: int, end: int)
    requires i < |points|
    ensures Select(points[..i + 1], start, end) ==
      if Inside(points[i], start, end) then Select(points[..i], start, end) + [points[i]]
      else Select(points[..i], start, end)
  {
    assert points[..i + 1][..i] == points[..i];
    assert Select(points[..i], start, end) + [] == Select(points[..i], start, end);
  }

  lemma MinSnoc(m: Option<real>, points: seq<DataPoint>, p: DataPoint)
    requires IsMin(m, points)
    ensures IsMin(if m == None || p.value < m.value then Some(p.value) else m, points + [p])
  {
  }

  lemma MaxSnoc(m: Option<real>, points: seq<DataPoint>, p: DataPoint)
    requires IsMax(m, points)
    ensures IsMax(if m == None || p.value > m.value then Some(p.value) else m, points + [p])
  {
  }

  /** The running values of the loop over the points seen so far. */
  ghost predicate Tally(count: nat, sum: real, min: Option<real>, max: Option<real>, inside: seq<DataPoint>) {
    count == |inside| && sum == Sum(inside) && IsMin(min, inside) && IsMax(max, inside)
  }

  lemma TallySnoc(count: nat, sum: real, min: Option<real>, max: Option<real>, inside: seq<DataPoint>, p: DataPoint)
    requires Tally(count, sum, min, max, inside)
    ensures Tally(count + 1, sum + p.value, if min == None || p.value < min.value then Some(p.value) else min,
                  if max == None || p.value > max.value then Some(p.value) else max, inside + [p])
  {
    SumSnoc(inside, p);
    MinSnoc(min, inside, p);
    MaxSnoc(max, inside, p);
  }

  /** One turn of the loop. */
  lemma TallyNext(
      points: seq<DataPoint>, i: nat, start: int, end: int, count: nat, sum: real, min: Option<real>, max: Option<real>)
    requires i < |points| && Tally(count, sum, min, max, Select(points[..i], start, end))
    ensures var p, after := points[i], Select(points[..i + 1], start, end);
      if Inside(p, start, end) then
        Tally(count + 1, sum + p.value, if min == None || p.value < min.value then Some(p.value) else min,
              if max == None || p.value > max.value then Some(p.value) else max, after)
      else Tally(count, sum, min, max, after)
  {
    SelectSnoc(points, i, start, end);
    if Inside(points[i], start, end) { TallySnoc(count, sum, min, max, Select(points[..i], start, end), points[i]); }
  }

  method Aggregate(points: seq<DataPoint>, start: int, end: int) returns (w: Window)
    ensures Summarises(w, points, start, end)
  {
    var count: nat, sum := 0, 0.0;
    var min: Option<real>, max: Option<real> := None, None;
    for i := 0 to |points|
      invariant Tally(count, sum, min, max, Select(points[..i], start, end))
    {
      var p := points[i];
      TallyNext(points, i, start, end, count, sum, min, max);
      if p.timestamp >= start && p.timestamp < end {
        count := count + 1;
        sum := sum + p.value;
        min := if min == None || p.value < min.value then Some(p.value) else min;
        max := if max == None || p.value > max.value then Some(p.value) else max;
      }
    }
    assert points[..|points|] == points;
    w := Window(start, end, count, sum, min, max, if count > 0 then Some(sum / count as real) else None);
  }

  /** The value added up `m` times. */
  function Times(v: real, m: nat): real { if m == 0 then 0.0 else Times(v, m - 1) + v }

  lemma {:induction false} TimesIsProduct(v: real, m: nat)
    ensures Times(v, m) == v * m as real
  {
    if m > 0 {
      TimesIsProduct(v, m - 1);
      assert v * m as real == v * (m - 1) as real + v;
    }
  }

  lemma {:induction false} SumBounds(points: seq<DataPoint>, lo: real, hi: real)
    requires forall k :: 0 <= k < |points| ==> lo <= points[k].value <= hi
    ensures Times(lo, |points|) <= Sum(points) <= Times(hi, |points|)
  {
    if points != [] { SumBounds(points[..|points| - 1], lo, hi); }
  }

  lemma DivBetween(lo: real, sum: real, hi: real, n: real)
    requires n > 0.0 && lo * n <= sum <= hi * n
    ensures lo <= sum / n <= hi
  {
  }

  lemma AverageOf(points: seq<DataPoint>, lo: real, hi: real)
    requires points != [] && forall k :: 0 <= k < |points| ==> lo <= points[k].value <= hi
    ensures lo <= Sum(points) / |points| as real <= hi
  {
    SumBounds(points, lo, hi);
    TimesIsProduct(lo, |points|);
    TimesIsProduct(hi, |points|);
    DivBetween(lo, Sum(points), hi, |points| as real);
  }

  /** min <= avg <= max in every window that holds a point; a window without one has none of the three. */
  lemma AverageBetween(w: Window, points: seq<DataPoint>, start: int, end: int)
    requires Summarises(w, points, start, end)
    ensures w.count == 0 <==> w.min == None
    ensures w.min.Some? == w.max.Some? == w.avg.Some?
    ensures w.count > 0 ==> w.min.value <= w.avg.value <= w.max.value
  {
    var inside := Select(points, start, end);
    if inside != [] {
      assert forall k :: 0 <= k < |inside| ==> inside[k] in inside;
      AverageOf(inside, w.min.value, w.max.value);
    }
  }

  // ---------------------------------------------------------------- window series

  /** Windows first, first + step, ... up to and including the last start not after `last`. */
  ghost predicate Series(ws: seq<Window>, points: seq<DataPoint>, first: int, last: int, step: int, size: int) {
    && (forall k :: 0 <= k < |ws| ==> Summarises(ws[k], points, first + k * step, first + k * step + size))
    && (forall k :: 0 <= k < |ws| ==> first + k * step <= last)
    && first + |ws| * step > last
  }

  method MinTimestamp(points: seq<DataPoint>) returns (t: int)
    requires points != []
    ensures (exists p <- points :: p.timestamp == t) && forall p <- points :: t <= p.timestamp
  {
    t := points[0].timestamp;
    assert points[0] in points;
    for i := 1 to |points|
      invariant exists p <- points :: p.timestamp == t
      invariant forall k :: 0 <= k < i ==> t <= points[k].timestamp
    {
      if points[i].timestamp < t { t := points[i].timestamp; }
    }
  }

  method MaxTimestamp(points: seq<DataPoint>) returns (t: int)
    requires points != []
    ensures (exists p <- points :: p.timestamp == t) && forall p <- points :: p.timestamp <= t
  {
    t := points[0].timestamp;
    assert points[0] in points;
    for i := 1 to |points|
      invariant exists p <- points :: p.timestamp == t
      invariant forall k :: 0 <= k < i ==> points[k].timestamp <= t
    {
      if points[i].timestamp > t { t := points[i].timestamp; }
    }
  }

  /** The series of windows `aggregateTumbling` and `aggregateSliding` must return, if any. */
  ghost predicate Covers(ws: seq<Window>, points: seq<DataPoint>, size: int, step: int, origin: int)
    requires size > 0
  {
    if points == [] then ws == []
    else exists lo, hi :: IsSpan(points, lo, hi) && Series(ws, points, WindowStartFor(lo, size, origin), hi, step, size)
  }

  ghost predicate IsSpan(points: seq<DataPoint>, lo: int, hi: int) {
    && (exists p <- points :: p.timestamp == lo) && (exists p <- points :: p.timestamp == hi)
    && forall p <- points :: lo <= p.timestamp <= hi
  }

  /** The shared loop: one window every `step` from `first` while the start is not after `last`. */
  method WindowsFrom(points: seq<DataPoint>, first: int, last: int, step: int, size: int) returns (ws: seq<Window>)
    requires step > 0
    ensures Series(ws, points, first, last, step, size)
  {
    ws := [];
    var start := first;
    while start <= last
      invariant start == first + |ws| * step
      invariant forall k :: 0 <= k < |ws| ==> Summarises(ws[k], points, first + k * step, first + k * step + size)
      invariant forall k :: 0 <= k < |ws| ==> first + k * step <= last
      decreases last - start
    {
      var w := Aggregate(points, start, start + size);
      assert first + (|ws| + 1) * step == start + step;
      ws := ws + [w];
      start := start + step;
    }
  }

  method AggregateTumbling(points: seq<DataPoint>, c: WindowConfig) returns (r: Result<seq<Window>, ConfigError>)
    ensures r.Failure? <==> ValidateConfig(c).Failure?
    ensures r.Failure? ==> r.error == ValidateConfig(c).error
    ensures r.Success? ==>
      var v := ValidateConfig(c).value; Covers(r.value, points, v.sizeMs, v.sizeMs, v.originMs)
  {
    var valid := ValidateConfig(c);
    if valid.Failure? { return Failure(valid.error); }
    if |points| == 0 { return Success([]); }
    var v := valid.value;
    var minTs := MinTimestamp(points);
    var maxTs := MaxTimestamp(points);
    assert IsSpan(points, minTs, maxTs);
    var ws := WindowsFrom(points, WindowStartFor(minTs, v.sizeMs, v.originMs), maxTs, v.sizeMs, v.sizeMs);
    return Success(ws);
  }

  method AggregateSliding(points: seq<DataPoint>, c: WindowConfig) returns (r: Result<seq<Window>, ConfigError>)
    ensures r.Failure? <==> ValidateConfig(c).Failure?
    ensures r.Failure? ==> r.error == ValidateConfig(c).error
    ensures r.Success? ==>
      var v := ValidateConfig(c).value; Covers(r.value, points, v.sizeMs, v.stepMs, v.originMs)
  {
    var valid := ValidateConfig(c);
    if valid.Failure? { return Failure(valid.error); }
    if |points| == 0 { return Success([]); }
    var v := valid.value;
    var minTs := MinTimestamp(points);
    var maxTs := MaxTimestamp(points);
    assert IsSpan(points, minTs, maxTs);
    var ws := WindowsFrom(points, WindowStartFor(minTs, v.sizeMs, v.originMs), maxTs, v.stepMs, v.sizeMs);
    return Success(ws);
  }

  datatype WindowType = Tumbling | Sliding

  method AggregateWindows(points: seq<DataPoint>, kind: WindowType, c: WindowConfig)
    returns (r: Result<seq<Window>, ConfigError>)
    ensures r.Failure? <==> ValidateConfig(c).Failure?
    ensures r.Failure? ==> r.error == ValidateConfig(c).error
    ensures r.Success? ==>
      var v := ValidateConfig(c).value;
      Covers(r.value, points, v.sizeMs, if kind.Sliding? then v.stepMs else v.sizeMs, v.originMs)
  {
    if kind.Sliding? {
      r := AggregateSliding(points, c);
    } else {
      r := AggregateTumbling(points, c);
    }
  }
}
