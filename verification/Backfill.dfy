/**
 * backend/src/services/backfillOrchestrator.ts: chunk planning and the cooperative
 * worker pool. The pool interleaves only where the source awaits, so one step of
 * the model is the code a worker runs between two awaits.
 */
module Backfill {
  import opened Common

  datatype Chunk = Chunk(index: nat, lower: int, upper: int)

  datatype Config = Config(
    rangeStart: int,
    rangeEnd: int,
    chunkSize: int,
    concurrency: Option<int>,
    maxRetries: Option<int>,
    minDelayMs: Option<int>,
    completedChunks: Option<seq<int>>)

  datatype ConfigError = EmptyRange | BadChunkSize | BadConcurrency

  /** The error `validate` throws, if any, in the order the checks run. */
  function Validate(c: Config): Option<ConfigError> {
    if c.rangeEnd <= c.rangeStart then Some(EmptyRange)
    else if c.chunkSize <= 0 then Some(BadChunkSize)
    else if c.concurrency.Some? && c.concurrency.value < 1 then Some(BadConcurrency)
    else None
  }

  // ---------------------------------------------------------------- planning

  function ChunksFrom(index: nat, lower: int, end: int, size: int): seq<Chunk>
    requires size > 0
    decreases end - lower
  {
    if lower >= end then []
    else [Chunk(index, lower, Min(lower + size, end))] + ChunksFrom(index + 1, lower + size, end, size)
  }

  /** The chunks, in order, cut [lo, hi) into non-empty pieces of `size`, the last one possibly shorter. */
  ghost predicate Tiling(cs: seq<Chunk>, first: nat, lo: int, hi: int, size: int) {
    && cs != []
    && cs[0].lower == lo && cs[|cs| - 1].upper == hi
    && (forall i :: 0 <= i < |cs| ==> cs[i].index == first + i && cs[i].lower < cs[i].upper <= cs[i].lower + size)
    && (forall i :: 0 <= i < |cs| - 1 ==> cs[i].upper == cs[i + 1].lower == cs[i].lower + size)
  }

  function Plan(c: Config): seq<Chunk>
    requires c.chunkSize > 0
  {
    ChunksFrom(0, c.rangeStart, c.rangeEnd, c.chunkSize)
  }

  lemma {:induction false} ChunksTile(first: nat, lo: int, hi: int, size: int)
    requires size > 0 && lo < hi
    ensures Tiling(ChunksFrom(first, lo, hi, size), first, lo, hi, size)
    decreases hi - lo
  {
    var rest := ChunksFrom(first + 1, lo + size, hi, size);
    if lo + size < hi {
      ChunksTile(first + 1, lo + size, hi, size);
    } else {
      assert rest == [];
    }
    var cs := ChunksFrom(first, lo, hi, size);
    assert cs == [Chunk(first, lo, Min(lo + size, hi))] + rest;
    assert forall i :: 1 <= i < |cs| ==> cs[i] == rest[i - 1];
  }

  /** Every point of the range lies in exactly one planned chunk. */
  lemma {:induction false} TilingCoversOnce(cs: seq<Chunk>, first: nat, lo: int, hi: int, size: int,
                                            x: int) returns (k: nat)
    requires Tiling(cs, first, lo, hi, size) && lo <= x < hi
    ensures k < |cs| && forall i :: 0 <= i < |cs| ==> (cs[i].lower <= x < cs[i].upper <==> i == k)
  {
    if x < cs[0].upper {
      k := 0;
      TilingAscends(cs, first, lo, hi, size);
    } else {
      var rest := cs[1..];
      assert |cs| > 1;
      assert Tiling(rest, first + 1, cs[1].lower, hi, size) by {
        assert forall i :: 0 <= i < |rest| ==> rest[i] == cs[i + 1];
      }
      var j := TilingCoversOnce(rest, first + 1, cs[1].lower, hi, size, x);
      k := j + 1;
      assert forall i :: 1 <= i < |cs| ==> cs[i] == rest[i - 1];
    }
  }

  lemma {:induction false} TilingAscends(cs: seq<Chunk>, first: nat, lo: int, hi: int, size: int)
    requires Tiling(cs, first, lo, hi, size)
    ensures forall i :: 0 < i < |cs| ==> cs[0].upper <= cs[i].lower
  {
    if |cs| > 1 {
      var rest := cs[1..];
      assert Tiling(rest, first + 1, cs[1].lower, hi, size) by {
        assert forall i :: 0 <= i < |rest| ==> rest[i] == cs[i + 1];
      }
      TilingAscends(rest, first + 1, cs[1].lower, hi, size);
      assert forall i :: 1 < i < |cs| ==> cs[i] == rest[i - 1];
    }
  }

  method PlanChunks(c: Config) returns (r: Result<seq<Chunk>, ConfigError>)
    ensures r.Failure? <==> Validate(c).Some?
    ensures r.Failure? ==> Some(r.error) == Validate(c)
    ensures r.Success? ==> Tiling(r.value, 0, c.rangeStart, c.rangeEnd, c.chunkSize) && r.value == Plan(c)
  {
    var invalid := Validate(c);
    if invalid.Some? {
      return Failure(invalid.value);
    }
    var chunks: seq<Chunk> := [];
    var index: nat := 0;
    var lower := c.rangeStart;
    while lower < c.rangeEnd
      invariant chunks + ChunksFrom(index, lower, c.rangeEnd, c.chunkSize) == Plan(c)
      decreases c.rangeEnd - lower
    {
      ghost var rest := ChunksFrom(index + 1, lower + c.chunkSize, c.rangeEnd, c.chunkSize);
      var chunk := Chunk(index, lower, Min(lower + c.chunkSize, c.rangeEnd));
      assert chunks + ([chunk] + rest) == (chunks + [chunk]) + rest;
      chunks := chunks + [chunk];
      index := index + 1;
      lower := lower + c.chunkSize;
    }
    assert chunks + [] == chunks;
    ChunksTile(0, c.rangeStart, c.rangeEnd, c.chunkSize);
    r := Success(chunks);
  }

  // ---------------------------------------------------------------- pool state

  /** What `runBackfill` fixes before the first worker starts. */
  datatype Job = Job(chunks: seq<Chunk>, resumed: seq<int>, pending: seq<Chunk>, maxRetries: int, delayed: bool,
                     poolSize: nat)

  /** Where a worker is suspended: before the loop test, in the rate-limit sleep, in `processChunk`, or gone. */
  datatype Worker = AtHead | Delaying(chunk: Chunk) | Calling(chunk: Chunk, attempt: nat) | Exited

  datatype Event =
    | ChunkStart(chunk: Chunk, attempt: nat)
    | ChunkSuccess(chunk: Chunk)
    | ChunkError(chunk: Chunk, attempt: nat)
    | ChunkFailed(chunk: Chunk)
    | Progress(total: nat, completed: nat, failed: nat, inFlight: int, percent: int)

  datatype State = State(
    cursor: nat, inFlight: int, completed: seq<int>, failed: seq<int>, workers: seq<Worker>, events: seq<Event>)

  datatype Step = Pick(w: nat) | Wake(w: nat) | Resolve(w: nat) | Reject(w: nat) | Exit(w: nat)

  function NotDone(cs: seq<Chunk>, done: seq<int>): seq<Chunk> {
    if cs == [] then []
    else (if cs[0].index in done then [] else [cs[0]]) + NotDone(cs[1..], done)
  }

  function Concurrency(c: Config): int { if c.concurrency.Some? then c.concurrency.value else 1 }

  function JobOf(c: Config): Job
    requires Validate(c) == None
  {
    var resumed := if c.completedChunks.Some? then c.completedChunks.value else [];
    var pending := NotDone(Plan(c), resumed);
    var maxRetries := if c.maxRetries.Some? then c.maxRetries.value else 3;
    var delay := if c.minDelayMs.Some? then c.minDelayMs.value else 0;
    Job(Plan(c), resumed, pending, maxRetries, delay > 0,
        Max(1, Min(Concurrency(c), if |pending| == 0 then 1 else |pending|)))
  }

  /** One more than the retries, and never less than the first attempt. */
  function MaxAttempts(j: Job): (n: nat) { Max(1, j.maxRetries + 1) }

  function Start(j: Job): State {
    State(0, 0, j.resumed, [], seq(j.poolSize, _ => AtHead), [])
  }

  predicate Enabled(j: Job, s: State, t: Step) {
    && t.w < |s.workers|
    && match t
       case Pick(w) => s.workers[w] == AtHead && s.cursor < |j.pending|
       case Wake(w) => s.workers[w].Delaying?
       case Resolve(w) => s.workers[w].Calling?
       case Reject(w) => s.workers[w].Calling?
       case Exit(w) => s.workers[w] == AtHead && s.cursor >= |j.pending|
  }

  /** `emitProgress`; the percentage is rounded half up as Math.round does. */
  function Report(j: Job, completed: nat, failed: nat, inFlight: int): Event {
    var total := |j.chunks|;
    Progress(total, completed, failed, inFlight,
             if total == 0 then 100 else (200 * (completed + failed) + total) / (2 * total))
  }

  /** Entry of `processOne`. */
  function Begin(s: State, w: nat, c: Chunk): State
    requires w < |s.workers|
  {
    s.(inFlight := s.inFlight + 1, workers := s.workers[w := Calling(c, 1)], events := s.events + [ChunkStart(c, 1)])
  }

  function Next(j: Job, s: State, t: Step): State
    requires Enabled(j, s, t)
  {
    var me := s.workers[t.w];
    match t
    case Pick(w) =>
      var c, s' := j.pending[s.cursor], s.(cursor := s.cursor + 1);
      if j.delayed then s'.(workers := s.workers[w := Delaying(c)]) else Begin(s', w, c)
    case Wake(w) => Begin(s, w, me.chunk)
    case Resolve(w) =>
      s.(inFlight := s.inFlight - 1, completed := s.completed + [me.chunk.index], workers := s.workers[w := AtHead],
         events := s.events + [ChunkSuccess(me.chunk), Report(j, |s.completed| + 1, |s.failed|, s.inFlight - 1)])
    case Reject(w) =>
      if me.attempt > j.maxRetries then
        s.(inFlight := s.inFlight - 1, failed := s.failed + [me.chunk.index], workers := s.workers[w := AtHead],
           events := s.events + [ChunkError(me.chunk, me.attempt), ChunkFailed(me.chunk),
                                 Report(j, |s.completed|, |s.failed| + 1, s.inFlight - 1)])
      else
        s.(workers := s.workers[w := Calling(me.chunk, me.attempt + 1)],
           events := s.events + [ChunkError(me.chunk, me.attempt), ChunkStart(me.chunk, me.attempt + 1)])
    case Exit(w) => s.(workers := s.workers[w := Exited])
  }

  // ---------------------------------------------------------------- views of a state

  function Indexes(cs: seq<Chunk>): (r: seq<int>)
    ensures |r| == |cs| && forall i :: 0 <= i < |cs| ==> r[i] == cs[i].index
  {
    seq(|cs|, i requires 0 <= i < |cs| => cs[i].index)
  }

  /** One for a worker that has picked chunk `i` and not settled it. */
  function Holds(i: int): Worker -> nat {
    (w: Worker) => if (w.Delaying? || w.Calling?) && w.chunk.index == i then 1 else 0
  }

  function Total(ws: seq<Worker>, cost: Worker -> nat): nat {
    if ws == [] then 0 else cost(ws[0]) + Total(ws[1..], cost)
  }

  function InCall(): Worker -> nat { (w: Worker) => if w.Calling? then 1 else 0 }

  /** Calls of `processChunk` a worker may still make for the chunk it holds. */
  function CallsLeft(max: nat): Worker -> nat {
    (w: Worker) => if w.Delaying? then max else if w.Calling? && w.attempt <= max then max - w.attempt else 0
  }

  function StepsLeft(max: nat): Worker -> nat {
    (w: Worker) => match w
      case Exited => 0
      case AtHead => 1
      case Delaying(_) => max + 2
      case Calling(_, a) => if a <= max then max - a + 2 else 2
  }

  /** Bounds the steps that any schedule can still take. */
  function Remaining(j: Job, s: State): nat
    requires s.cursor <= |j.pending|
  {
    var waiting: nat, each: nat := |j.pending| - s.cursor, MaxAttempts(j) + 2;
    waiting * each + Total(s.workers, StepsLeft(MaxAttempts(j)))
  }

  predicate About(e: Event, i: int) { !e.Progress? && e.chunk.index == i }

  /** The audit events of chunk `i`, in order. */
  function LogOf(events: seq<Event>, i: int): seq<Event> {
    if events == [] then []
    else (if About(events[0], i) then [events[0]] else []) + LogOf(events[1..], i)
  }

  function Starts(events: seq<Event>): nat {
    if events == [] then 0 else (if events[0].ChunkStart? then 1 else 0) + Starts(events[1..])
  }

  /** `n` attempts that all threw. */
  function Throws(c: Chunk, n: nat): seq<Event> {
    if n == 0 then [] else Throws(c, n - 1) + [ChunkStart(c, n), ChunkError(c, n)]
  }

  function GaveUp(c: Chunk, max: nat): seq<Event> { Throws(c, max) + [ChunkFailed(c)] }

  function Succeeded(c: Chunk, attempt: nat): seq<Event>
    requires attempt >= 1
  {
    Throws(c, attempt - 1) + [ChunkStart(c, attempt), ChunkSuccess(c)]
  }

  lemma {:induction false} TotalUpdate(ws: seq<Worker>, w: nat, x: Worker, cost: Worker -> nat)
    requires w < |ws|
    ensures Total(ws[w := x], cost) == Total(ws, cost) - cost(ws[w]) + cost(x)
  {
    if w > 0 {
      TotalUpdate(ws[1..], w - 1, x, cost);
      assert ws[w := x][1..] == ws[1..][w - 1 := x];
    } else {
      assert ws[w := x][1..] == ws[1..];
    }
  }

  lemma {:induction false} TotalAtLeast(ws: seq<Worker>, w: nat, cost: Worker -> nat)
    requires w < |ws|
    ensures cost(ws[w]) <= Total(ws, cost)
  {
    TotalUpdate(ws, w, ws[w], cost);
    if w > 0 {
      TotalAtLeast(ws[1..], w - 1, cost);
    }
  }

  /** Two workers holding the same index count twice. */
  lemma HeldOnce(ws: seq<Worker>, v: nat, w: nat, i: int)
    requires v < |ws| && w < |ws| && v != w
    requires Holds(i)(ws[v]) == Holds(i)(ws[w]) == 1
    ensures Total(ws, Holds(i)) >= 2
  {
    TotalUpdate(ws, v, AtHead, Holds(i));
    TotalAtLeast(ws[v := AtHead], w, Holds(i));
  }

  lemma {:induction false} LogConcat(a: seq<Event>, b: seq<Event>, i: int)
    ensures LogOf(a + b, i) == LogOf(a, i) + LogOf(b, i)
  {
    if a == [] {
      assert a + b == b;
    } else {
      var head := if About(a[0], i) then [a[0]] else [];
      LogConcat(a[1..], b, i);
      assert (a + b)[0] == a[0] && (a + b)[1..] == a[1..] + b;
      assert head + (LogOf(a[1..], i) + LogOf(b, i)) == head + LogOf(a[1..], i) + LogOf(b, i);
    }
  }

  lemma {:induction false} StartsConcat(a: seq<Event>, b: seq<Event>)
    ensures Starts(a + b) == Starts(a) + Starts(b)
  {
    if a == [] {
      assert a + b == b;
    } else {
      StartsConcat(a[1..], b);
      assert (a + b)[1..] == a[1..] + b;
    }
  }
}
