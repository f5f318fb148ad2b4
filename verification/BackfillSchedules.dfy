/** What the worker pool of `runBackfill` keeps under every schedule and every failure pattern. */
module BackfillSchedules {
  import opened Common
  import opened Backfill

  // ---------------------------------------------------------------- the job

  /** `p` selects from `cs`, keeping order, exactly the chunks whose index is not in `done`. */
  ghost predicate Selects(p: seq<Chunk>, cs: seq<Chunk>, first: nat, done: seq<int>) {
    && (forall k :: 0 <= k < |p| ==> first <= p[k].index < first + |cs| && p[k] == cs[p[k].index - first])
    && (forall k :: 0 <= k < |p| ==> p[k].index !in done)
    && (forall k, l :: 0 <= k < l < |p| ==> p[k].index < p[l].index)
  }

  ghost predicate MissesNone(p: seq<Chunk>, first: nat, end: nat, done: seq<int>) {
    forall i :: first <= i < end && i !in done ==> i in Indexes(p)
  }

  /** The facts about a job that the pool relies on. */
  ghost predicate WellPlanned(j: Job) {
    && (forall i :: 0 <= i < |j.chunks| ==> j.chunks[i].index == i)
    && Selects(j.pending, j.chunks, 0, j.resumed)
    && MissesNone(j.pending, 0, |j.chunks|, j.resumed)
    && 1 <= j.poolSize <= Max(1, |j.pending|)
  }

  lemma {:induction false} NotDoneSelects(cs: seq<Chunk>, first: nat, done: seq<int>)
    requires forall i :: 0 <= i < |cs| ==> cs[i].index == first + i
    ensures Selects(NotDone(cs, done), cs, first, done)
  {
    if cs != [] {
      var rest := cs[1..];
      NotDoneSelects(rest, first + 1, done);
      SelectsFromRest(NotDone(rest, done), cs, first, done);
      assert NotDone(cs, done) == if first in done then NotDone(rest, done) else [cs[0]] + NotDone(rest, done);
    }
  }

  lemma SelectsFromRest(q: seq<Chunk>, cs: seq<Chunk>, first: nat, done: seq<int>)
    requires cs != [] && cs[0].index == first && Selects(q, cs[1..], first + 1, done)
    ensures Selects(q, cs, first, done)
    ensures first !in done ==> Selects([cs[0]] + q, cs, first, done)
  {
  }

  lemma {:induction false} NotDoneMissesNone(cs: seq<Chunk>, first: nat, done: seq<int>)
    requires forall i :: 0 <= i < |cs| ==> cs[i].index == first + i
    ensures MissesNone(NotDone(cs, done), first, first + |cs|, done)
  {
    if cs != [] {
      NotDoneMissesNone(cs[1..], first + 1, done);
      var p, q := NotDone(cs, done), NotDone(cs[1..], done);
      if first in done {
        assert p == q;
      } else {
        assert Indexes(p) == [first] + Indexes(q);
      }
    }
  }

  lemma JobIsWellPlanned(c: Config)
    requires Validate(c) == None
    ensures WellPlanned(JobOf(c)) && Tiling(Plan(c), 0, c.rangeStart, c.rangeEnd, c.chunkSize)
  {
    ChunksTile(0, c.rangeStart, c.rangeEnd, c.chunkSize);
    NotDoneSelects(Plan(c), 0, JobOf(c).resumed);
    NotDoneMissesNone(Plan(c), 0, JobOf(c).resumed);
  }

  // ---------------------------------------------------------------- the invariant

  /** The chunk indexes this run completed, after the resume list. */
  function Fresh(j: Job, s: State): seq<int>
    requires |j.resumed| <= |s.completed|
  {
    s.completed[|j.resumed|..]
  }

  function Picked(j: Job, s: State): seq<int>
    requires s.cursor <= |j.pending|
  {
    Indexes(j.pending[..s.cursor])
  }

  function Busy(): Worker -> nat { (w: Worker) => if w.Delaying? || w.Calling? then 1 else 0 }

  ghost predicate WorkerOk(j: Job, s: State, w: Worker) {
    match w
    case AtHead => true
    case Exited => s.cursor == |j.pending|
    case Delaying(c) => c.index < |j.chunks| && c == j.chunks[c.index]
    case Calling(c, a) => c.index < |j.chunks| && c == j.chunks[c.index] && 1 <= a <= MaxAttempts(j)
  }

  ghost predicate Sized(j: Job, s: State) {
    s.cursor <= |j.pending| && j.resumed <= s.completed
  }

  ghost predicate Shape(j: Job, s: State) {
    && Sized(j, s)
    && |s.workers| == j.poolSize
    && s.inFlight == Total(s.workers, InCall())
    && s.cursor == Total(s.workers, Busy()) + |s.completed| - |j.resumed| + |s.failed|
    && forall w :: 0 <= w < |s.workers| ==> WorkerOk(j, s, s.workers[w])
  }

  /** Chunk `i` was picked as often as it is held, newly completed or failed. */
  ghost predicate Conserved(j: Job, s: State, i: int)
    requires Sized(j, s)
  {
    multiset(Picked(j, s))[i] == Total(s.workers, Holds(i)) + multiset(Fresh(j, s))[i] + multiset(s.failed)[i]
  }

  /** The audit trail of a chunk spells out exactly what happened to it. */
  ghost predicate LogOk(j: Job, s: State, w: Worker) {
    match w
    case Delaying(c) => LogOf(s.events, c.index) == []
    case Calling(c, a) => a >= 1 && LogOf(s.events, c.index) == Throws(c, a - 1) + [ChunkStart(c, a)]
    case _ => true
  }

  ghost predicate LogSucceeded(j: Job, s: State, i: int) {
    && 0 <= i < |j.chunks|
    && exists a :: 1 <= a <= MaxAttempts(j) && LogOf(s.events, i) == Succeeded(j.chunks[i], a)
  }

  ghost predicate LogGaveUp(j: Job, s: State, i: int) {
    0 <= i < |j.chunks| && LogOf(s.events, i) == GaveUp(j.chunks[i], MaxAttempts(j))
  }

  ghost predicate Logs(j: Job, s: State)
    requires Shape(j, s)
  {
    && (forall w :: 0 <= w < |s.workers| ==> LogOk(j, s, s.workers[w]))
    && (forall i <- Fresh(j, s) :: LogSucceeded(j, s, i))
    && (forall i <- s.failed :: LogGaveUp(j, s, i))
    && (forall k :: s.cursor <= k < |j.pending| ==> LogOf(s.events, j.pending[k].index) == [])
  }

  /** Calls made and calls still possible never exceed one budget per pending chunk. */
  ghost predicate Budget(j: Job, s: State)
    requires Sized(j, s)
  {
    Starts(s.events) + (|j.pending| - s.cursor) * MaxAttempts(j) + Total(s.workers, CallsLeft(MaxAttempts(j)))
      <= |j.pending| * MaxAttempts(j)
  }

  /** The percentage is within half of the exact one, and above it in the middle. */
  predicate NearestPercent(percent: int, settled: int, total: int) {
    if total == 0 then percent == 100 else -total < 2 * (total * percent - 100 * settled) <= total
  }

  lemma ReportNearest(j: Job, completed: nat, failed: nat, inFlight: int)
    ensures NearestPercent(Report(j, completed, failed, inFlight).percent, completed + failed, |j.chunks|)
  {
    var total := |j.chunks|;
    if total > 0 {
      var x, d := 200 * (completed + failed) + total, 2 * total;
      assert x == d * (x / d) + x % d && 0 <= x % d < d;
    }
  }

  ghost predicate ProgressOk(j: Job, e: Event) {
    e.Progress? ==>
      && e.total == |j.chunks|
      && |j.resumed| < e.completed + e.failed <= |j.resumed| + |j.pending|
      && 0 <= e.inFlight < j.poolSize
      && NearestPercent(e.percent, e.completed + e.failed, e.total)
  }

  ghost predicate Inv(j: Job, s: State) {
    && WellPlanned(j)
    && Shape(j, s)
    && (forall i :: Conserved(j, s, i))
    && Logs(j, s)
    && Budget(j, s)
    && (forall k :: 0 <= k < |s.events| ==> ProgressOk(j, s.events[k]))
  }

  // ---------------------------------------------------------------- initial state

  lemma {:induction false} AllZero(ws: seq<Worker>, cost: Worker -> nat)
    requires forall w :: 0 <= w < |ws| ==> cost(ws[w]) == 0
    ensures Total(ws, cost) == 0
  {
    if ws != [] {
      AllZero(ws[1..], cost);
    }
  }

  lemma StartInv(j: Job)
    requires WellPlanned(j)
    ensures Inv(j, Start(j))
  {
    var s := Start(j);
    AllZero(s.workers, InCall());
    AllZero(s.workers, Busy());
    AllZero(s.workers, CallsLeft(MaxAttempts(j)));
    forall i ensures Conserved(j, s, i) { AllZero(s.workers, Holds(i)); }
    assert LogOf(s.events, 0) == [];
  }

  // ---------------------------------------------------------------- one step

  lemma ShapeNext(j: Job, s: State, t: Step)
    requires WellPlanned(j) && Shape(j, s) && Enabled(j, s, t)
    ensures Shape(j, Next(j, s, t))
  {
    var s' := Next(j, s, t);
    MoverOk(j, s, t);
    CountersNext(j, s, t);
    forall w | 0 <= w < |s'.workers|
      ensures WorkerOk(j, s', s'.workers[w])
    {
      assert WorkerOk(j, s, s.workers[w]);
    }
  }

  lemma MoverOk(j: Job, s: State, t: Step)
    requires WellPlanned(j) && Sized(j, s) && Enabled(j, s, t) && WorkerOk(j, s, s.workers[t.w])
    ensures WorkerOk(j, Next(j, s, t), Next(j, s, t).workers[t.w])
  {
  }

  lemma CountersNext(j: Job, s: State, t: Step)
    requires Shape(j, s) && Enabled(j, s, t)
    ensures var s' := Next(j, s, t);
      && Sized(j, s') && |s'.workers| == j.poolSize
      && s'.inFlight == Total(s'.workers, InCall())
      && s'.cursor == Total(s'.workers, Busy()) + |s'.completed| - |j.resumed| + |s'.failed|
  {
    var x := Next(j, s, t).workers[t.w];
    TotalUpdate(s.workers, t.w, x, InCall());
    TotalUpdate(s.workers, t.w, x, Busy());
  }

  lemma PickConserved(j: Job, s: State, w: nat, i: int)
    requires Sized(j, s) && Conserved(j, s, i) && Enabled(j, s, Pick(w))
    ensures Sized(j, Next(j, s, Pick(w))) && Conserved(j, Next(j, s, Pick(w)), i)
  {
    var s' := Next(j, s, Pick(w));
    TotalUpdate(s.workers, w, s'.workers[w], Holds(i));
    assert Fresh(j, s') == Fresh(j, s) && s'.failed == s.failed;
    assert Picked(j, s') == Picked(j, s) + [j.pending[s.cursor].index];
  }

  lemma ResolveConserved(j: Job, s: State, w: nat, i: int)
    requires Sized(j, s) && Conserved(j, s, i) && Enabled(j, s, Resolve(w))
    ensures Sized(j, Next(j, s, Resolve(w))) && Conserved(j, Next(j, s, Resolve(w)), i)
  {
    var s' := Next(j, s, Resolve(w));
    TotalUpdate(s.workers, w, s'.workers[w], Holds(i));
    assert Picked(j, s') == Picked(j, s) && s'.failed == s.failed;
    assert Fresh(j, s') == Fresh(j, s) + [s.workers[w].chunk.index];
  }

  lemma OtherConserved(j: Job, s: State, t: Step, i: int)
    requires Sized(j, s) && Conserved(j, s, i) && Enabled(j, s, t) && !t.Pick? && !t.Resolve?
    ensures Sized(j, Next(j, s, t)) && Conserved(j, Next(j, s, t), i)
  {
    var s' := Next(j, s, t);
    TotalUpdate(s.workers, t.w, s'.workers[t.w], Holds(i));
    assert Picked(j, s') == Picked(j, s) && Fresh(j, s') == Fresh(j, s);
    assert s'.failed == s.failed || s'.failed == s.failed + [s.workers[t.w].chunk.index];
  }

  lemma ConservedNext(j: Job, s: State, t: Step, i: int)
    requires Sized(j, s) && Conserved(j, s, i) && Enabled(j, s, t)
    ensures Sized(j, Next(j, s, t)) && Conserved(j, Next(j, s, t), i)
  {
    match t
    case Pick(w) => PickConserved(j, s, w, i);
    case Resolve(w) => ResolveConserved(j, s, w, i);
    case _ => OtherConserved(j, s, t, i);
  }

  /** Every step but `Exit` concerns one chunk: the one its worker holds or picks. */
  function Subject(j: Job, s: State, t: Step): Chunk
    requires Enabled(j, s, t) && !t.Exit?
  {
    if t.Pick? then j.pending[s.cursor] else s.workers[t.w].chunk
  }

  lemma PickedOnce(j: Job, s: State)
    requires WellPlanned(j) && s.cursor <= |j.pending|
    ensures forall i :: multiset(Picked(j, s))[i] <= 1
    ensures forall k :: s.cursor <= k < |j.pending| ==> multiset(Picked(j, s))[j.pending[k].index] == 0
  {
    DistinctMultiset(Picked(j, s));
  }

  /** No other worker holds the subject of a step, and it is neither settled nor still to be picked. */
  ghost predicate Exclusive(j: Job, s: State, me: nat, i: int)
    requires Shape(j, s)
  {
    && i !in Fresh(j, s) && i !in s.failed
    && (forall v :: 0 <= v < |s.workers| && v != me ==> Holds(i)(s.workers[v]) == 0)
  }

  lemma SubjectExclusive(j: Job, s: State, t: Step)
    requires WellPlanned(j) && Shape(j, s) && Enabled(j, s, t) && !t.Exit?
    requires Conserved(j, s, Subject(j, s, t).index)
    ensures Exclusive(j, s, t.w, Subject(j, s, t).index)
    ensures forall k :: Next(j, s, t).cursor <= k < |j.pending| ==> j.pending[k].index != Subject(j, s, t).index
  {
    var i := Subject(j, s, t).index;
    PickedOnce(j, s);
    TotalAtLeast(s.workers, t.w, Holds(i));
    forall v | 0 <= v < |s.workers| && v != t.w
      ensures Holds(i)(s.workers[v]) == 0
    {
      TotalAtLeast(s.workers, v, Holds(i));
      if !t.Pick? && Holds(i)(s.workers[v]) != 0 { HeldOnce(s.workers, v, t.w, i); }
    }
  }

  /** The audit trail of every chunk but `i` is as before. */
  ghost predicate OnlyAbout(s: State, s': State, i: int) {
    forall k :: k != i ==> LogOf(s'.events, k) == LogOf(s.events, k)
  }

  lemma StepSpeaksOfSubject(j: Job, s: State, t: Step)
    requires Enabled(j, s, t) && !t.Exit?
    ensures OnlyAbout(s, Next(j, s, t), Subject(j, s, t).index)
  {
    var more := Next(j, s, t).events[|s.events|..];
    assert Next(j, s, t).events == s.events + more;
    forall i | i != Subject(j, s, t).index
      ensures LogOf(Next(j, s, t).events, i) == LogOf(s.events, i)
    {
      LogConcat(s.events, more, i);
      NothingAbout(more, i);
    }
  }

  lemma {:induction false} NothingAbout(events: seq<Event>, i: int)
    requires forall k :: 0 <= k < |events| ==> !About(events[k], i)
    ensures LogOf(events, i) == []
  {
    if events != [] { NothingAbout(events[1..], i); }
  }

  /** The log of a chunk grows by the events about it. */
  lemma LogGrows(s: seq<Event>, e: Event, i: int)
    ensures LogOf(s + [e], i) == LogOf(s, i) + if About(e, i) then [e] else []
  {
    LogConcat(s, [e], i);
    assert LogOf([e][1..], i) == [];
  }

  lemma BeginLog(s: State, w: nat, c: Chunk)
    requires w < |s.workers| && LogOf(s.events, c.index) == []
    ensures LogOf(Begin(s, w, c).events, c.index) == [ChunkStart(c, 1)] == Throws(c, 0) + [ChunkStart(c, 1)]
  {
    LogGrows(s.events, ChunkStart(c, 1), c.index);
  }

  lemma ResolveLog(j: Job, s: State, w: nat)
    requires Enabled(j, s, Resolve(w)) && LogOk(j, s, s.workers[w])
    ensures var c := s.workers[w].chunk;
      LogOf(Next(j, s, Resolve(w)).events, c.index) == Succeeded(c, s.workers[w].attempt)
  {
    var c, a, s' := s.workers[w].chunk, s.workers[w].attempt, Next(j, s, Resolve(w));
    LogGrows(s.events, ChunkSuccess(c), c.index);
    var mid := s.events + [ChunkSuccess(c)];
    LogGrows(mid, Report(j, |s.completed| + 1, |s.failed|, s.inFlight - 1), c.index);
    assert s'.events == mid + [Report(j, |s.completed| + 1, |s.failed|, s.inFlight - 1)];
    assert Throws(c, a - 1) + [ChunkStart(c, a)] + [ChunkSuccess(c)] == Succeeded(c, a);
  }

  lemma RejectLog(j: Job, s: State, w: nat)
    requires Enabled(j, s, Reject(w)) && LogOk(j, s, s.workers[w]) && WorkerOk(j, s, s.workers[w])
    ensures var c, a, s' := s.workers[w].chunk, s.workers[w].attempt, Next(j, s, Reject(w));
      if a > j.maxRetries then LogOf(s'.events, c.index) == GaveUp(c, MaxAttempts(j))
      else LogOf(s'.events, c.index) == Throws(c, a) + [ChunkStart(c, a + 1)]
  {
    var c, a, s' := s.workers[w].chunk, s.workers[w].attempt, Next(j, s, Reject(w));
    LogGrows(s.events, ChunkError(c, a), c.index);
    var mid := s.events + [ChunkError(c, a)];
    assert Throws(c, a - 1) + [ChunkStart(c, a)] + [ChunkError(c, a)] == Throws(c, a);
    if a > j.maxRetries {
      LogGrows(mid, ChunkFailed(c), c.index);
      var e := Report(j, |s.completed|, |s.failed| + 1, s.inFlight - 1);
      LogGrows(mid + [ChunkFailed(c)], e, c.index);
      assert s'.events == mid + [ChunkFailed(c)] + [e];
    } else {
      LogGrows(mid, ChunkStart(c, a + 1), c.index);
      assert s'.events == mid + [ChunkStart(c, a + 1)];
    }
  }

  lemma SubjectLogged(j: Job, s: State, t: Step)
    requires WellPlanned(j) && Shape(j, s) && Logs(j, s) && Enabled(j, s, t) && !t.Exit?
    ensures var i, s' := Subject(j, s, t).index, Next(j, s, t);
      && LogOk(j, s', s'.workers[t.w])
      && (t.Resolve? ==> LogSucceeded(j, s', i))
      && (s'.failed != s.failed ==> LogGaveUp(j, s', i))
  {
    assert LogOk(j, s, s.workers[t.w]) && WorkerOk(j, s, s.workers[t.w]);
    match t
    case Pick(w) =>
      var s1 := s.(cursor := s.cursor + 1);
      BeginLog(s1, w, j.pending[s.cursor]);
    case Wake(w) => BeginLog(s, w, s.workers[w].chunk);
    case Resolve(w) => ResolveLog(j, s, w);
    case Reject(w) => RejectLog(j, s, w);
  }

  lemma LogsNext(j: Job, s: State, t: Step)
    requires WellPlanned(j) && Shape(j, s) && Logs(j, s) && Enabled(j, s, t) && !t.Exit? && Shape(j, Next(j, s, t))
    requires Conserved(j, s, Subject(j, s, t).index)
    ensures Logs(j, Next(j, s, t))
  {
    SubjectExclusive(j, s, t);
    StepSpeaksOfSubject(j, s, t);
    SubjectLogged(j, s, t);
    WorkersLogged(j, s, t);
    SettledLogged(j, s, t);
  }

  lemma WorkersLogged(j: Job, s: State, t: Step)
    requires Enabled(j, s, t) && !t.Exit?
    requires forall w :: 0 <= w < |s.workers| ==> LogOk(j, s, s.workers[w])
    requires forall w :: 0 <= w < |s.workers| && w != t.w ==> Holds(Subject(j, s, t).index)(s.workers[w]) == 0
    requires OnlyAbout(s, Next(j, s, t), Subject(j, s, t).index)
    requires LogOk(j, Next(j, s, t), Next(j, s, t).workers[t.w])
    ensures var s' := Next(j, s, t); forall w :: 0 <= w < |s'.workers| ==> LogOk(j, s', s'.workers[w])
  {
  }

  lemma SettledLogged(j: Job, s: State, t: Step)
    requires Sized(j, s) && Enabled(j, s, t) && !t.Exit?
    requires forall i <- Fresh(j, s) :: LogSucceeded(j, s, i)
    requires forall i <- s.failed :: LogGaveUp(j, s, i)
    requires OnlyAbout(s, Next(j, s, t), Subject(j, s, t).index)
    requires Subject(j, s, t).index !in Fresh(j, s) && Subject(j, s, t).index !in s.failed
    requires t.Resolve? ==> LogSucceeded(j, Next(j, s, t), Subject(j, s, t).index)
    requires Next(j, s, t).failed != s.failed ==> LogGaveUp(j, Next(j, s, t), Subject(j, s, t).index)
    ensures Sized(j, Next(j, s, t))
    ensures forall i <- Fresh(j, Next(j, s, t)) :: LogSucceeded(j, Next(j, s, t), i)
    ensures forall i <- Next(j, s, t).failed :: LogGaveUp(j, Next(j, s, t), i)
  {
    var s', i := Next(j, s, t), Subject(j, s, t).index;
    assert Fresh(j, s') == Fresh(j, s) + if t.Resolve? then [i] else [];
    forall k | k in Fresh(j, s')
      ensures LogSucceeded(j, s', k)
    {
      if k in Fresh(j, s) { assert LogSucceeded(j, s, k); }
    }
    assert s'.failed == s.failed || s'.failed == s.failed + [i];
    forall k | k in s'.failed
      ensures LogGaveUp(j, s', k)
    {
      if k in s.failed { assert LogGaveUp(j, s, k); }
    }
  }

  lemma LogsExit(j: Job, s: State, w: nat)
    requires Shape(j, s) && Logs(j, s) && Enabled(j, s, Exit(w)) && Shape(j, Next(j, s, Exit(w)))
    ensures Logs(j, Next(j, s, Exit(w)))
  {
  }

  lemma StartsGrow(s: seq<Event>, e: Event)
    ensures Starts(s + [e]) == Starts(s) + if e.ChunkStart? then 1 else 0
  {
    StartsConcat(s, [e]);
    assert Starts([e][1..]) == 0;
  }

  lemma StartsOf(j: Job, s: State, t: Step)
    requires Enabled(j, s, t)
    ensures Starts(Next(j, s, t).events) ==
      Starts(s.events) + if Next(j, s, t).workers[t.w].Calling? then 1 else 0
  {
    var all, old_ := Next(j, s, t).events, s.events;
    var n := |all| - |old_|;
    if n >= 1 { StartsGrow(old_, all[|old_|]); }
    if n >= 2 { StartsGrow(old_ + [all[|old_|]], all[|old_| + 1]); }
    if n >= 3 { StartsGrow(old_ + [all[|old_|]] + [all[|old_| + 1]], all[|old_| + 2]); }
    assert all == if n == 0 then old_ else if n == 1 then old_ + [all[|old_|]]
                  else if n == 2 then old_ + [all[|old_|]] + [all[|old_| + 1]]
                  else old_ + [all[|old_|]] + [all[|old_| + 1]] + [all[|old_| + 2]];
  }

  lemma BudgetNext(j: Job, s: State, t: Step)
    requires Sized(j, s) && Budget(j, s) && Enabled(j, s, t) && Sized(j, Next(j, s, t))
    requires WorkerOk(j, s, s.workers[t.w]) && WorkerOk(j, Next(j, s, t), Next(j, s, t).workers[t.w])
    ensures Budget(j, Next(j, s, t))
  {
    var s', max := Next(j, s, t), MaxAttempts(j);
    StartsOf(j, s, t);
    TotalUpdate(s.workers, t.w, s'.workers[t.w], CallsLeft(max));
    assert (|j.pending| - s.cursor) * max == (|j.pending| - s.cursor - 1) * max + max;
  }

  lemma ProgressNext(j: Job, s: State, t: Step)
    requires Shape(j, s) && Enabled(j, s, t) && Shape(j, Next(j, s, t))
    requires forall k :: 0 <= k < |s.events| ==> ProgressOk(j, s.events[k])
    ensures var s' := Next(j, s, t); forall k :: 0 <= k < |s'.events| ==> ProgressOk(j, s'.events[k])
  {
    var s' := Next(j, s, t);
    if t.Resolve? || t.Reject? {
      CallsWithinPool(s'.workers, t.w);
      ReportNearest(j, |s'.completed|, |s'.failed|, s'.inFlight);
    }
  }

  /** A pool whose worker `w` is not in a call has fewer calls than workers. */
  lemma {:induction false} CallsWithinPool(ws: seq<Worker>, w: nat)
    requires w < |ws|
    ensures Total(ws, InCall()) <= Total(ws, Busy()) <= |ws|
    ensures !ws[w].Calling? ==> Total(ws, InCall()) < |ws|
  {
    if |ws| > 1 { CallsWithinPool(ws[1..], if w == 0 then 0 else w - 1); }
  }

  lemma InvNext(j: Job, s: State, t: Step)
    requires Inv(j, s) && Enabled(j, s, t)
    ensures Inv(j, Next(j, s, t))
  {
    ShapeNext(j, s, t);
    forall i ensures Conserved(j, Next(j, s, t), i) { ConservedNext(j, s, t, i); }
    if t.Exit? { LogsExit(j, s, t.w); } else { LogsNext(j, s, t); }
    assert WorkerOk(j, s, s.workers[t.w]) && WorkerOk(j, Next(j, s, t), Next(j, s, t).workers[t.w]);
    BudgetNext(j, s, t);
    ProgressNext(j, s, t);
  }

  lemma RemainingDecreases(j: Job, s: State, t: Step)
    requires Shape(j, s) && Enabled(j, s, t) && Shape(j, Next(j, s, t))
    ensures Remaining(j, Next(j, s, t)) < Remaining(j, s)
  {
    var s', max := Next(j, s, t), MaxAttempts(j);
    TotalUpdate(s.workers, t.w, s'.workers[t.w], StepsLeft(max));
    assert WorkerOk(j, s, s.workers[t.w]) && WorkerOk(j, s', s'.workers[t.w]);
    assert (|j.pending| - s.cursor) * (max + 2) == (|j.pending| - s.cursor - 1) * (max + 2) + (max + 2);
  }

  /** The pool never deadlocks: a worker that has not exited can always step. */
  lemma NobodyStuck(j: Job, s: State, w: nat)
    requires Shape(j, s) && w < |s.workers| && s.workers[w] != Exited
    ensures exists t :: Enabled(j, s, t) && t.w == w
  {
    var t := match s.workers[w]
      case AtHead => if s.cursor < |j.pending| then Pick(w) else Exit(w)
      case Delaying(_) => Wake(w)
      case _ => Resolve(w);
    assert Enabled(j, s, t);
  }

  // ---------------------------------------------------------------- whole schedules

  ghost predicate Schedule(j: Job, s: State, steps: seq<Step>)
    decreases |steps|
  {
    steps == [] || (Enabled(j, s, steps[0]) && Schedule(j, Next(j, s, steps[0]), steps[1..]))
  }

  ghost function After(j: Job, s: State, steps: seq<Step>): State
    requires Schedule(j, s, steps)
    decreases |steps|
  {
    if steps == [] then s else After(j, Next(j, s, steps[0]), steps[1..])
  }

  lemma {:induction false} ScheduleKeeps(j: Job, s: State, steps: seq<Step>)
    requires Inv(j, s) && Schedule(j, s, steps)
    ensures Inv(j, After(j, s, steps))
    ensures |steps| + Remaining(j, After(j, s, steps)) <= Remaining(j, s)
    decreases |steps|
  {
    if steps != [] {
      InvNext(j, s, steps[0]);
      RemainingDecreases(j, s, steps[0]);
      ScheduleKeeps(j, Next(j, s, steps[0]), steps[1..]);
    }
  }

  lemma {:induction false} AllOnes(ws: seq<Worker>, cost: Worker -> nat)
    requires forall w :: 0 <= w < |ws| ==> cost(ws[w]) == 1
    ensures Total(ws, cost) == |ws|
  {
    if ws != [] { AllOnes(ws[1..], cost); }
  }

  /** A chunk picked so far is in exactly one place: held by one worker, completed or failed. */
  ghost predicate InOnePlace(s: State, i: int) {
    Total(s.workers, Holds(i)) + multiset(s.completed)[i] + multiset(s.failed)[i] == 1
  }

  /** A chunk not picked yet is held by nobody and in neither list. */
  ghost predicate InNoPlace(s: State, i: int) {
    Total(s.workers, Holds(i)) == 0 && i !in s.completed && i !in s.failed
  }

  lemma UnpickedNowhere(j: Job, s: State, k: nat)
    requires WellPlanned(j) && Sized(j, s) && s.cursor <= k < |j.pending| && Conserved(j, s, j.pending[k].index)
    ensures InNoPlace(s, j.pending[k].index)
  {
    var i := j.pending[k].index;
    PickedOnce(j, s);
    assert s.completed == j.resumed + Fresh(j, s) && i !in j.resumed;
    assert i !in multiset(Fresh(j, s)) && i !in multiset(s.failed);
  }

  lemma PickedSomewhere(j: Job, s: State, k: nat)
    requires WellPlanned(j) && Sized(j, s) && k < s.cursor && Conserved(j, s, j.pending[k].index)
    ensures InOnePlace(s, j.pending[k].index)
  {
    var i := j.pending[k].index;
    PickedOnce(j, s);
    assert Picked(j, s)[k] == i;
    assert i in multiset(Picked(j, s));
    assert s.completed == j.resumed + Fresh(j, s);
    assert i !in j.resumed;
  }

  lemma InFlightBound(j: Job, s: State)
    requires Shape(j, s) && j.poolSize >= 1
    ensures 0 <= s.inFlight <= Min(j.poolSize, s.cursor)
  {
    CallsWithinPool(s.workers, 0);
  }

  lemma StartRemaining(j: Job)
    ensures Remaining(j, Start(j)) == |j.pending| * (MaxAttempts(j) + 2) + j.poolSize
  {
    AllOnes(Start(j).workers, StepsLeft(MaxAttempts(j)));
  }

  lemma ScheduleFromStart(j: Job, steps: seq<Step>)
    requires WellPlanned(j) && Schedule(j, Start(j), steps)
    ensures PoolGuarantees(j, After(j, Start(j), steps))
    ensures |steps| <= |j.pending| * (MaxAttempts(j) + 2) + j.poolSize
  {
    StartInv(j);
    ScheduleKeeps(j, Start(j), steps);
    StartRemaining(j);
    InvGuarantees(j, After(j, Start(j), steps));
  }

  /** What the invariant says to a reader. */
  ghost predicate PoolGuarantees(j: Job, s: State) {
    // in-flight chunks stay within both limits
    && 0 <= s.inFlight <= Min(j.poolSize, |j.pending|)
    // the chunks picked are a prefix of pending, each of them in exactly one place
    && s.cursor <= |j.pending|
    && (forall k :: 0 <= k < s.cursor ==> InOnePlace(s, j.pending[k].index))
    && (forall k :: s.cursor <= k < |j.pending| ==> InNoPlace(s, j.pending[k].index))
    // the in-flight counter is the number of workers in a call
    && s.inFlight == Total(s.workers, InCall())
    // attempts never exceed the retry budget, of each chunk and of all
    && (forall k :: 0 <= k < |j.pending| ==> Accounted(j, s, j.pending[k].index))
    && Starts(s.events) <= |j.pending| * MaxAttempts(j)
  }

  /** The trail of a pending chunk bounds its attempts and tells whether it is completed or failed, and how. */
  ghost predicate Accounted(j: Job, s: State, i: int) {
    && 0 <= i < |j.chunks|
    && Starts(LogOf(s.events, i)) <= MaxAttempts(j)
    && (i in s.failed <==> LogOf(s.events, i) == GaveUp(j.chunks[i], MaxAttempts(j)))
    && (i in s.completed <==> LogSucceeded(j, s, i))
  }

  lemma {:induction false} ThrowsStarts(c: Chunk, n: nat)
    ensures Starts(Throws(c, n)) == n
  {
    if n > 0 {
      ThrowsStarts(c, n - 1);
      StartsConcat(Throws(c, n - 1), [ChunkStart(c, n), ChunkError(c, n)]);
      var last := [ChunkStart(c, n), ChunkError(c, n)];
      assert last[1..] == [ChunkError(c, n)] && last[1..][1..] == [];
      assert Starts(last[1..]) == 0;
    }
  }

  /** How many attempts a trail holds, and its last event. */
  lemma TrailOf(c: Chunk, a: nat, last: Event)
    requires a >= 1 && !last.ChunkStart?
    ensures Starts(Throws(c, a) + [last]) == a
    ensures Starts(Throws(c, a - 1) + [ChunkStart(c, a)]) == a
    ensures Starts(Throws(c, a - 1) + [ChunkStart(c, a), last]) == a
  {
    ThrowsStarts(c, a);
    ThrowsStarts(c, a - 1);
    StartsConcat(Throws(c, a), [last]);
    StartsConcat(Throws(c, a - 1), [ChunkStart(c, a)]);
    StartsConcat(Throws(c, a - 1), [ChunkStart(c, a), last]);
    assert [ChunkStart(c, a), last][1..] == [last];
  }

  /** Trails that end differently differ. */
  lemma TrailsDiffer(p: seq<Event>, q: seq<Event>)
    requires p == [] || (q != [] && p[|p| - 1] != q[|q| - 1])
    requires q != []
    ensures p != q
  {
  }

  lemma {:induction false} SomeHolder(ws: seq<Worker>, i: int) returns (w: nat)
    requires Total(ws, Holds(i)) >= 1
    ensures w < |ws| && Holds(i)(ws[w]) == 1
  {
    if Holds(i)(ws[0]) == 1 {
      w := 0;
    } else {
      w := SomeHolder(ws[1..], i);
      w := w + 1;
    }
  }

  lemma SettledAccounted(j: Job, s: State, i: int)
    requires Shape(j, s) && Logs(j, s) && 0 <= i < |j.chunks| && (i in Fresh(j, s) || i in s.failed)
    requires (i in Fresh(j, s)) != (i in s.failed) && (i in s.completed <==> i in Fresh(j, s))
    ensures Accounted(j, s, i)
  {
    var c, max, log := j.chunks[i], MaxAttempts(j), LogOf(s.events, i);
    if i in s.failed {
      assert LogGaveUp(j, s, i);
      TrailOf(c, max, ChunkFailed(c));
      assert log[|log| - 1] == ChunkFailed(c);
    } else {
      assert LogSucceeded(j, s, i);
      var a :| 1 <= a <= max && log == Succeeded(c, a);
      TrailOf(c, a, ChunkSuccess(c));
      assert log[|log| - 1] == ChunkSuccess(c);
      TrailsDiffer(log, GaveUp(c, max));
    }
  }

  lemma OpenAccounted(j: Job, s: State, i: int)
    requires 0 <= i < |j.chunks| && i !in s.failed && i !in s.completed
    requires LogOf(s.events, i) == []
             || exists a :: 1 <= a <= MaxAttempts(j) &&
                  LogOf(s.events, i) == Throws(j.chunks[i], a - 1) + [ChunkStart(j.chunks[i], a)]
    ensures Accounted(j, s, i)
  {
    var c, max, log := j.chunks[i], MaxAttempts(j), LogOf(s.events, i);
    if log != [] {
      var a :| 1 <= a <= max && log == Throws(c, a - 1) + [ChunkStart(c, a)];
      TrailOf(c, a, ChunkFailed(c));
      assert log[|log| - 1] == ChunkStart(c, a);
    }
    TrailsDiffer(log, GaveUp(c, max));
    forall a | 1 <= a <= max
      ensures log != Succeeded(c, a)
    {
      TrailsDiffer(log, Succeeded(c, a));
    }
  }

  lemma PendingAccounted(j: Job, s: State, k: nat)
    requires Inv(j, s) && k < |j.pending|
    ensures Accounted(j, s, j.pending[k].index)
  {
    var i := j.pending[k].index;
    PickedOnce(j, s);
    assert Conserved(j, s, i);
    assert s.completed == j.resumed + Fresh(j, s) && i !in j.resumed;
    if k >= s.cursor {
      assert multiset(Picked(j, s))[i] == 0;
      OpenAccounted(j, s, i);
    } else {
      PickedSomewhere(j, s, k);
      if Total(s.workers, Holds(i)) >= 1 {
        var w := SomeHolder(s.workers, i);
        assert LogOk(j, s, s.workers[w]) && WorkerOk(j, s, s.workers[w]);
        OpenAccounted(j, s, i);
      } else {
        SettledAccounted(j, s, i);
      }
    }
  }

  lemma PickedInOnePlace(j: Job, s: State)
    requires WellPlanned(j) && Sized(j, s) && forall i :: Conserved(j, s, i)
    ensures forall k :: 0 <= k < s.cursor ==> InOnePlace(s, j.pending[k].index)
    ensures forall k :: s.cursor <= k < |j.pending| ==> InNoPlace(s, j.pending[k].index)
  {
    forall k | s.cursor <= k < |j.pending|
      ensures InNoPlace(s, j.pending[k].index)
    {
      assert Conserved(j, s, j.pending[k].index);
      UnpickedNowhere(j, s, k);
    }
    forall k | 0 <= k < s.cursor
      ensures InOnePlace(s, j.pending[k].index)
    {
      assert Conserved(j, s, j.pending[k].index);
      PickedSomewhere(j, s, k);
    }
  }

  lemma CallsWithinBudget(j: Job, s: State)
    requires Sized(j, s) && Budget(j, s)
    ensures Starts(s.events) <= |j.pending| * MaxAttempts(j)
  {
  }

  lemma InvGuarantees(j: Job, s: State)
    requires Inv(j, s)
    ensures PoolGuarantees(j, s)
  {
    InFlightBound(j, s);
    PickedInOnePlace(j, s);
    CallsWithinBudget(j, s);
    forall k | 0 <= k < |j.pending|
      ensures Accounted(j, s, j.pending[k].index)
    {
      PendingAccounted(j, s, k);
    }
  }

  /** The calls one chunk may get, as the configuration asks for them. */
  predicate CallsAsked(c: Config, calls: int) {
    match c.maxRetries
    case Some(n) => 1 <= calls <= Max(1, n + 1)
    case None => 1 <= calls <= 4
  }

  /** No further call is allowed after this many. */
  predicate CallsUsedUp(c: Config, calls: int) {
    CallsAsked(c, calls) && !CallsAsked(c, calls + 1)
  }

  predicate Resumed(c: Config, i: int) {
    c.completedChunks.Some? && i in c.completedChunks.value
  }

  /** A job against the fields of its configuration. */
  ghost predicate AsConfigured(c: Config, j: Job) {
    && Tiling(j.chunks, 0, c.rangeStart, c.rangeEnd, c.chunkSize)
    && (forall i :: i in Indexes(j.pending) <==> 0 <= i < |j.chunks| && !Resumed(c, i))
    && (forall k, l :: 0 <= k < l < |j.pending| ==> j.pending[k].index < j.pending[l].index)
    && CallsUsedUp(c, MaxAttempts(j))
    && (|j.pending| == 0 ==> j.poolSize == 1)
    && (|j.pending| > 0 ==> j.poolSize == Min(match c.concurrency case Some(n) => n case None => 1, |j.pending|))
  }

  lemma PendingIsTheRest(j: Job)
    requires WellPlanned(j)
    ensures forall i :: i in Indexes(j.pending) <==> 0 <= i < |j.chunks| && i !in j.resumed
  {
    forall i | i in Indexes(j.pending)
      ensures 0 <= i < |j.chunks| && i !in j.resumed
    {
      var k :| 0 <= k < |j.pending| && Indexes(j.pending)[k] == i;
    }
  }

  lemma JobAsConfigured(c: Config, j: Job)
    requires Validate(c) == None && j == JobOf(c) && WellPlanned(j)
    requires Tiling(j.chunks, 0, c.rangeStart, c.rangeEnd, c.chunkSize)
    ensures AsConfigured(c, j)
  {
    PendingIsTheRest(j);
  }

  function Picks(steps: seq<Step>): nat {
    if steps == [] then 0 else (if steps[0].Pick? then 1 else 0) + Picks(steps[1..])
  }

  function Wakes(steps: seq<Step>): nat {
    if steps == [] then 0 else (if steps[0].Wake? then 1 else 0) + Wakes(steps[1..])
  }

  function Sleeping(): Worker -> nat { (w: Worker) => if w.Delaying? then 1 else 0 }

  predicate Delays(c: Config) { c.minDelayMs.Some? && c.minDelayMs.value > 0 }

  /** Every pick is followed by a sleep if the configuration has a positive delay, and by none otherwise. */
  lemma {:induction false} SleepsAsConfigured(c: Config, s: State, steps: seq<Step>)
    requires Validate(c) == None && Schedule(JobOf(c), s, steps)
    ensures var s' := After(JobOf(c), s, steps);
      Total(s'.workers, Sleeping()) + Wakes(steps)
        == Total(s.workers, Sleeping()) + if Delays(c) then Picks(steps) else 0
    decreases |steps|
  {
    if steps != [] {
      var s1 := Next(JobOf(c), s, steps[0]);
      TotalUpdate(s.workers, steps[0].w, s1.workers[steps[0].w], Sleeping());
      SleepsAsConfigured(c, s1, steps[1..]);
    }
  }

  /** What holds at every point of every schedule, for every pattern of failures. */
  lemma {:induction false} EverySchedule(c: Config, j: Job, steps: seq<Step>)
    requires Validate(c) == None && j == JobOf(c) && Schedule(j, Start(j), steps)
    ensures PoolGuarantees(j, After(j, Start(j), steps))
    ensures AsConfigured(c, j) && |After(j, Start(j), steps).workers| == j.poolSize
    ensures Total(After(j, Start(j), steps).workers, Sleeping()) + Wakes(steps) == if Delays(c) then Picks(steps) else 0
    ensures |steps| <= |j.pending| * (MaxAttempts(j) + 2) + j.poolSize
  {
    JobIsWellPlanned(c);
    ScheduleFromStart(j, steps);
    JobAsConfigured(c, j);
    PoolKeepsSize(j, Start(j), steps);
    SleepsFromStart(c, steps);
  }

  lemma SleepsFromStart(c: Config, steps: seq<Step>)
    requires Validate(c) == None && Schedule(JobOf(c), Start(JobOf(c)), steps)
    ensures var s := After(JobOf(c), Start(JobOf(c)), steps);
      Total(s.workers, Sleeping()) + Wakes(steps) == if Delays(c) then Picks(steps) else 0
  {
    SleepsAsConfigured(c, Start(JobOf(c)), steps);
    AllZero(Start(JobOf(c)).workers, Sleeping());
  }

  lemma {:induction false} PoolKeepsSize(j: Job, s: State, steps: seq<Step>)
    requires Schedule(j, s, steps)
    ensures |After(j, s, steps).workers| == |s.workers|
    decreases |steps|
  {
    if steps != [] { PoolKeepsSize(j, Next(j, s, steps[0]), steps[1..]); }
  }
}
