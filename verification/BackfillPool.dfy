/** `runBackfill` as imperative code over its shared variables, and what resumed runs add up to. */
module BackfillPool {
  import opened Common
  import opened Backfill
  import opened BackfillSchedules

  datatype Outcome = Outcome(completedChunks: seq<int>, failedChunks: seq<int>, total: nat)

  /** The variables the workers of one `runBackfill` call share; each method is one step between awaits. */
  class Pool {
    const job: Job
    var cursor: nat
    var inFlight: int
    var completed: seq<int>
    var failed: seq<int>
    var workers: seq<Worker>
    var events: seq<Event>

    ghost function Now(): State
      reads this
    {
      State(cursor, inFlight, completed, failed, workers, events)
    }

    constructor (job: Job)
      ensures this.job == job && Now() == Start(job)
    {
      this.job := job;
      cursor, inFlight := 0, 0;
      completed, failed := job.resumed, [];
      workers := seq(job.poolSize, _ => AtHead);
      events := [];
    }

    method EmitProgress()
      modifies this`events
      ensures events == old(events) + [Report(job, |completed|, |failed|, inFlight)]
    {
      var settled := |completed| + |failed|;
      var total := |job.chunks|;
      var percent := if total == 0 then 100 else (200 * settled + total) / (2 * total);
      events := events + [Progress(total, |completed|, |failed|, inFlight, percent)];
    }

    /** Entry of `processOne`, up to its first await. */
    method BeginChunk(w: nat, c: Chunk)
      requires w < |workers|
      modifies this
      ensures Now() == old(Begin(Now(), w, c))
    {
      inFlight := inFlight + 1;
      events := events + [ChunkStart(c, 1)];
      workers := workers[w := Calling(c, 1)];
    }

    method PickNext(w: nat)
      requires Enabled(job, Now(), Pick(w))
      modifies this
      ensures Now() == Next(job, old(Now()), Pick(w))
    {
      var chunk := job.pending[cursor];
      cursor := cursor + 1;
      if job.delayed {
        workers := workers[w := Delaying(chunk)];
      } else {
        BeginChunk(w, chunk);
      }
    }

    method WakeUp(w: nat)
      requires Enabled(job, Now(), Wake(w))
      modifies this
      ensures Now() == Next(job, old(Now()), Wake(w))
    {
      BeginChunk(w, workers[w].chunk);
    }

    method CallSucceeded(w: nat)
      requires Enabled(job, Now(), Resolve(w))
      modifies this
      ensures Now() == Next(job, old(Now()), Resolve(w))
    {
      var chunk := workers[w].chunk;
      events := events + [ChunkSuccess(chunk)];
      completed := completed + [chunk.index];
      workers := workers[w := AtHead];
      inFlight := inFlight - 1;
      EmitProgress();
    }

    method CallThrew(w: nat)
      requires Enabled(job, Now(), Reject(w))
      modifies this
      ensures Now() == Next(job, old(Now()), Reject(w))
    {
      var chunk, attempt := workers[w].chunk, workers[w].attempt;
      events := events + [ChunkError(chunk, attempt)];
      if attempt > job.maxRetries {
        events := events + [ChunkFailed(chunk)];
        failed := failed + [chunk.index];
        workers := workers[w := AtHead];
        inFlight := inFlight - 1;
        EmitProgress();
      } else {
        events := events + [ChunkStart(chunk, attempt + 1)];
        workers := workers[w := Calling(chunk, attempt + 1)];
      }
    }

    method Leave(w: nat)
      requires Enabled(job, Now(), Exit(w))
      modifies this
      ensures Now() == Next(job, old(Now()), Exit(w))
    {
      workers := workers[w := Exited];
    }

    /** Some worker takes some step; which worker and whether its call throws is left open. */
    method StepSome() returns (ghost t: Step)
      requires Shape(job, Now()) && exists w :: 0 <= w < |workers| && workers[w] != Exited
      modifies this
      ensures Enabled(job, old(Now()), t) && Now() == Next(job, old(Now()), t)
    {
      var w: nat :| w < |workers| && workers[w] != Exited;
      match workers[w]
      case AtHead =>
        if cursor < |job.pending| {
          t := Pick(w);
          PickNext(w);
        } else {
          t := Exit(w);
          Leave(w);
        }
      case Delaying(_) =>
        t := Wake(w);
        WakeUp(w);
      case Calling(_, _) =>
        var threw: bool := *;
        if threw {
          t := Reject(w);
          CallThrew(w);
        } else {
          t := Resolve(w);
          CallSucceeded(w);
        }
    }
  }

  // ---------------------------------------------------------------- the result of a run

  /** `completed` and `failed` settle the resume list and every pending chunk, each exactly once. */
  ghost predicate Settles(j: Job, o: Outcome) {
    && Ascending(o.completedChunks) && Ascending(o.failedChunks)
    && o.total == |j.chunks|
    && (forall i :: multiset(o.completedChunks)[i] + multiset(o.failedChunks)[i]
                    == multiset(j.resumed)[i] + multiset(Indexes(j.pending))[i])
    && (forall i <- j.resumed :: i in o.completedChunks)
    && (forall i <- o.failedChunks :: i !in j.resumed)
  }

  /** A pending chunk is completed when one of its attempts succeeded, and failed iff every allowed attempt threw. */
  ghost predicate Explains(j: Job, o: Outcome, events: seq<Event>) {
    && (forall k :: 0 <= k < |j.pending| ==>
          var c := j.pending[k];
          if c.index in o.failedChunks then LogOf(events, c.index) == GaveUp(c, MaxAttempts(j))
          else exists a :: 1 <= a <= MaxAttempts(j) && LogOf(events, c.index) == Succeeded(c, a))
    && Starts(events) <= |j.pending| * MaxAttempts(j)
    && (forall k :: 0 <= k < |events| ==> ProgressOk(j, events[k]))
  }

  ghost predicate AllExited(s: State) {
    forall w :: 0 <= w < |s.workers| ==> s.workers[w] == Exited
  }

  lemma FinalCounts(j: Job, s: State, i: int)
    requires Shape(j, s) && AllExited(s) && Conserved(j, s, i) && j.poolSize >= 1
    ensures s.cursor == |j.pending|
    ensures multiset(s.completed)[i] + multiset(s.failed)[i] == multiset(j.resumed)[i] + multiset(Indexes(j.pending))[i]
  {
    assert WorkerOk(j, s, s.workers[0]);
    AllZero(s.workers, Holds(i));
    assert Picked(j, s) == Indexes(j.pending) by { assert j.pending[..s.cursor] == j.pending; }
    assert s.completed == j.resumed + Fresh(j, s);
  }

  function OutcomeOf(j: Job, s: State): Outcome { Outcome(Sort(s.completed), Sort(s.failed), |j.chunks|) }

  lemma SortKeeps(s: seq<int>)
    ensures forall i :: i in Sort(s) <==> i in s
  {
    assert forall i :: i in Sort(s) <==> i in multiset(Sort(s));
  }

  lemma FinalSettles(j: Job, s: State)
    requires Inv(j, s) && AllExited(s)
    ensures Settles(j, OutcomeOf(j, s))
  {
    SortKeeps(s.completed);
    SortKeeps(s.failed);
    forall i
      ensures multiset(s.completed)[i] + multiset(s.failed)[i] ==
        multiset(j.resumed)[i] + multiset(Indexes(j.pending))[i]
    {
      assert Conserved(j, s, i);
      FinalCounts(j, s, i);
    }
    forall i | i in j.resumed ensures i in OutcomeOf(j, s).completedChunks {
      var k :| 0 <= k < |j.resumed| && j.resumed[k] == i;
      assert s.completed[k] == i;
    }
    FailedNotResumed(j, s);
  }

  lemma FailedNotResumed(j: Job, s: State)
    requires WellPlanned(j) && Sized(j, s) && forall i :: Conserved(j, s, i)
    ensures forall i <- s.failed :: i !in j.resumed
  {
    forall i | i in s.failed
      ensures i !in j.resumed
    {
      assert Conserved(j, s, i);
      assert i in Picked(j, s);
      var k :| 0 <= k < s.cursor && Picked(j, s)[k] == i;
      assert j.pending[k].index == i;
    }
  }

  /** A pending chunk ends up in the failed list, or failing that among the fresh completions. */
  lemma PendingSettled(j: Job, s: State, k: nat)
    requires WellPlanned(j) && Shape(j, s) && AllExited(s) && k < |j.pending| && Conserved(j, s, j.pending[k].index)
    requires j.poolSize >= 1
    ensures j.pending[k].index in s.failed || j.pending[k].index in Fresh(j, s)
  {
    var i := j.pending[k].index;
    FinalCounts(j, s, i);
    AllZero(s.workers, Holds(i));
    assert Picked(j, s)[k] == i;
    assert i in multiset(Picked(j, s));
  }

  lemma FinalExplains(j: Job, s: State)
    requires Inv(j, s) && AllExited(s)
    ensures Explains(j, OutcomeOf(j, s), s.events)
  {
    var o := OutcomeOf(j, s);
    SortKeeps(s.failed);
    CallsWithinBudget(j, s);
    forall k | 0 <= k < |j.pending|
      ensures var c := j.pending[k];
        if c.index in o.failedChunks then LogOf(s.events, c.index) == GaveUp(c, MaxAttempts(j))
        else exists a :: 1 <= a <= MaxAttempts(j) && LogOf(s.events, c.index) == Succeeded(c, a)
    {
      var c := j.pending[k];
      assert Conserved(j, s, c.index);
      PendingSettled(j, s, k);
      if c.index in s.failed {
        assert LogGaveUp(j, s, c.index);
      } else {
        assert LogSucceeded(j, s, c.index);
      }
    }
  }

  lemma PendingCount(j: Job, i: int)
    requires WellPlanned(j)
    ensures multiset(Indexes(j.pending))[i] == if 0 <= i < |j.chunks| && i !in j.resumed then 1 else 0
  {
    var p := Indexes(j.pending);
    DistinctMultiset(p);
    if i in p {
      var k :| 0 <= k < |p| && p[k] == i;
      assert j.pending[k].index == i;
    }
    assert i in p <==> i in multiset(p);
  }

  function TimesResumed(c: Config, i: int): nat {
    match c.completedChunks
    case Some(s) => multiset(s)[i]
    case None => 0
  }

  /**
   * The result against the fields of the configuration: every chunk of the range that is not resumed is settled
   * once, after a number of calls that the retries asked for allow, and as failed only after all of them.
   */
  ghost predicate AnswersConfig(c: Config, o: Outcome, events: seq<Event>) {
    && (exists chunks: seq<Chunk> :: Tiling(chunks, 0, c.rangeStart, c.rangeEnd, c.chunkSize) && o.total == |chunks|)
    && (forall i :: SettledAsAsked(c, o, i))
    && (forall i :: 0 <= i < o.total && !Resumed(c, i) ==> TriedAsAsked(c, o, Starts(LogOf(events, i)), i))
  }

  ghost predicate SettledAsAsked(c: Config, o: Outcome, i: int) {
    && multiset(o.completedChunks)[i] + multiset(o.failedChunks)[i]
       == TimesResumed(c, i) + (if 0 <= i < o.total && !Resumed(c, i) then 1 else 0)
    && (Resumed(c, i) ==> i !in o.failedChunks)
  }

  predicate TriedAsAsked(c: Config, o: Outcome, calls: int, i: int) {
    if i in o.failedChunks then CallsUsedUp(c, calls) else CallsAsked(c, calls)
  }

  lemma SettlesAnswers(c: Config, j: Job, o: Outcome, i: int)
    requires Validate(c) == None && j == JobOf(c) && WellPlanned(j) && Settles(j, o)
    ensures SettledAsAsked(c, o, i)
  {
    PendingCount(j, i);
  }

  lemma ExplainsAnswers(c: Config, j: Job, o: Outcome, events: seq<Event>, i: int)
    requires WellPlanned(j) && AsConfigured(c, j) && Explains(j, o, events)
    requires 0 <= i < |j.chunks| && !Resumed(c, i)
    ensures TriedAsAsked(c, o, Starts(LogOf(events, i)), i)
  {
    var k :| 0 <= k < |j.pending| && Indexes(j.pending)[k] == i;
    var chunk := j.pending[k];
    if i in o.failedChunks {
      TrailOf(chunk, MaxAttempts(j), ChunkFailed(chunk));
    } else {
      var a :| 1 <= a <= MaxAttempts(j) && LogOf(events, i) == Succeeded(chunk, a);
      TrailOf(chunk, a, ChunkSuccess(chunk));
    }
  }

  lemma RunAnswers(c: Config, j: Job, o: Outcome, events: seq<Event>)
    requires Validate(c) == None && j == JobOf(c) && Settles(j, o) && Explains(j, o, events)
    ensures AnswersConfig(c, o, events)
  {
    JobIsWellPlanned(c);
    JobAsConfigured(c, j);
    forall i ensures SettledAsAsked(c, o, i) { SettlesAnswers(c, j, o, i); }
    forall i | 0 <= i < o.total && !Resumed(c, i)
      ensures TriedAsAsked(c, o, Starts(LogOf(events, i)), i)
    {
      ExplainsAnswers(c, j, o, events, i);
    }
  }

  /** Awaits the whole pool: steps until every worker has left its loop. */
  method Drain(pool: Pool)
    requires Inv(pool.job, pool.Now())
    modifies pool
    ensures Inv(pool.job, pool.Now()) && AllExited(pool.Now())
  {
    while exists w :: 0 <= w < |pool.workers| && pool.workers[w] != Exited
      invariant Inv(pool.job, pool.Now())
      decreases Remaining(pool.job, pool.Now())
    {
      ghost var before := pool.Now();
      ghost var t := pool.StepSome();
      InvNext(pool.job, before, t);
      RemainingDecreases(pool.job, before, t);
    }
  }

  /**
   * Resolves for every schedule and every pattern of failures, with each pending
   * chunk settled exactly once and the audit events saying why, as the configuration asks.
   */
  method RunBackfill(c: Config) returns (r: Result<Outcome, ConfigError>, events: seq<Event>)
    ensures r.Failure? <==> Validate(c).Some?
    ensures r.Failure? ==> Some(r.error) == Validate(c)
    ensures r.Success? ==> Settles(JobOf(c), r.value) && Explains(JobOf(c), r.value, events)
    ensures r.Success? ==> AnswersConfig(c, r.value, events)
  {
    events := [];
    var plan := PlanChunks(c);
    if plan.Failure? {
      return Failure(plan.error), events;
    }
    var done := if c.completedChunks.Some? then c.completedChunks.value else [];
    var pending := NotDone(plan.value, done);
    var concurrency := Concurrency(c);
    var maxRetries := if c.maxRetries.Some? then c.maxRetries.value else 3;
    var minDelayMs := if c.minDelayMs.Some? then c.minDelayMs.value else 0;
    var poolSize := Max(1, Min(concurrency, if |pending| == 0 then 1 else |pending|));
    var job := Job(plan.value, done, pending, maxRetries, minDelayMs > 0, poolSize);
    assert job == JobOf(c);
    r, events := RunJob(c, job);
    RunAnswers(c, job, r.value, events);
  }

  method RunJob(ghost c: Config, job: Job) returns (r: Result<Outcome, ConfigError>, events: seq<Event>)
    requires Validate(c) == None && job == JobOf(c)
    ensures r.Success? && Settles(job, r.value) && Explains(job, r.value, events)
  {
    JobIsWellPlanned(c);
    StartInv(job);
    var pool := new Pool(job);
    Drain(pool);
    FinalSettles(job, pool.Now());
    FinalExplains(job, pool.Now());
    events := pool.events;
    r := Success(Outcome(Sort(pool.completed), Sort(pool.failed), |job.chunks|));
  }

  // ---------------------------------------------------------------- resumed runs

  /** The two lists partition 0 .. total - 1. */
  ghost predicate Partitions(o: Outcome) {
    forall i :: multiset(o.completedChunks)[i] + multiset(o.failedChunks)[i] == if 0 <= i < o.total then 1 else 0
  }

  predicate InRange(s: seq<int>, total: nat) {
    forall k :: 0 <= k < |s| ==> 0 <= s[k] < total
  }

  lemma MembersInRange(s: seq<int>, total: nat)
    requires forall i :: i in s ==> 0 <= i < total
    ensures InRange(s, total)
  {
    assert forall k :: 0 <= k < |s| ==> s[k] in s;
  }

  /** A run covers every chunk exactly once just when its resume list is distinct and within the plan. */
  lemma {:induction false} PartitionsIff(j: Job, o: Outcome)
    requires WellPlanned(j) && Settles(j, o)
    ensures Partitions(o) <==> Distinct(j.resumed) && InRange(j.resumed, o.total)
  {
    DistinctMultiset(j.resumed);
    forall i ensures multiset(Indexes(j.pending))[i] == if 0 <= i < |j.chunks| && i !in j.resumed then 1 else 0 {
      PendingCount(j, i);
    }
    assert forall i :: i in j.resumed <==> i in multiset(j.resumed);
    if Partitions(o) {
      forall i
        ensures multiset(j.resumed)[i] <= 1 && (i in j.resumed ==> 0 <= i < o.total)
      {
        assert multiset(o.completedChunks)[i] + multiset(o.failedChunks)[i]
            == multiset(j.resumed)[i] + multiset(Indexes(j.pending))[i];
      }
      MembersInRange(j.resumed, o.total);
    }
  }

  /** A range of one chunk, resumed from a list that names it twice, and from one that names a chunk out of range. */
  const TWICE := Config(0, 1, 1, None, None, None, Some([0, 0]))
  const BEYOND := Config(0, 1, 1, None, None, None, Some([1]))

  /** Neither configuration is rejected, and no outcome of either partitions the plan. */
  lemma {:induction false} ResumeCanFailToPartition(c: Config, o: Outcome)
    requires (c == TWICE || c == BEYOND) && Settles(JobOf(c), o)
    ensures Validate(c) == None && !Partitions(o)
  {
    JobIsWellPlanned(c);
    PartitionsIff(JobOf(c), o);
    assert Plan(c) == ChunksFrom(0, 0, 1, 1);
    if c == TWICE { assert JobOf(c).resumed[0] == JobOf(c).resumed[1]; } else { assert JobOf(c).resumed[0] == 1; }
  }

  ghost predicate SameRange(c: Config, d: Config) {
    c.rangeStart == d.rangeStart && c.rangeEnd == d.rangeEnd && c.chunkSize == d.chunkSize
  }

  /** Runs over one range, each resumed from the completed list of the one before. */
  ghost predicate ResumeChain(cs: seq<Config>, runs: seq<Outcome>) {
    && |cs| == |runs| > 0
    && (forall k :: 0 <= k < |cs| ==> SameRange(cs[k], cs[0]) && Validate(cs[k]) == None)
    && (forall k :: 0 < k < |cs| ==> cs[k].completedChunks == Some(runs[k - 1].completedChunks))
    && (forall k :: 0 <= k < |cs| ==> Settles(JobOf(cs[k]), runs[k]))
  }

  lemma {:induction false} RunPartitions(c: Config, o: Outcome)
    requires Validate(c) == None && Settles(JobOf(c), o)
    requires Distinct(JobOf(c).resumed) && InRange(JobOf(c).resumed, |Plan(c)|)
    ensures Partitions(o) && o.total == |Plan(c)|
  {
    JobIsWellPlanned(c);
    PartitionsIff(JobOf(c), o);
  }

  lemma PartitionLists(o: Outcome)
    requires Partitions(o)
    ensures Distinct(o.completedChunks) && InRange(o.completedChunks, o.total)
  {
    DistinctMultiset(o.completedChunks);
    forall i
      ensures multiset(o.completedChunks)[i] <= 1 && (i in o.completedChunks ==> 0 <= i < o.total)
    {
      assert multiset(o.completedChunks)[i] + multiset(o.failedChunks)[i] == if 0 <= i < o.total then 1 else 0;
      assert i in o.completedChunks <==> i in multiset(o.completedChunks);
    }
    MembersInRange(o.completedChunks, o.total);
  }

  lemma UptoCounts(n: nat, i: int)
    ensures multiset(Upto(n))[i] == if 0 <= i < n then 1 else 0
  {
    var all := Upto(n);
    DistinctMultiset(all);
    assert 0 <= i < n ==> all[i] == i;
    assert i in all <==> i in multiset(all);
  }

  lemma NothingFailed(o: Outcome)
    requires Partitions(o) && Ascending(o.completedChunks) && o.failedChunks == []
    ensures o.completedChunks == Upto(o.total)
  {
    forall i ensures multiset(o.completedChunks)[i] == multiset(Upto(o.total))[i] {
      UptoCounts(o.total, i);
      assert multiset(o.failedChunks)[i] == 0;
    }
    assert multiset(o.completedChunks) == multiset(Upto(o.total));
    SortedUnique(o.completedChunks, Upto(o.total));
  }

  function Ranges(chunks: seq<Chunk>, s: seq<int>): (r: seq<Chunk>)
    requires InRange(s, |chunks|)
    ensures |r| == |s| && forall i :: 0 <= i < |s| ==> r[i] == chunks[s[i]]
  {
    seq(|s|, i requires 0 <= i < |s| => chunks[s[i]])
  }

  /** A partition whose completed list is a fit resume list for a plan of `total` chunks. */
  ghost predicate Resumable(o: Outcome, total: nat) {
    Partitions(o) && o.total == total && Distinct(o.completedChunks) && InRange(o.completedChunks, total)
  }

  lemma {:induction false} RunResumable(c: Config, o: Outcome)
    requires Validate(c) == None && Settles(JobOf(c), o)
    requires Distinct(JobOf(c).resumed) && InRange(JobOf(c).resumed, |Plan(c)|)
    ensures Resumable(o, |Plan(c)|)
  {
    RunPartitions(c, o);
    PartitionLists(o);
  }

  /** No run of a chain of resumed runs completes a chunk twice. */
  lemma {:induction false} ChainPartitions(cs: seq<Config>, runs: seq<Outcome>, k: nat)
    requires ResumeChain(cs, runs) && k < |runs|
    requires Distinct(JobOf(cs[0]).resumed) && InRange(JobOf(cs[0]).resumed, |Plan(cs[0])|)
    ensures Resumable(runs[k], |Plan(cs[0])|)
  {
    if k > 0 { ChainPartitions(cs, runs, k - 1); }
    LinkResumable(cs, runs, k);
  }

  lemma LinkResumable(cs: seq<Config>, runs: seq<Outcome>, k: nat)
    requires ResumeChain(cs, runs) && k < |runs|
    requires k > 0 ==> Resumable(runs[k - 1], |Plan(cs[0])|)
    requires k == 0 ==> Distinct(JobOf(cs[0]).resumed) && InRange(JobOf(cs[0]).resumed, |Plan(cs[0])|)
    ensures Resumable(runs[k], |Plan(cs[0])|)
  {
    RunResumable(cs[k], runs[k]);
  }

  ghost predicate Within(s: seq<int>, t: seq<int>) {
    forall i <- s :: i in t
  }

  lemma LinkGrows(cs: seq<Config>, runs: seq<Outcome>, k: nat)
    requires ResumeChain(cs, runs) && 0 < k < |runs|
    ensures Within(runs[k - 1].completedChunks, runs[k].completedChunks)
  {
    assert Settles(JobOf(cs[k]), runs[k]);
  }

  lemma {:induction false} StepsGrow(lists: seq<seq<int>>, l: nat, k: nat)
    requires l <= k < |lists| && forall m :: 0 < m < |lists| ==> Within(lists[m - 1], lists[m])
    ensures Within(lists[l], lists[k])
  {
    if l < k { StepsGrow(lists, l, k - 1); }
  }

  /** The completed set of a chain only grows. */
  lemma {:induction false} ChainGrows(cs: seq<Config>, runs: seq<Outcome>, l: nat, k: nat)
    requires ResumeChain(cs, runs) && l <= k < |runs|
    ensures Within(runs[l].completedChunks, runs[k].completedChunks)
  {
    var lists := seq(|runs|, m requires 0 <= m < |runs| => runs[m].completedChunks);
    forall m | 0 < m < |lists|
      ensures Within(lists[m - 1], lists[m])
    {
      LinkGrows(cs, runs, m);
    }
    StepsGrow(lists, l, k);
  }

  lemma {:induction false} AllRanges(c: Config)
    requires Validate(c) == None
    ensures Tiling(Ranges(Plan(c), Upto(|Plan(c)|)), 0, c.rangeStart, c.rangeEnd, c.chunkSize)
  {
    ChunksTile(0, c.rangeStart, c.rangeEnd, c.chunkSize);
    assert Ranges(Plan(c), Upto(|Plan(c)|)) == Plan(c);
  }

  /** Once a run of the chain fails nothing, its completed chunks tile the range without gap or overlap. */
  lemma {:induction false} ChainTiles(cs: seq<Config>, runs: seq<Outcome>, k: nat)
    requires ResumeChain(cs, runs) && k < |runs| && runs[k].failedChunks == []
    requires Distinct(JobOf(cs[0]).resumed) && InRange(JobOf(cs[0]).resumed, |Plan(cs[0])|)
    ensures InRange(runs[k].completedChunks, |Plan(cs[0])|)
    ensures Tiling(Ranges(Plan(cs[0]), runs[k].completedChunks), 0, cs[0].rangeStart, cs[0].rangeEnd, cs[0].chunkSize)
  {
    ChainPartitions(cs, runs, k);
    NothingFailed(runs[k]);
    AllRanges(cs[0]);
  }
}
