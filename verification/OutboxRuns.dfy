/** What the outbox keeps over every interleaving of publishers, dispatch jobs and admin retries. */
module OutboxRuns {
  import opened Common
  import opened Outbox

  lemma EmptyInv(maxRetries: int)
    ensures Inv(EMPTY, maxRetries)
  {
  }

  // ---------------------------------------------------------------- ownership

  /** A step touches at most one row: the event of its job, the retried event, or the new one. */
  function Touched(s: State, t: Step): EventId
    requires Enabled(s, t)
  {
    match t
    case Publish(_, _, _, _, _) => s.nextId
    case StartJob(_, e) => e
    case RetryEvent(e, _) => e
    case _ => s.jobs[JobIn(t)].event
  }

  function JobIn(t: Step): JobId
    requires !t.Publish? && !t.RetryEvent?
  {
    t.job
  }

  lemma RowsElsewhere(s: State, t: Step, maxRetries: int, e: EventId)
    requires Enabled(s, t) && e != Touched(s, t)
    ensures var s' := Next(s, t, maxRetries);
      (e in s'.rows <==> e in s.rows) && (e in s.rows ==> s'.rows[e] == s.rows[e])
  {
  }

  /** Tables that agree on the processing rows suit the same jobs. */
  lemma RowsReplaced(s: State, s': State)
    requires JobsOk(s) && s'.jobs == s.jobs && s.rows.Keys <= s'.rows.Keys
    requires forall e <- s.rows :: s.rows[e].status == Processing ==> s'.rows[e] == s.rows[e]
    requires forall e <- s'.rows :: s'.rows[e].status == Processing ==> e in s.rows && s.rows[e].status == Processing
    ensures JobsOk(s')
  {
    forall e | e in s'.rows && s'.rows[e].status == Processing
      ensures Owned(s', e)
    {
      assert Owned(s, e);
    }
  }

  /** Publishing and admin retries move no job, and never touch an owned row. */
  lemma JobsUnmoved(s: State, t: Step, maxRetries: int)
    requires JobsOk(s) && Enabled(s, t) && (t.Publish? || t.RetryEvent?)
    requires t.Publish? ==> s.nextId !in s.rows
    ensures JobsOk(Next(s, t, maxRetries))
  {
    RowsReplaced(s, Next(s, t, maxRetries));
  }

  lemma MarkProcessingOwns(s: State, j: JobId, maxRetries: int)
    requires JobsOk(s) && Enabled(s, MarkProcessing(j))
    ensures JobsOk(Next(s, MarkProcessing(j), maxRetries))
  {
    var s' := Next(s, MarkProcessing(j), maxRetries);
    var e := s.jobs[j].event;
    forall d | d in s'.rows && s'.rows[d].status == Processing
      ensures Owned(s', d)
    {
      if d == e && s.rows[e].status == Pending {
        assert j in s'.jobs && Owns(s'.jobs[j]);
      } else {
        assert Owned(s, d);
        var k :| k in s.jobs && Owns(s.jobs[k]) && s.jobs[k].event == d;
        assert k != j && k in s'.jobs && s'.jobs[k] == s.jobs[k];
      }
    }
  }

  /** A job that moves on keeps its event and whether it owns it; a new one owns nothing. */
  lemma JobReplaced(s: State, j: JobId, job: Job)
    requires JobsOk(s) && job.event in s.rows
    requires if j in s.jobs then job.event == s.jobs[j].event && Owns(job) == Owns(s.jobs[j]) else !Owns(job)
    requires job.Retrying? ==> job.retryCount == s.rows[job.event].retryCount
    ensures JobsOk(s.(jobs := s.jobs[j := job]))
  {
    var s' := s.(jobs := s.jobs[j := job]);
    forall e | e in s'.rows && s'.rows[e].status == Processing
      ensures Owned(s', e)
    {
      assert Owned(s, e);
      var k :| k in s.jobs && Owns(s.jobs[k]) && s.jobs[k].event == e;
      assert k in s'.jobs && Owns(s'.jobs[k]) && s'.jobs[k].event == e;
    }
  }

  lemma JobMoves(s: State, t: Step, maxRetries: int)
    requires JobsOk(s) && Enabled(s, t) && (t.StartJob? || t.DispatchOk? || t.DispatchThrow? || t.ReadRetryCount?)
    ensures JobsOk(Next(s, t, maxRetries))
  {
    var s' := Next(s, t, maxRetries);
    if s'.jobs != s.jobs { JobReplaced(s, t.job, s'.jobs[t.job]); }
  }

  lemma JobEnds(s: State, t: Step, maxRetries: int)
    requires JobsOk(s) && Enabled(s, t) && (t.MarkDelivered? || t.WriteRetry?)
    ensures JobsOk(Next(s, t, maxRetries))
  {
    var s' := Next(s, t, maxRetries);
    var e := s.jobs[t.job].event;
    assert s'.jobs == s.jobs - {t.job};
    assert s'.rows.Keys == s.rows.Keys && s'.rows[e].status != Processing;
    forall j | j in s'.jobs && Owns(s'.jobs[j])
      ensures s'.jobs[j].event != e && s'.rows[s'.jobs[j].event] == s.rows[s.jobs[j].event]
    {
      assert j in s.jobs && j != t.job && Owns(s.jobs[t.job]);
    }
    forall d | d in s'.rows && s'.rows[d].status == Processing
      ensures Owned(s', d)
    {
      assert d != e && Owned(s, d);
      var k :| k in s.jobs && Owns(s.jobs[k]) && s.jobs[k].event == d;
      assert k in s'.jobs && s'.jobs[k] == s.jobs[k];
    }
  }

  lemma JobsNext(s: State, t: Step, maxRetries: int)
    requires JobsOk(s) && Enabled(s, t) && s.nextId !in s.rows
    ensures JobsOk(Next(s, t, maxRetries))
  {
    match t
    case Publish(_, _, _, _, _) => JobsUnmoved(s, t, maxRetries);
    case RetryEvent(_, _) => JobsUnmoved(s, t, maxRetries);
    case MarkProcessing(j) => MarkProcessingOwns(s, j, maxRetries);
    case MarkDelivered(_, _) => JobEnds(s, t, maxRetries);
    case WriteRetry(_, _) => JobEnds(s, t, maxRetries);
    case _ => JobMoves(s, t, maxRetries);
  }

  // ---------------------------------------------------------------- counts

  lemma NoteCounts(notes: seq<Note>, n: Note, e: EventId)
    ensures AttemptsSince(notes + [n], e) ==
      if n == AdminRetry(e) then 0 else AttemptsSince(notes, e) + if n == Attempt(e) then 1 else 0
    ensures Attempts(notes + [n], e) == Attempts(notes, e) + if n == Attempt(e) then 1 else 0
    ensures AdminRetries(notes + [n], e) == AdminRetries(notes, e) + if n == AdminRetry(e) then 1 else 0
  {
  }

  lemma DeadLetterCounts(ds: seq<DeadLetter>, d: DeadLetter, e: EventId)
    ensures DeadLettersOf(ds + [d], e) == DeadLettersOf(ds, e) + if d.outboxId == e then 1 else 0
  {
  }

  /** Nothing the history or the dead letters say about `e`. */
  ghost predicate SameCounts(s: State, s': State, e: EventId) {
    && Attempts(s'.notes, e) == Attempts(s.notes, e)
    && AttemptsSince(s'.notes, e) == AttemptsSince(s.notes, e)
    && AdminRetries(s'.notes, e) == AdminRetries(s.notes, e)
    && DeadLettersOf(s'.deadLetters, e) == DeadLettersOf(s.deadLetters, e)
  }

  /** The history grows by at most one note and one dead letter, both about the touched event. */
  lemma HistoryGrows(s: State, t: Step, maxRetries: int)
    requires Enabled(s, t)
    ensures var s', e := Next(s, t, maxRetries), Touched(s, t);
      && (s'.notes == s.notes || s'.notes == s.notes + [Attempt(e)] || s'.notes == s.notes + [AdminRetry(e)])
      && (s'.deadLetters == s.deadLetters
          || exists d: DeadLetter :: d.outboxId == e && s'.deadLetters == s.deadLetters + [d])
  {
  }

  lemma CountsElsewhere(s: State, t: Step, maxRetries: int, e: EventId)
    requires Enabled(s, t) && e != Touched(s, t)
    ensures SameCounts(s, Next(s, t, maxRetries), e)
  {
    var s', touched := Next(s, t, maxRetries), Touched(s, t);
    HistoryGrows(s, t, maxRetries);
    NoteCounts(s.notes, Attempt(touched), e);
    NoteCounts(s.notes, AdminRetry(touched), e);
    if s'.deadLetters != s.deadLetters {
      var d: DeadLetter :| d.outboxId == touched && s'.deadLetters == s.deadLetters + [d];
      DeadLetterCounts(s.deadLetters, d, e);
    }
  }

  lemma TouchedByJob(s: State, t: Step, maxRetries: int)
    requires JobsOk(s) && Enabled(s, t) && !t.Publish? && !t.RetryEvent? && Touched(s, t) in s.rows
    requires RowOk(s, Touched(s, t), maxRetries)
    ensures Touched(s, t) in Next(s, t, maxRetries).rows && RowOk(Next(s, t, maxRetries), Touched(s, t), maxRetries)
  {
    var e, s' := Touched(s, t), Next(s, t, maxRetries);
    NoteCounts(s.notes, Attempt(e), e);
    if s'.deadLetters != s.deadLetters { DeadLetterCounts(s.deadLetters, s'.deadLetters[|s.deadLetters|], e); }
  }

  lemma TouchedByAdmin(s: State, e: EventId, now: int, maxRetries: int)
    requires e in s.rows && RowOk(s, e, maxRetries)
    ensures e in Next(s, RetryEvent(e, now), maxRetries).rows
    ensures RowOk(Next(s, RetryEvent(e, now), maxRetries), e, maxRetries)
  {
  }

  lemma DeadLettersUniform(s: State, t: Step, maxRetries: int)
    requires JobsOk(s) && Enabled(s, t)
    requires t.WriteRetry? ==> RowOk(s, s.jobs[t.job].event, maxRetries)
    requires forall k :: 0 <= k < |s.deadLetters| ==> s.deadLetters[k].errorCount == MaxAttempts(maxRetries)
    ensures var s' := Next(s, t, maxRetries);
      forall k :: 0 <= k < |s'.deadLetters| ==> s'.deadLetters[k].errorCount == MaxAttempts(maxRetries)
  {
  }

  lemma EventRecorded(s: State, t: Step, maxRetries: int, e: EventId)
    requires JobsOk(s) && Enabled(s, t) && (t.Publish? ==> s.nextId !in s.rows)
    requires EventOk(s, e, maxRetries)
    ensures EventOk(Next(s, t, maxRetries), e, maxRetries)
  {
    if e != Touched(s, t) {
      RowsElsewhere(s, t, maxRetries, e);
      CountsElsewhere(s, t, maxRetries, e);
    } else if e in s.rows {
      if t.RetryEvent? { TouchedByAdmin(s, e, t.now, maxRetries); } else { TouchedByJob(s, t, maxRetries); }
    }
  }

  lemma RecordedNext(s: State, t: Step, maxRetries: int)
    requires JobsOk(s) && IdsOk(s) && Recorded(s, maxRetries) && Enabled(s, t)
    ensures Recorded(Next(s, t, maxRetries), maxRetries)
  {
    if t.WriteRetry? { assert EventOk(s, s.jobs[t.job].event, maxRetries); }
    DeadLettersUniform(s, t, maxRetries);
    forall e: EventId
      ensures EventOk(Next(s, t, maxRetries), e, maxRetries)
    {
      assert EventOk(s, e, maxRetries);
      EventRecorded(s, t, maxRetries, e);
    }
  }

  // ---------------------------------------------------------------- sequence numbers

  lemma IdentityKept(s: State, t: Step, maxRetries: int)
    requires Enabled(s, t) && !t.Publish?
    ensures var s' := Next(s, t, maxRetries);
      && s'.sequences == s.sequences && s'.rows.Keys == s.rows.Keys && s'.nextId == s.nextId
      && forall e <- s.rows ::
         s'.rows[e].aggregate == s.rows[e].aggregate && s'.rows[e].sequenceNo == s.rows[e].sequenceNo
  {
  }

  lemma SequencedNext(s: State, t: Step, maxRetries: int)
    requires Sequenced(s) && Enabled(s, t) && s.nextId !in s.rows
    ensures Sequenced(Next(s, t, maxRetries))
  {
    var s' := Next(s, t, maxRetries);
    if t.Publish? {
      forall a, n | a in s'.sequences && 1 <= n <= s'.sequences[a]
        ensures Numbered(s', a, n)
      {
        if a == t.aggregate && n == NextSequence(s.sequences, a) {
          assert s.nextId in s'.rows;
        } else {
          assert Numbered(s, a, n);
          var e :| e in s.rows && s.rows[e].aggregate == a && s.rows[e].sequenceNo == n;
          assert e in s'.rows && s'.rows[e] == s.rows[e];
        }
      }
    } else {
      IdentityKept(s, t, maxRetries);
      forall a, n | a in s'.sequences && 1 <= n <= s'.sequences[a]
        ensures Numbered(s', a, n)
      {
        assert Numbered(s, a, n);
        var e :| e in s.rows && s.rows[e].aggregate == a && s.rows[e].sequenceNo == n;
        assert e in s'.rows;
      }
    }
  }

  lemma InvNext(s: State, t: Step, maxRetries: int)
    requires Inv(s, maxRetries) && Enabled(s, t)
    ensures Inv(Next(s, t, maxRetries), maxRetries)
  {
    JobsNext(s, t, maxRetries);
    if !t.Publish? { IdentityKept(s, t, maxRetries); }
    RecordedNext(s, t, maxRetries);
    SequencedNext(s, t, maxRetries);
  }

  // ---------------------------------------------------------------- runs

  ghost predicate Run(s: State, steps: seq<Step>, maxRetries: int)
    decreases |steps|
  {
    steps == [] || (Enabled(s, steps[0]) && Run(Next(s, steps[0], maxRetries), steps[1..], maxRetries))
  }

  ghost function After(s: State, steps: seq<Step>, maxRetries: int): State
    requires Run(s, steps, maxRetries)
    decreases |steps|
  {
    if steps == [] then s else After(Next(s, steps[0], maxRetries), steps[1..], maxRetries)
  }

  lemma {:induction false} RunKeeps(s: State, steps: seq<Step>, maxRetries: int)
    requires Inv(s, maxRetries) && Run(s, steps, maxRetries)
    ensures Inv(After(s, steps, maxRetries), maxRetries)
    decreases |steps|
  {
    if steps != [] {
      InvNext(s, steps[0], maxRetries);
      RunKeeps(Next(s, steps[0], maxRetries), steps[1..], maxRetries);
    }
  }

  function Publishes(steps: seq<Step>): nat {
    if steps == [] then 0 else (if steps[0].Publish? then 1 else 0) + Publishes(steps[1..])
  }

  lemma {:induction false} IdsCountPublishes(s: State, steps: seq<Step>, maxRetries: int)
    requires Run(s, steps, maxRetries)
    ensures After(s, steps, maxRetries).nextId == s.nextId + Publishes(steps)
    decreases |steps|
  {
    if steps != [] {
      if !steps[0].Publish? { IdentityKept(s, steps[0], maxRetries); }
      IdsCountPublishes(Next(s, steps[0], maxRetries), steps[1..], maxRetries);
    }
  }

  function WithStatus(rows: map<EventId, Row>, status: Status): set<EventId> {
    set e | e in rows && rows[e].status == status
  }

  lemma StatusesPartition(rows: map<EventId, Row>)
    ensures |WithStatus(rows, Pending)| + |WithStatus(rows, Processing)| + |WithStatus(rows, Delivered)|
            + |WithStatus(rows, Failed)| == |rows|
  {
    var a, b := WithStatus(rows, Pending), WithStatus(rows, Processing);
    var c, d := WithStatus(rows, Delivered), WithStatus(rows, Failed);
    assert |a + b| == |a| + |b| && |c + d| == |c| + |d|;
    assert |(a + b) + (c + d)| == |a + b| + |c + d|;
    assert (a + b) + (c + d) == rows.Keys;
  }

  lemma {:induction false} IdsSize(n: nat) returns (ids: set<EventId>)
    ensures |ids| == n && forall e: EventId :: e in ids <==> 1 <= e <= n
  {
    ids := {};
    if n > 0 {
      var before := IdsSize(n - 1);
      ids := before + {n};
    }
  }

  lemma RowsSize(s: State)
    requires IdsOk(s)
    ensures |s.rows| == s.nextId - 1
  {
    var ids := IdsSize(s.nextId - 1);
    assert s.rows.Keys == ids;
  }

  /** No event disappears: whatever the interleaving, the four statuses add up to the published events. */
  lemma {:induction false} NothingLost(steps: seq<Step>, maxRetries: int)
    requires Run(EMPTY, steps, maxRetries)
    ensures var rows := After(EMPTY, steps, maxRetries).rows;
      |WithStatus(rows, Pending)| + |WithStatus(rows, Processing)| + |WithStatus(rows, Delivered)|
      + |WithStatus(rows, Failed)| == Publishes(steps)
  {
    EmptyInv(maxRetries);
    RunKeeps(EMPTY, steps, maxRetries);
    IdsCountPublishes(EMPTY, steps, maxRetries);
    RowsSize(After(EMPTY, steps, maxRetries));
    StatusesPartition(After(EMPTY, steps, maxRetries).rows);
  }

  /** At most one job is past the compare-and-set for any event. */
  lemma {:induction false} OneDispatcher(steps: seq<Step>, maxRetries: int, i: JobId, j: JobId)
    requires Run(EMPTY, steps, maxRetries)
    requires var jobs := After(EMPTY, steps, maxRetries).jobs;
      i in jobs && j in jobs && i != j && Owns(jobs[i]) && Owns(jobs[j])
    ensures var jobs := After(EMPTY, steps, maxRetries).jobs; jobs[i].event != jobs[j].event
  {
    EmptyInv(maxRetries);
    RunKeeps(EMPTY, steps, maxRetries);
  }

  /** Attempts, retry counter and dead letters of every event agree with its status. */
  lemma {:induction false} RetryAccounting(steps: seq<Step>, maxRetries: int, e: EventId)
    requires Run(EMPTY, steps, maxRetries) && e in After(EMPTY, steps, maxRetries).rows
    ensures RowOk(After(EMPTY, steps, maxRetries), e, maxRetries)
    ensures forall k :: 0 <= k < |After(EMPTY, steps, maxRetries).deadLetters| ==>
      After(EMPTY, steps, maxRetries).deadLetters[k].errorCount == MaxAttempts(maxRetries)
  {
    EmptyInv(maxRetries);
    RunKeeps(EMPTY, steps, maxRetries);
    assert EventOk(After(EMPTY, steps, maxRetries), e, maxRetries);
  }

  /** A delivered row never changes again. */
  lemma DeliveredStays(s: State, t: Step, maxRetries: int, e: EventId)
    requires JobsOk(s) && IdsOk(s) && Enabled(s, t) && e in s.rows && s.rows[e].status == Delivered
    ensures e in Next(s, t, maxRetries).rows && Next(s, t, maxRetries).rows[e] == s.rows[e]
  {
  }

  lemma {:induction false} DeliveredIsFinal(s: State, steps: seq<Step>, maxRetries: int, e: EventId)
    requires Inv(s, maxRetries) && Run(s, steps, maxRetries) && e in s.rows && s.rows[e].status == Delivered
    ensures e in After(s, steps, maxRetries).rows && After(s, steps, maxRetries).rows[e] == s.rows[e]
    decreases |steps|
  {
    if steps != [] {
      DeliveredStays(s, steps[0], maxRetries, e);
      InvNext(s, steps[0], maxRetries);
      DeliveredIsFinal(Next(s, steps[0], maxRetries), steps[1..], maxRetries, e);
    }
  }

  // ---------------------------------------------------------------- dispatch budget

  /** Dispatches of events numbered below `n`. */
  function AttemptsBelow(notes: seq<Note>, n: nat): nat {
    if notes == [] then 0
    else
      var last := notes[|notes| - 1];
      AttemptsBelow(notes[..|notes| - 1], n) + if last.Attempt? && last.event < n then 1 else 0
  }

  function RetriesBelow(notes: seq<Note>, n: nat): nat {
    if notes == [] then 0
    else
      var last := notes[|notes| - 1];
      RetriesBelow(notes[..|notes| - 1], n) + if last.AdminRetry? && last.event < n then 1 else 0
  }

  lemma {:induction false} BelowGrows(notes: seq<Note>, n: nat)
    ensures AttemptsBelow(notes, n + 1) == AttemptsBelow(notes, n) + Attempts(notes, n)
    ensures RetriesBelow(notes, n + 1) == RetriesBelow(notes, n) + AdminRetries(notes, n)
    ensures AttemptsBelow(notes, 0) == 0 && RetriesBelow(notes, 0) == 0
  {
    if notes != [] { BelowGrows(notes[..|notes| - 1], n); }
  }

  lemma {:induction false} BelowBudget(s: State, maxRetries: int, n: nat)
    requires s.nextId >= 1 && 1 <= n <= s.nextId && 0 !in s.rows
    requires forall e: EventId :: EventOk(s, e, maxRetries)
    ensures AttemptsBelow(s.notes, n) <= (n - 1 + RetriesBelow(s.notes, n)) * MaxAttempts(maxRetries)
  {
    var max := MaxAttempts(maxRetries);
    BelowGrows(s.notes, n - 1);
    assert EventOk(s, n - 1, maxRetries);
    if n > 1 {
      BelowBudget(s, maxRetries, n - 1);
      AddEvent(n - 2 + RetriesBelow(s.notes, n - 1), AdminRetries(s.notes, n - 1), max);
    }
  }

  lemma AddEvent(below: int, resets: int, max: int)
    ensures (below + 1 + resets) * max == below * max + resets * max + max
  {
  }

  function Dispatches(notes: seq<Note>): nat {
    if notes == [] then 0
    else Dispatches(notes[..|notes| - 1]) + if notes[|notes| - 1].Attempt? then 1 else 0
  }

  function Resets(notes: seq<Note>): nat {
    if notes == [] then 0
    else Resets(notes[..|notes| - 1]) + if notes[|notes| - 1].AdminRetry? then 1 else 0
  }

  ghost predicate Unmentioned(notes: seq<Note>, e: EventId) {
    Attempts(notes, e) == 0 && AdminRetries(notes, e) == 0
  }

  lemma {:induction false} BelowIsAll(notes: seq<Note>, n: nat)
    requires forall e: EventId :: e >= n ==> Unmentioned(notes, e)
    ensures AttemptsBelow(notes, n) == Dispatches(notes) && RetriesBelow(notes, n) == Resets(notes)
  {
    if notes != [] {
      var before := notes[..|notes| - 1];
      assert !Unmentioned(notes, notes[|notes| - 1].event);
      forall e: EventId | e >= n
        ensures Unmentioned(before, e)
      {
        assert Unmentioned(notes, e);
      }
      BelowIsAll(before, n);
    }
  }

  lemma BudgetOf(s: State, maxRetries: int)
    requires IdsOk(s) && Recorded(s, maxRetries)
    ensures Dispatches(s.notes) <= (s.nextId - 1 + Resets(s.notes)) * MaxAttempts(maxRetries)
  {
    BelowBudget(s, maxRetries, s.nextId);
    forall e: EventId | e >= s.nextId
      ensures Unmentioned(s.notes, e)
    {
      assert EventOk(s, e, maxRetries);
    }
    BelowIsAll(s.notes, s.nextId);
  }

  /** Every event and every admin retry buys at most `maxRetries` dispatches, in any run. */
  lemma {:induction false} DispatchBudget(steps: seq<Step>, maxRetries: int)
    requires Run(EMPTY, steps, maxRetries)
    ensures var notes := After(EMPTY, steps, maxRetries).notes;
      Dispatches(notes) <= (Publishes(steps) + Resets(notes)) * MaxAttempts(maxRetries)
  {
    var s := After(EMPTY, steps, maxRetries);
    assert IdsOk(s) && Recorded(s, maxRetries) by {
      EmptyInv(maxRetries);
      RunKeeps(EMPTY, steps, maxRetries);
    }
    IdsCountPublishes(EMPTY, steps, maxRetries);
    BudgetOf(s, maxRetries);
  }

  // ---------------------------------------------------------------- backoff

  /** Total wait of the first `n` retries. */
  function TotalBackoff(n: nat): int {
    if n == 0 then 0 else TotalBackoff(n - 1) + BackoffMs(n)
  }

  lemma {:induction false} Pow2Grows(m: nat, n: nat)
    requires m <= n
    ensures Pow2(m) <= Pow2(n)
  {
    if m < n { Pow2Grows(m, n - 1); }
  }

  /** The doubling stops at the cap after the ninth retry. */
  lemma {:induction false} BackoffSum(n: nat)
    ensures n <= 9 ==> TotalBackoff(n) == 1000 * (Pow2(n + 1) - 2)
    ensures n >= 9 ==> TotalBackoff(n) == 1000 * (Pow2(10) - 2) + (n - 9) * BACKOFF_CAP
  {
    assert Pow2(9) == 512 && Pow2(10) == 1024;
    if n > 0 {
      BackoffSum(n - 1);
      if n <= 9 { Pow2Grows(n, 9); } else { Pow2Grows(10, n); }
    }
  }
}
