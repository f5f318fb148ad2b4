/** What a run makes of its publishes, errors and retries: each column of each row goes back to a statement. */
module OutboxHistory {
  import opened Common
  import opened Outbox
  import opened OutboxRuns

  type History = seq<Step>

  // ---------------------------------------------------------------- what was published

  function Publishing(past: History): seq<Step> {
    if past == [] then []
    else
      var t := past[|past| - 1];
      Publishing(past[..|past| - 1]) + if t.Publish? then [t] else []
  }

  /** How many of the publishes are of this aggregate. */
  function CountOf(publishes: seq<Step>, a: Aggregate): nat {
    if publishes == [] then 0
    else
      var t := publishes[|publishes| - 1];
      CountOf(publishes[..|publishes| - 1], a) + if t.Publish? && t.aggregate == a then 1 else 0
  }

  /** The event's own entries, and the producer's two where it has none. */
  predicate MetadataOf(m: Metadata, own: Metadata, now: int) {
    && m.Keys == own.Keys + {"producer", "timestamp"} && (forall k <- own :: m[k] == own[k])
    && ("producer" !in own ==> m["producer"] == Text("outbox-producer"))
    && ("timestamp" !in own ==> m["timestamp"] == Time(now))
  }

  /** Event `e` carries what publish number `e` was given, numbered by its place within its aggregate. */
  predicate AsPublished(row: Row, publishes: seq<Step>, e: EventId) {
    && 1 <= e <= |publishes| && publishes[e - 1].Publish?
    && row.aggregate == publishes[e - 1].aggregate && row.sequenceNo == CountOf(publishes[..e], row.aggregate)
    && row.eventType == publishes[e - 1].eventType && row.payload == publishes[e - 1].payload
    && MetadataOf(row.metadata, publishes[e - 1].metadata, publishes[e - 1].now)
  }

  ghost predicate AllAsPublished(s: State, publishes: seq<Step>) {
    && s.nextId == |publishes| + 1
    && (forall e: EventId :: e in s.rows <==> 1 <= e <= |publishes|)
    && (forall e <- s.rows :: AsPublished(s.rows[e], publishes, e))
    && (forall a :: CountOf(publishes, a) == if a in s.sequences then s.sequences[a] else 0)
  }

  lemma PublishingSnoc(past: History, t: Step)
    ensures Publishing(past + [t]) == Publishing(past) + if t.Publish? then [t] else []
  {
    assert (past + [t])[..|past|] == past;
  }

  lemma CountSnoc(publishes: seq<Step>, t: Step, a: Aggregate)
    ensures CountOf(publishes + [t], a) == CountOf(publishes, a) + if t.Publish? && t.aggregate == a then 1 else 0
  {
    assert (publishes + [t])[..|publishes|] == publishes;
  }

  predicate SameContent(row: Row, row': Row) {
    && row'.aggregate == row.aggregate && row'.sequenceNo == row.sequenceNo && row'.eventType == row.eventType
    && row'.payload == row.payload && row'.metadata == row.metadata
  }

  lemma ContentKept(s: State, t: Step, maxRetries: int, e: EventId)
    requires Enabled(s, t) && e in s.rows && (t.Publish? ==> e != s.nextId)
    ensures e in Next(s, t, maxRetries).rows && SameContent(s.rows[e], Next(s, t, maxRetries).rows[e])
  {
  }

  lemma StillAsPublished(row: Row, row': Row, publishes: seq<Step>, more: seq<Step>, e: EventId)
    requires AsPublished(row, publishes, e) && SameContent(row, row')
    ensures AsPublished(row', publishes + more, e)
  {
    assert (publishes + more)[..e] == publishes[..e];
  }

  lemma NewAsPublished(s: State, t: Step, publishes: seq<Step>, maxRetries: int)
    requires AllAsPublished(s, publishes) && t.Publish?
    ensures s.nextId in Next(s, t, maxRetries).rows
    ensures AsPublished(Next(s, t, maxRetries).rows[s.nextId], publishes + [t], s.nextId)
  {
    CountSnoc(publishes, t, t.aggregate);
    StoredMetadataKeepsOwn(t.metadata, t.now);
    assert (publishes + [t])[..s.nextId] == publishes + [t];
  }

  lemma PublishAll(s: State, t: Step, publishes: seq<Step>, maxRetries: int)
    requires AllAsPublished(s, publishes) && t.Publish?
    ensures AllAsPublished(Next(s, t, maxRetries), publishes + [t])
  {
    var s' := Next(s, t, maxRetries);
    forall e | e in s'.rows
      ensures AsPublished(s'.rows[e], publishes + [t], e)
    {
      if e == s.nextId {
        NewAsPublished(s, t, publishes, maxRetries);
      } else {
        StillAsPublished(s.rows[e], s'.rows[e], publishes, [t], e);
      }
    }
    forall a
      ensures CountOf(publishes + [t], a) == if a in s'.sequences then s'.sequences[a] else 0
    {
      CountSnoc(publishes, t, a);
    }
  }

  lemma OtherAll(s: State, t: Step, publishes: seq<Step>, maxRetries: int)
    requires AllAsPublished(s, publishes) && Enabled(s, t) && !t.Publish?
    ensures AllAsPublished(Next(s, t, maxRetries), publishes)
  {
    var s' := Next(s, t, maxRetries);
    IdentityKept(s, t, maxRetries);
    forall e | e in s'.rows
      ensures AsPublished(s'.rows[e], publishes, e)
    {
      ContentKept(s, t, maxRetries, e);
      StillAsPublished(s.rows[e], s'.rows[e], publishes, [], e);
      assert publishes + [] == publishes;
    }
  }

  lemma StepAsPublished(s: State, past: History, t: Step, maxRetries: int)
    requires AllAsPublished(s, Publishing(past)) && Enabled(s, t)
    ensures AllAsPublished(Next(s, t, maxRetries), Publishing(past + [t]))
  {
    PublishingSnoc(past, t);
    if t.Publish? {
      PublishAll(s, t, Publishing(past), maxRetries);
    } else {
      OtherAll(s, t, Publishing(past), maxRetries);
      assert Publishing(past) + [] == Publishing(past);
    }
  }

  lemma {:induction false} RunAsPublished(s: State, past: History, steps: History, maxRetries: int)
    requires AllAsPublished(s, Publishing(past)) && Run(s, steps, maxRetries)
    ensures AllAsPublished(After(s, steps, maxRetries), Publishing(past + steps))
    decreases |steps|
  {
    if steps == [] {
      assert past + [] == past;
    } else {
      StepAsPublished(s, past, steps[0], maxRetries);
      RunAsPublished(Next(s, steps[0], maxRetries), past + [steps[0]], steps[1..], maxRetries);
      assert past + [steps[0]] + steps[1..] == past + steps;
    }
  }

  /** In every run event `e` is what the publish of that number gave it, and stays it. */
  lemma {:induction false} EveryRowAsPublished(steps: History, maxRetries: int)
    requires Run(EMPTY, steps, maxRetries)
    ensures AllAsPublished(After(EMPTY, steps, maxRetries), Publishing(steps))
  {
    RunAsPublished(EMPTY, [], steps, maxRetries);
    assert [] + steps == steps;
  }

  // ---------------------------------------------------------------- errors, deliveries and retry times

  ghost predicate Thrown(past: History, error: string) { exists j :: DispatchThrow(j, error) in past }

  ghost predicate Retries(past: History, at: int) { exists j :: WriteRetry(j, at) in past }

  ghost predicate Delivers(past: History, at: int) { exists j :: MarkDelivered(j, at) in past }

  ghost predicate Starts(past: History, row: Row, e: EventId, at: int) {
    RetryEvent(e, at) in past
    || exists t <- past :: t.Publish? && t.now == at && t.aggregate == row.aggregate && t.payload == row.payload
  }

  /** It is due when published or retried by an admin, and after a failure when the backoff of its count is over. */
  ghost predicate TimeTraced(past: History, row: Row, e: EventId) {
    if row.retryCount == 0 then Starts(past, row, e, row.retryAfter)
    else Retries(past, row.retryAfter - BackoffMs(row.retryCount))
  }

  /** An error is one that was thrown, there is one after every failure, and a delivery time is that of a delivery. */
  ghost predicate OutcomeTraced(past: History, row: Row) {
    && (row.errorMessage.Some? ==> Thrown(past, row.errorMessage.value))
    && (row.retryCount > 0 || row.status == Failed ==> row.errorMessage.Some?)
    && (row.status == Delivered <==> row.deliveredAt.Some?)
    && (row.deliveredAt.Some? ==> Delivers(past, row.deliveredAt.value))
  }

  ghost predicate JobTraced(past: History, job: Job) { job.Threw? || job.Retrying? ==> Thrown(past, job.error) }

  /** A dead letter is a copy of its event with an error that was thrown. */
  ghost predicate LetterTraced(past: History, rows: map<EventId, Row>, d: DeadLetter) {
    && d.outboxId in rows && d.eventType == rows[d.outboxId].eventType && d.payload == rows[d.outboxId].payload
    && d.aggregateId == rows[d.outboxId].aggregate.id && Thrown(past, d.lastError) && Retries(past, d.lastAttempt)
  }

  ghost predicate RowTraced(past: History, row: Row, e: EventId) {
    TimeTraced(past, row, e) && OutcomeTraced(past, row)
  }

  ghost predicate Traced(s: State, past: History) {
    && (forall e <- s.rows :: RowTraced(past, s.rows[e], e))
    && (forall j <- s.jobs :: JobTraced(past, s.jobs[j]))
    && (forall k :: 0 <= k < |s.deadLetters| ==> LetterTraced(past, s.rows, s.deadLetters[k]))
  }

  lemma Later(past: History, more: History)
    ensures forall t <- past :: t in past + more
    ensures forall t <- more :: t in past + more
  {
  }

  lemma StillRow(past: History, t: Step, row: Row, e: EventId)
    requires RowTraced(past, row, e)
    ensures RowTraced(past + [t], row, e)
  {
    Later(past, [t]);
  }

  lemma StillJob(past: History, t: Step, job: Job)
    requires JobTraced(past, job)
    ensures JobTraced(past + [t], job)
  {
    Later(past, [t]);
  }

  lemma NewRow(s: State, past: History, t: Step, maxRetries: int)
    requires t.Publish?
    ensures RowTraced(past + [t], Next(s, t, maxRetries).rows[s.nextId], s.nextId)
  {
    assert t in past + [t];
    assert Starts(past + [t], Next(s, t, maxRetries).rows[s.nextId], s.nextId, t.now);
  }

  lemma RetriedRow(s: State, past: History, e: EventId, now: int, maxRetries: int)
    requires e in s.rows && RowTraced(past, s.rows[e], e)
    ensures RowTraced(past + [RetryEvent(e, now)], Next(s, RetryEvent(e, now), maxRetries).rows[e], e)
  {
    StillRow(past, RetryEvent(e, now), s.rows[e], e);
    assert RetryEvent(e, now) in past + [RetryEvent(e, now)];
  }

  lemma DeliveredRow(s: State, past: History, j: JobId, now: int, maxRetries: int)
    requires Enabled(s, MarkDelivered(j, now)) && s.jobs[j].event in s.rows
    requires RowTraced(past, s.rows[s.jobs[j].event], s.jobs[j].event)
    ensures var e, t := s.jobs[j].event, MarkDelivered(j, now);
      RowTraced(past + [t], Next(s, t, maxRetries).rows[e], e)
  {
    var t := MarkDelivered(j, now);
    StillRow(past, t, s.rows[s.jobs[j].event], s.jobs[j].event);
    assert t in past + [t];
    assert Delivers(past + [t], now);
  }

  lemma FailedRow(s: State, past: History, j: JobId, now: int, maxRetries: int)
    requires Enabled(s, WriteRetry(j, now)) && s.jobs[j].event in s.rows && JobTraced(past, s.jobs[j])
    requires s.rows[s.jobs[j].event].status == Processing
    requires RowTraced(past, s.rows[s.jobs[j].event], s.jobs[j].event)
    ensures var e, t := s.jobs[j].event, WriteRetry(j, now);
      RowTraced(past + [t], Next(s, t, maxRetries).rows[e], e)
  {
    var t := WriteRetry(j, now);
    StillRow(past, t, s.rows[s.jobs[j].event], s.jobs[j].event);
    StillJob(past, t, s.jobs[j]);
    assert t in past + [t];
    assert Retries(past + [t], now);
  }

  lemma RowStep(s: State, past: History, t: Step, maxRetries: int, e: EventId)
    requires Enabled(s, t) && JobsOk(s) && e in Next(s, t, maxRetries).rows && (t.Publish? ==> s.nextId !in s.rows)
    requires e in s.rows ==> RowTraced(past, s.rows[e], e)
    requires forall j <- s.jobs :: JobTraced(past, s.jobs[j])
    ensures RowTraced(past + [t], Next(s, t, maxRetries).rows[e], e)
  {
    if e in s.rows { StillRow(past, t, s.rows[e], e); }
    if e != Touched(s, t) {
      RowsElsewhere(s, t, maxRetries, e);
    } else {
      match t {
        case Publish(_, _, _, _, _) => NewRow(s, past, t, maxRetries);
        case MarkDelivered(j, now) => DeliveredRow(s, past, j, now, maxRetries);
        case WriteRetry(j, now) => FailedRow(s, past, j, now, maxRetries);
        case RetryEvent(_, now) => RetriedRow(s, past, e, now, maxRetries);
        case _ =>
          assert Next(s, t, maxRetries).rows[e] == s.rows[e].(status := Next(s, t, maxRetries).rows[e].status);
      }
    }
  }

  lemma JobStep(s: State, past: History, t: Step, maxRetries: int, j: JobId)
    requires Enabled(s, t) && j in Next(s, t, maxRetries).jobs && (j in s.jobs ==> JobTraced(past, s.jobs[j]))
    ensures JobTraced(past + [t], Next(s, t, maxRetries).jobs[j])
  {
    if j in s.jobs { StillJob(past, t, s.jobs[j]); }
    assert t in past + [t];
    assert t.DispatchThrow? ==> Thrown(past + [t], t.error);
  }

  lemma StillLetter(past: History, t: Step, s: State, maxRetries: int, d: DeadLetter)
    requires Enabled(s, t) && LetterTraced(past, s.rows, d) && (t.Publish? ==> s.nextId !in s.rows)
    ensures LetterTraced(past + [t], Next(s, t, maxRetries).rows, d)
  {
    Later(past, [t]);
    ContentKept(s, t, maxRetries, d.outboxId);
  }

  lemma NewLetter(s: State, past: History, t: Step, maxRetries: int)
    requires Enabled(s, t) && (forall j <- s.jobs :: JobTraced(past, s.jobs[j]))
    ensures var letters := Next(s, t, maxRetries).deadLetters;
      letters == s.deadLetters
      || (|letters| == |s.deadLetters| + 1 && s.deadLetters <= letters
          && LetterTraced(past + [t], Next(s, t, maxRetries).rows, letters[|s.deadLetters|]))
  {
    if t.WriteRetry? {
      StillJob(past, t, s.jobs[t.job]);
      assert t in past + [t];
      assert Retries(past + [t], t.now);
    }
  }

  lemma OwnershipKept(s: State, t: Step, maxRetries: int)
    requires JobsOk(s) && IdsOk(s) && Enabled(s, t)
    ensures JobsOk(Next(s, t, maxRetries)) && IdsOk(Next(s, t, maxRetries))
  {
    JobsNext(s, t, maxRetries);
    if !t.Publish? { IdentityKept(s, t, maxRetries); }
  }

  lemma StepTraced(s: State, past: History, t: Step, maxRetries: int)
    requires Traced(s, past) && Enabled(s, t) && JobsOk(s) && IdsOk(s)
    ensures Traced(Next(s, t, maxRetries), past + [t])
  {
    var s' := Next(s, t, maxRetries);
    forall e | e in s'.rows
      ensures RowTraced(past + [t], s'.rows[e], e)
    {
      RowStep(s, past, t, maxRetries, e);
    }
    forall j | j in s'.jobs
      ensures JobTraced(past + [t], s'.jobs[j])
    {
      JobStep(s, past, t, maxRetries, j);
    }
    NewLetter(s, past, t, maxRetries);
    forall k | 0 <= k < |s'.deadLetters|
      ensures LetterTraced(past + [t], s'.rows, s'.deadLetters[k])
    {
      if k < |s.deadLetters| { StillLetter(past, t, s, maxRetries, s.deadLetters[k]); }
    }
  }

  lemma {:induction false} RunTraced(s: State, past: History, steps: History, all: History, maxRetries: int)
    requires Traced(s, past) && JobsOk(s) && IdsOk(s) && Run(s, steps, maxRetries) && all == past + steps
    ensures Traced(After(s, steps, maxRetries), all)
    decreases |steps|
  {
    if steps == [] {
      assert all == past;
    } else {
      assert all == past + [steps[0]] + steps[1..];
      StepTraced(s, past, steps[0], maxRetries);
      OwnershipKept(s, steps[0], maxRetries);
      RunTraced(Next(s, steps[0], maxRetries), past + [steps[0]], steps[1..], all, maxRetries);
    }
  }

  /** In every run the due time, error, delivery time and dead letters of each event go back to a statement. */
  lemma {:induction false} EveryRowTraced(steps: History, maxRetries: int)
    requires Run(EMPTY, steps, maxRetries)
    ensures Traced(After(EMPTY, steps, maxRetries), steps)
  {
    EmptyInv(maxRetries);
    RunTraced(EMPTY, [], steps, steps, maxRetries);
  }

  // ---------------------------------------------------------------- the waits of one event

  /** The waits scheduled for event `e` since it was published or last retried by an admin. */
  ghost function Waited(s: State, steps: History, maxRetries: int, e: EventId, before: int): int
    requires Run(s, steps, maxRetries)
    decreases |steps|
  {
    if steps == [] then before
    else
      Waited(Next(s, steps[0], maxRetries), steps[1..], maxRetries, e, WaitedNext(s, steps[0], maxRetries, e, before))
  }

  ghost function WaitedNext(s: State, t: Step, maxRetries: int, e: EventId, before: int): int
    requires Enabled(s, t)
  {
    var s' := Next(s, t, maxRetries);
    if e !in s.rows || e !in s'.rows then 0
    else if t.RetryEvent? && t.event == e && s.rows[e].status == Failed then 0
    else if t.WriteRetry? && s.jobs[t.job].event == e && s'.rows[e].status == Pending then
      before + s'.rows[e].retryAfter - t.now
    else before
  }

  ghost predicate WaitsOk(s: State, e: EventId, waited: int) {
    waited == if e in s.rows then TotalBackoff(s.rows[e].retryCount) else 0
  }

  /** What a step does to the retry counter of an event: nothing, a reset, or one more. */
  lemma CounterNext(s: State, t: Step, maxRetries: int, e: EventId)
    requires JobsOk(s) && Enabled(s, t) && e in s.rows && (t.Publish? ==> e != s.nextId)
    ensures e in Next(s, t, maxRetries).rows
    ensures var n, row' := s.rows[e].retryCount, Next(s, t, maxRetries).rows[e];
      if t.RetryEvent? && t.event == e && s.rows[e].status == Failed then row'.retryCount == 0
      else if t.WriteRetry? && s.jobs[t.job].event == e && row'.status == Pending then
        row'.retryCount == n + 1 && row'.retryAfter - t.now == BackoffMs(n + 1)
      else row'.retryCount == n
  {
    if e != Touched(s, t) { RowsElsewhere(s, t, maxRetries, e); }
  }

  lemma WaitsNext(s: State, t: Step, maxRetries: int, e: EventId, waited: int)
    requires JobsOk(s) && IdsOk(s) && Enabled(s, t) && WaitsOk(s, e, waited)
    ensures WaitsOk(Next(s, t, maxRetries), e, WaitedNext(s, t, maxRetries, e, waited))
  {
    if e in s.rows {
      CounterNext(s, t, maxRetries, e);
    } else if e in Next(s, t, maxRetries).rows {
      NewCounter(s, t, maxRetries, e);
    }
  }

  lemma NewCounter(s: State, t: Step, maxRetries: int, e: EventId)
    requires Enabled(s, t) && e !in s.rows && e in Next(s, t, maxRetries).rows
    ensures Next(s, t, maxRetries).rows[e].retryCount == 0
  {
  }

  lemma {:induction false} RunWaits(s: State, steps: History, maxRetries: int, e: EventId, waited: int)
    requires Inv(s, maxRetries) && Run(s, steps, maxRetries) && WaitsOk(s, e, waited)
    ensures WaitsOk(After(s, steps, maxRetries), e, Waited(s, steps, maxRetries, e, waited))
    decreases |steps|
  {
    if steps != [] {
      WaitsNext(s, steps[0], maxRetries, e, waited);
      InvNext(s, steps[0], maxRetries);
      RunWaits(Next(s, steps[0], maxRetries), steps[1..], maxRetries, e,
               WaitedNext(s, steps[0], maxRetries, e, waited));
    }
  }

  lemma ClosedForm(n: nat)
    ensures TotalBackoff(n) == if n <= 9 then 1000 * (Pow2(n + 1) - 2) else 1022000 + (n - 9) * 900000
  {
    BackoffSum(n);
    assert Pow2(10) == 1024;
  }

  /** In every run the waits scheduled for an event add up to the closed form for its retry count. */
  lemma {:induction false} EveryWait(steps: History, maxRetries: int, e: EventId)
    requires Run(EMPTY, steps, maxRetries) && e in After(EMPTY, steps, maxRetries).rows
    ensures var n := After(EMPTY, steps, maxRetries).rows[e].retryCount;
      Waited(EMPTY, steps, maxRetries, e, 0)
        == if n <= 9 then 1000 * (Pow2(n + 1) - 2) else 1022000 + (n - 9) * 900000
  {
    EmptyInv(maxRetries);
    RunWaits(EMPTY, steps, maxRetries, e, 0);
    ClosedForm(After(EMPTY, steps, maxRetries).rows[e].retryCount);
  }

  // ---------------------------------------------------------------- a job left alone

  /** The statements of a job whose dispatch returns. */
  function Delivery(j: JobId, e: EventId, now: int): History {
    [StartJob(j, e), MarkProcessing(j), DispatchOk(j), MarkDelivered(j, now)]
  }

  /** The statements of a job whose dispatch throws. */
  function Failure(j: JobId, e: EventId, error: string, now: int): History {
    [StartJob(j, e), MarkProcessing(j), DispatchThrow(j, error), ReadRetryCount(j), WriteRetry(j, now)]
  }

  lemma {:induction false} RunsFirst(s: State, t: Step, rest: History, maxRetries: int)
    requires Enabled(s, t) && Run(Next(s, t, maxRetries), rest, maxRetries)
    ensures Run(s, [t] + rest, maxRetries)
    ensures After(s, [t] + rest, maxRetries) == After(Next(s, t, maxRetries), rest, maxRetries)
  {
    assert ([t] + rest)[1..] == rest;
  }

  /** A job that finds a pending event and takes it leaves it with the job inside the dispatch. */
  lemma Taken(s: State, j: JobId, e: EventId, rest: History, maxRetries: int) returns (s': State)
    requires e in s.rows && s.rows[e].status == Pending && j !in s.jobs
    ensures s'.rows == s.rows[e := s.rows[e].(status := Processing)] && s'.jobs == s.jobs[j := Dispatching(e)]
    ensures s'.deadLetters == s.deadLetters
    ensures Run(s', rest, maxRetries) ==>
      && Run(s, [StartJob(j, e), MarkProcessing(j)] + rest, maxRetries)
      && After(s, [StartJob(j, e), MarkProcessing(j)] + rest, maxRetries) == After(s', rest, maxRetries)
  {
    var s1 := Next(s, StartJob(j, e), maxRetries);
    s' := Next(s1, MarkProcessing(j), maxRetries);
    if Run(s', rest, maxRetries) {
      RunsFirst(s1, MarkProcessing(j), rest, maxRetries);
      RunsFirst(s, StartJob(j, e), [MarkProcessing(j)] + rest, maxRetries);
      assert [StartJob(j, e)] + ([MarkProcessing(j)] + rest) == [StartJob(j, e), MarkProcessing(j)] + rest;
    }
  }

  /** A pending event can be delivered, which changes its status and delivery time and nothing else. */
  lemma {:induction false} CanDeliver(s: State, j: JobId, e: EventId, now: int, maxRetries: int)
    requires e in s.rows && s.rows[e].status == Pending && j !in s.jobs
    ensures Run(s, Delivery(j, e, now), maxRetries)
    ensures var s' := After(s, Delivery(j, e, now), maxRetries);
      && s'.rows == s.rows[e := s.rows[e].(status := Delivered, deliveredAt := Some(now))]
      && s'.jobs == s.jobs && s'.deadLetters == s.deadLetters
  {
    var last: History := [MarkDelivered(j, now)];
    var s1 := Taken(s, j, e, [DispatchOk(j)] + last, maxRetries);
    var s2 := Next(s1, DispatchOk(j), maxRetries);
    assert Run(s2, last, maxRetries) && After(s2, last, maxRetries) == Next(s2, last[0], maxRetries);
    RunsFirst(s1, DispatchOk(j), last, maxRetries);
    assert [StartJob(j, e), MarkProcessing(j)] + ([DispatchOk(j)] + last) == Delivery(j, e, now);
  }

  /** A failing dispatch counts one more failure and puts the event off, or gives it up at the limit. */
  lemma {:induction false} CanFail(s: State, j: JobId, e: EventId, error: string, now: int, maxRetries: int)
    requires e in s.rows && s.rows[e].status == Pending && j !in s.jobs
    ensures Run(s, Failure(j, e, error, now), maxRetries)
    ensures var row, s', n := s.rows[e], After(s, Failure(j, e, error, now), maxRetries), s.rows[e].retryCount + 1;
      && s'.jobs == s.jobs
      && if n < maxRetries then
           && s'.deadLetters == s.deadLetters
           && s'.rows == s.rows[e := row.(retryCount := n, retryAfter := now + BackoffMs(n),
                                          errorMessage := Some(error))]
         else
           && s'.deadLetters == s.deadLetters + [DeadLetter(e, row.eventType, row.aggregate.id, row.payload, n, error,
                                                            now)]
           && s'.rows == s.rows[e := row.(status := Failed, errorMessage := Some(error))]
  {
    var last: History := [WriteRetry(j, now)];
    var s1 := Taken(s, j, e, [DispatchThrow(j, error)] + ([ReadRetryCount(j)] + last), maxRetries);
    var s2 := Next(s1, DispatchThrow(j, error), maxRetries);
    var s3 := Next(s2, ReadRetryCount(j), maxRetries);
    assert Run(s3, last, maxRetries) && After(s3, last, maxRetries) == Next(s3, last[0], maxRetries);
    RunsFirst(s2, ReadRetryCount(j), last, maxRetries);
    RunsFirst(s1, DispatchThrow(j, error), [ReadRetryCount(j)] + last, maxRetries);
    assert [StartJob(j, e), MarkProcessing(j)] + ([DispatchThrow(j, error)] + ([ReadRetryCount(j)] + last))
        == Failure(j, e, error, now);
  }
}
