/**
 * backend/src/outbox: the transactional outbox. Every database statement is one
 * atomic step on the tables; any number of dispatch jobs and admin retries
 * interleave between the statements. The row lock of `processDispatchJob` is not
 * relied on: the status compare-and-set of `markProcessing` is the only guard.
 */
module Outbox {
  import opened Common

  type EventId = nat
  type JobId = nat

  /** (aggregate_type, aggregate_id) */
  datatype Aggregate = Aggregate(kind: string, id: string)

  /** A JSON value of the metadata: a text, or a time in its text form. */
  datatype MetaValue = Text(text: string) | Time(at: int)

  type Metadata = map<string, MetaValue>

  datatype Status = Pending | Processing | Delivered | Failed

  datatype Row = Row(
    aggregate: Aggregate,
    sequenceNo: nat,
    eventType: string,
    payload: string,
    metadata: Metadata,
    status: Status,
    retryCount: nat,
    retryAfter: int,
    deliveredAt: Option<int>,
    errorMessage: Option<string>)

  datatype DeadLetter = DeadLetter(
    outboxId: EventId, eventType: string, aggregateId: string, payload: string,
    errorCount: nat, lastError: string, lastAttempt: int)

  /**
   * Where a dispatch job stands between two statements: it has read a pending row,
   * is inside `dispatchEvent`, is about to mark the event delivered, has caught the
   * error, or has read the retry count it will act on.
   */
  datatype Job =
    | Loaded(event: EventId)
    | Dispatching(event: EventId)
    | Dispatched(event: EventId)
    | Threw(event: EventId, error: string)
    | Retrying(event: EventId, error: string, retryCount: nat)

  /** History of a run: dispatches and accepted admin retries, oldest first. */
  datatype Note = Attempt(event: EventId) | AdminRetry(event: EventId)

  datatype State = State(
    rows: map<EventId, Row>,
    nextId: EventId,
    sequences: map<Aggregate, nat>,
    deadLetters: seq<DeadLetter>,
    jobs: map<JobId, Job>,
    notes: seq<Note>)

  datatype Step =
    | Publish(aggregate: Aggregate, eventType: string, payload: string, metadata: Metadata, now: int)
    | StartJob(job: JobId, event: EventId)
    | MarkProcessing(job: JobId)
    | DispatchOk(job: JobId)
    | DispatchThrow(job: JobId, error: string)
    | MarkDelivered(job: JobId, now: int)
    | ReadRetryCount(job: JobId)
    | WriteRetry(job: JobId, now: int)
    | RetryEvent(event: EventId, now: int)

  const EMPTY := State(map[], 1, map[], [], map[], [])

  const BACKOFF_CAP := 15 * 60 * 1000

  function Pow2(n: nat): nat { if n == 0 then 1 else 2 * Pow2(n - 1) }

  function BackoffMs(retryCount: nat): int { Min(1000 * Pow2(retryCount), BACKOFF_CAP) }

  /** The stored metadata: the producer's two entries, which an entry of the event overrides. */
  function StoredMetadata(own: Metadata, now: int): Metadata {
    map["producer" := Text("outbox-producer"), "timestamp" := Time(now)] + own
  }

  lemma StoredMetadataKeepsOwn(own: Metadata, now: int)
    ensures var m := StoredMetadata(own, now);
      && m.Keys == own.Keys + {"producer", "timestamp"} && (forall k <- own :: m[k] == own[k])
      && ("producer" !in own ==> m["producer"] == Text("outbox-producer"))
      && ("timestamp" !in own ==> m["timestamp"] == Time(now))
  {
  }

  function NextSequence(sequences: map<Aggregate, nat>, a: Aggregate): nat {
    if a in sequences then sequences[a] + 1 else 1
  }

  predicate Enabled(s: State, t: Step) {
    match t
    case Publish(_, _, _, _, _) => true
    case StartJob(j, _) => j !in s.jobs
    case MarkProcessing(j) => j in s.jobs && s.jobs[j].Loaded?
    case DispatchOk(j) => j in s.jobs && s.jobs[j].Dispatching?
    case DispatchThrow(j, _) => j in s.jobs && s.jobs[j].Dispatching?
    case MarkDelivered(j, _) => j in s.jobs && s.jobs[j].Dispatched?
    case ReadRetryCount(j) => j in s.jobs && s.jobs[j].Threw?
    case WriteRetry(j, _) => j in s.jobs && s.jobs[j].Retrying?
    case RetryEvent(_, _) => true
  }

  /** The two writes `markForRetry` chooses between, once it has read the retry count. */
  function Retried(s: State, e: EventId, error: string, retryCount: nat, maxRetries: int, now: int): State
    requires e in s.rows
  {
    var row, n := s.rows[e], retryCount + 1;
    if n >= maxRetries then
      s.(deadLetters := s.deadLetters + [DeadLetter(e, row.eventType, row.aggregate.id, row.payload, n, error, now)],
         rows := s.rows[e := row.(status := Failed, errorMessage := Some(error))])
    else
      s.(rows := s.rows[e := row.(status := Pending, retryCount := n, retryAfter := now + BackoffMs(n),
                                  errorMessage := Some(error))])
  }

  function Next(s: State, t: Step, maxRetries: int): State
    requires Enabled(s, t)
  {
    match t
    case Publish(a, eventType, payload, metadata, now) =>
      var sequenceNo := NextSequence(s.sequences, a);
      s.(sequences := s.sequences[a := sequenceNo],
         rows := s.rows[s.nextId := Row(a, sequenceNo, eventType, payload,
                                        StoredMetadata(metadata, now), Pending, 0, now, None, None)],
         nextId := s.nextId + 1)
    case StartJob(j, e) =>
      if e in s.rows && s.rows[e].status == Pending then s.(jobs := s.jobs[j := Loaded(e)]) else s
    case MarkProcessing(j) =>
      var e := s.jobs[j].event;
      if e in s.rows && s.rows[e].status == Pending then
        s.(rows := s.rows[e := s.rows[e].(status := Processing)],
           jobs := s.jobs[j := Dispatching(e)], notes := s.notes + [Attempt(e)])
      else s.(jobs := s.jobs - {j})
    case DispatchOk(j) => s.(jobs := s.jobs[j := Dispatched(s.jobs[j].event)])
    case DispatchThrow(j, error) => s.(jobs := s.jobs[j := Threw(s.jobs[j].event, error)])
    case MarkDelivered(j, now) =>
      var e := s.jobs[j].event;
      if e in s.rows then
        s.(rows := s.rows[e := s.rows[e].(status := Delivered, deliveredAt := Some(now))], jobs := s.jobs - {j})
      else s.(jobs := s.jobs - {j})
    case ReadRetryCount(j) =>
      var e := s.jobs[j].event;
      if e in s.rows then s.(jobs := s.jobs[j := Retrying(e, s.jobs[j].error, s.rows[e].retryCount)])
      else s.(jobs := s.jobs - {j})
    case WriteRetry(j, now) =>
      var job, s' := s.jobs[j], s.(jobs := s.jobs - {j});
      if job.event in s.rows then Retried(s', job.event, job.error, job.retryCount, maxRetries, now) else s'
    case RetryEvent(e, now) =>
      if e in s.rows && s.rows[e].status == Failed then
        s.(rows := s.rows[e := s.rows[e].(status := Pending, retryCount := 0, retryAfter := now, errorMessage := None)],
           notes := s.notes + [AdminRetry(e)])
      else s
  }

  // ---------------------------------------------------------------- what the history says

  /** Dispatches of `e` since it was published or last retried by an admin. */
  function AttemptsSince(notes: seq<Note>, e: EventId): nat {
    if notes == [] then 0
    else
      var last, before := notes[|notes| - 1], notes[..|notes| - 1];
      if last == AdminRetry(e) then 0
      else AttemptsSince(before, e) + if last == Attempt(e) then 1 else 0
  }

  function Attempts(notes: seq<Note>, e: EventId): nat {
    if notes == [] then 0
    else Attempts(notes[..|notes| - 1], e) + if notes[|notes| - 1] == Attempt(e) then 1 else 0
  }

  function AdminRetries(notes: seq<Note>, e: EventId): nat {
    if notes == [] then 0
    else AdminRetries(notes[..|notes| - 1], e) + if notes[|notes| - 1] == AdminRetry(e) then 1 else 0
  }

  function DeadLettersOf(deadLetters: seq<DeadLetter>, e: EventId): nat {
    if deadLetters == [] then 0
    else DeadLettersOf(deadLetters[..|deadLetters| - 1], e)
         + if deadLetters[|deadLetters| - 1].outboxId == e then 1 else 0
  }

  /** `maxRetries` attempts, and never less than one. */
  function MaxAttempts(maxRetries: int): (n: nat) { Max(1, maxRetries) }

  // ---------------------------------------------------------------- the invariant

  /** The job is past the compare-and-set and has not written its outcome yet. */
  predicate Owns(job: Job) { !job.Loaded? }

  ghost predicate RowOk(s: State, e: EventId, maxRetries: int)
    requires e in s.rows
  {
    var row, attempts, max := s.rows[e], AttemptsSince(s.notes, e), MaxAttempts(maxRetries);
    && row.retryCount < max
    && attempts == (match row.status
                    case Pending => row.retryCount
                    case Failed => max
                    case _ => row.retryCount + 1)
    && Attempts(s.notes, e) == AdminRetries(s.notes, e) * max + attempts
    && DeadLettersOf(s.deadLetters, e) == AdminRetries(s.notes, e) + if row.status == Failed then 1 else 0
  }

  ghost predicate Owned(s: State, e: EventId) {
    exists j :: j in s.jobs && Owns(s.jobs[j]) && s.jobs[j].event == e
  }

  ghost predicate JobsOk(s: State) {
    && (forall j <- s.jobs :: s.jobs[j].event in s.rows)
    && (forall j <- s.jobs :: Owns(s.jobs[j]) ==> s.rows[s.jobs[j].event].status == Processing)
    && (forall j <- s.jobs :: s.jobs[j].Retrying? ==> s.jobs[j].retryCount == s.rows[s.jobs[j].event].retryCount)
    && (forall i, j :: i in s.jobs && j in s.jobs && i != j && Owns(s.jobs[i]) && Owns(s.jobs[j]) ==>
          s.jobs[i].event != s.jobs[j].event)
    && (forall e <- s.rows :: s.rows[e].status == Processing ==> Owned(s, e))
  }

  /** Neither the history nor the dead letters mention `e`. */
  ghost predicate NoCounts(s: State, e: EventId) {
    && Attempts(s.notes, e) == 0 && AttemptsSince(s.notes, e) == 0 && AdminRetries(s.notes, e) == 0
    && DeadLettersOf(s.deadLetters, e) == 0
  }

  /** Rows are never lost: the ids are exactly 1 .. nextId - 1. */
  ghost predicate IdsOk(s: State) {
    s.nextId >= 1 && forall e: EventId :: e in s.rows <==> 1 <= e < s.nextId
  }

  ghost predicate EventOk(s: State, e: EventId, maxRetries: int) {
    if e in s.rows then RowOk(s, e, maxRetries) else NoCounts(s, e)
  }

  ghost predicate Recorded(s: State, maxRetries: int) {
    && (forall e: EventId :: EventOk(s, e, maxRetries))
    && (forall k :: 0 <= k < |s.deadLetters| ==> s.deadLetters[k].errorCount == MaxAttempts(maxRetries))
  }

  /** Sequence numbers are gapless and unique per aggregate. */
  ghost predicate Sequenced(s: State) {
    && (forall e <- s.rows ::
          s.rows[e].aggregate in s.sequences && 1 <= s.rows[e].sequenceNo <= s.sequences[s.rows[e].aggregate])
    && (forall d, e :: d in s.rows && e in s.rows && d != e && s.rows[d].aggregate == s.rows[e].aggregate ==>
          s.rows[d].sequenceNo != s.rows[e].sequenceNo)
    && (forall a, n :: a in s.sequences && 1 <= n <= s.sequences[a] ==> Numbered(s, a, n))
  }

  ghost predicate Numbered(s: State, a: Aggregate, n: int) {
    exists e :: e in s.rows && s.rows[e].aggregate == a && s.rows[e].sequenceNo == n
  }

  ghost predicate Inv(s: State, maxRetries: int) {
    JobsOk(s) && IdsOk(s) && Recorded(s, maxRetries) && Sequenced(s)
  }
}
