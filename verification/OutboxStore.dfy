/** The outbox statements as imperative code over the tables. */
module OutboxStore {
  import opened Common
  import opened Outbox
  import opened OutboxRuns

  datatype Stats = Stats(pending: nat, processing: nat, delivered: nat, failed: nat, totalEvents: nat)

  /** The tables, and the dispatch jobs between two of their statements. */
  class Store {
    const maxRetries: int
    var rows: map<EventId, Row>
    var nextId: EventId
    var sequences: map<Aggregate, nat>
    var deadLetters: seq<DeadLetter>
    var jobs: map<JobId, Job>
    var notes: seq<Note>

    ghost function Now(): State
      reads this
    {
      State(rows, nextId, sequences, deadLetters, jobs, notes)
    }

    constructor (maxRetries: int)
      ensures this.maxRetries == maxRetries && Now() == EMPTY
    {
      this.maxRetries := maxRetries;
      rows, nextId, sequences, deadLetters, jobs, notes := map[], 1, map[], [], map[], [];
    }

    method NextOutboxSequence(a: Aggregate) returns (sequenceNo: nat)
      modifies this`sequences
      ensures sequenceNo == NextSequence(old(sequences), a) && sequences == old(sequences)[a := sequenceNo]
    {
      sequenceNo := 1;
      if a in sequences {
        sequenceNo := sequences[a] + 1;
      }
      sequences := sequences[a := sequenceNo];
    }

    method PublishTransactional(a: Aggregate, eventType: string, payload: string, metadata: Metadata, now: int)
      modifies this
      ensures Now() == Next(old(Now()), Publish(a, eventType, payload, metadata, now), maxRetries)
    {
      var sequenceNo := NextOutboxSequence(a);
      var stored := map["producer" := Text("outbox-producer"), "timestamp" := Time(now)];
      stored := stored + metadata;
      rows := rows[nextId := Row(a, sequenceNo, eventType, payload, stored, Pending, 0, now, None, None)];
      nextId := nextId + 1;
    }

    /** The compare-and-set: true for at most one caller per pending period of the row. */
    method MarkRowProcessing(e: EventId) returns (marked: bool)
      modifies this`rows
      ensures marked <==> e in old(rows) && old(rows)[e].status == Pending
      ensures rows == if marked then old(rows)[e := old(rows)[e].(status := Processing)] else old(rows)
    {
      marked := e in rows && rows[e].status == Pending;
      if marked {
        rows := rows[e := rows[e].(status := Processing)];
      }
    }

    method MarkRowDelivered(e: EventId, now: int)
      modifies this`rows
      ensures rows == if e in old(rows)
        then old(rows)[e := old(rows)[e].(status := Delivered, deliveredAt := Some(now))] else old(rows)
    {
      if e in rows {
        rows := rows[e := rows[e].(status := Delivered, deliveredAt := Some(now))];
      }
    }

    /** Throws for an unknown event, and then changes nothing. */
    method MoveToDeadLetter(e: EventId, error: string, errorCount: nat, now: int) returns (found: bool)
      modifies this`rows, this`deadLetters
      ensures found <==> e in old(rows)
      ensures !found ==> rows == old(rows) && deadLetters == old(deadLetters)
      ensures found ==>
        var event := old(rows)[e];
        && deadLetters == old(deadLetters) + [DeadLetter(e, event.eventType, event.aggregate.id, event.payload,
                                                         errorCount, error, now)]
        && rows == old(rows)[e := event.(status := Failed, errorMessage := Some(error))]
    {
      found := e in rows;
      if !found { return; }
      var event := rows[e];
      deadLetters := deadLetters + [DeadLetter(e, event.eventType, event.aggregate.id,
                                               event.payload, errorCount, error, now)];
      rows := rows[e := rows[e].(status := Failed, errorMessage := Some(error))];
    }

    // ---- one dispatch job, statement by statement

    method JobReads(j: JobId, e: EventId)
      requires Enabled(Now(), StartJob(j, e))
      modifies this`jobs
      ensures Now() == Next(old(Now()), StartJob(j, e), maxRetries)
    {
      if e in rows && rows[e].status == Pending {
        jobs := jobs[j := Loaded(e)];
      }
    }

    method JobMarks(j: JobId)
      requires Enabled(Now(), MarkProcessing(j))
      modifies this
      ensures Now() == Next(old(Now()), MarkProcessing(j), maxRetries)
    {
      var e := jobs[j].event;
      var marked := MarkRowProcessing(e);
      if marked {
        jobs := jobs[j := Dispatching(e)];
        notes := notes + [Attempt(e)];
      } else {
        jobs := jobs - {j};
      }
    }

    method JobDispatches(j: JobId, error: Option<string>)
      requires j in jobs && jobs[j].Dispatching?
      modifies this`jobs
      ensures Now() == Next(old(Now()),
                            if error.Some? then DispatchThrow(j, error.value) else DispatchOk(j), maxRetries)
    {
      var e := jobs[j].event;
      if error.Some? {
        jobs := jobs[j := Threw(e, error.value)];
      } else {
        jobs := jobs[j := Dispatched(e)];
      }
    }

    method JobDelivers(j: JobId, now: int)
      requires Enabled(Now(), MarkDelivered(j, now))
      modifies this
      ensures Now() == Next(old(Now()), MarkDelivered(j, now), maxRetries)
    {
      MarkRowDelivered(jobs[j].event, now);
      jobs := jobs - {j};
    }

    method JobReadsRetryCount(j: JobId)
      requires Enabled(Now(), ReadRetryCount(j))
      modifies this`jobs
      ensures Now() == Next(old(Now()), ReadRetryCount(j), maxRetries)
    {
      var e := jobs[j].event;
      if e in rows {
        jobs := jobs[j := Retrying(e, jobs[j].error, rows[e].retryCount)];
      } else {
        jobs := jobs - {j};
      }
    }

    method JobWritesRetry(j: JobId, now: int)
      requires Enabled(Now(), WriteRetry(j, now))
      modifies this
      ensures Now() == Next(old(Now()), WriteRetry(j, now), maxRetries)
    {
      var job := jobs[j];
      var e := job.event;
      jobs := jobs - {j};
      if e in rows {
        var retryCount := job.retryCount + 1;
        if retryCount >= maxRetries {
          var _ := MoveToDeadLetter(e, job.error, retryCount, now);
        } else {
          var backoffMs := Min(1000 * Pow2(retryCount), 15 * 60 * 1000);
          rows := rows[e := rows[e].(status := Pending, retryCount := retryCount, retryAfter := now + backoffMs,
                                     errorMessage := Some(job.error))];
        }
      }
    }

    // ---- administration

    method Retry(e: EventId, now: int) returns (success: bool)
      modifies this`rows, this`notes
      ensures Now() == Next(old(Now()), RetryEvent(e, now), maxRetries)
      ensures success <==> e in old(rows) && old(rows)[e].status == Failed
    {
      if e !in rows {
        return false;
      }
      if rows[e].status != Failed {
        return false;
      }
      rows := rows[e := rows[e].(status := Pending, retryCount := 0, retryAfter := now, errorMessage := None)];
      notes := notes + [AdminRetry(e)];
      return true;
    }

    /** `select status, count(*) group by status`: one group for each status that occurs. */
    method GroupByStatus() returns (groups: seq<(Status, nat)>)
      ensures forall k :: 0 <= k < |groups| ==> groups[k].1 == |WithStatus(rows, groups[k].0)| > 0
      ensures forall st :: WithStatus(rows, st) != {} ==> Listed(groups, st)
    {
      groups := [];
      var order := [Pending, Processing, Delivered, Failed];
      for i := 0 to 4
        invariant forall k :: 0 <= k < |groups| ==> groups[k].1 == |WithStatus(rows, groups[k].0)| > 0
        invariant forall n :: 0 <= n < i && WithStatus(rows, order[n]) != {} ==> Listed(groups, order[n])
      {
        var members := WithStatus(rows, order[i]);
        if members != {} {
          ghost var before := groups;
          groups := groups + [(order[i], |members|)];
          assert groups[|groups| - 1].0 == order[i];
          forall st | Listed(before, st)
            ensures Listed(groups, st)
          {
            var k :| 0 <= k < |before| && before[k].0 == st;
            assert groups[k].0 == st;
          }
        }
      }
      assert order[0] == Pending && order[1] == Processing && order[2] == Delivered && order[3] == Failed;
    }

    method GetOutboxStats() returns (stats: Stats)
      ensures stats.pending == |WithStatus(rows, Pending)| && stats.processing == |WithStatus(rows, Processing)|
      ensures stats.delivered == |WithStatus(rows, Delivered)| && stats.failed == |WithStatus(rows, Failed)|
      ensures stats.pending + stats.processing + stats.delivered + stats.failed == stats.totalEvents == |rows|
    {
      var groups := GroupByStatus();
      stats := Stats(0, 0, 0, 0, |rows|);
      for i := 0 to |groups|
        invariant stats.totalEvents == |rows|
        invariant stats.pending == Counted(groups[..i], Pending) && stats.processing == Counted(groups[..i], Processing)
        invariant stats.delivered == Counted(groups[..i], Delivered) && stats.failed == Counted(groups[..i], Failed)
      {
        var count := groups[i].1;
        CountedStep(groups, i, Pending);
        CountedStep(groups, i, Processing);
        CountedStep(groups, i, Delivered);
        CountedStep(groups, i, Failed);
        match groups[i].0
        case Pending => stats := stats.(pending := count);
        case Processing => stats := stats.(processing := count);
        case Delivered => stats := stats.(delivered := count);
        case Failed => stats := stats.(failed := count);
      }
      assert groups[..|groups|] == groups;
      CountedIsSize(rows, groups, Pending);
      CountedIsSize(rows, groups, Processing);
      CountedIsSize(rows, groups, Delivered);
      CountedIsSize(rows, groups, Failed);
      StatusesPartition(rows);
    }
  }

  ghost predicate Listed(groups: seq<(Status, nat)>, st: Status) {
    exists k :: 0 <= k < |groups| && groups[k].0 == st
  }

  /** The count of the last group of a status, or 0. */
  function Counted(groups: seq<(Status, nat)>, st: Status): nat {
    if groups == [] then 0
    else if groups[|groups| - 1].0 == st then groups[|groups| - 1].1
    else Counted(groups[..|groups| - 1], st)
  }

  lemma CountedStep(groups: seq<(Status, nat)>, i: nat, st: Status)
    requires i < |groups|
    ensures Counted(groups[..i + 1], st) == if groups[i].0 == st then groups[i].1 else Counted(groups[..i], st)
  {
    assert groups[..i + 1][..i] == groups[..i];
  }

  lemma {:induction false} CountedIsSize(rows: map<EventId, Row>, groups: seq<(Status, nat)>, st: Status)
    requires forall k :: 0 <= k < |groups| ==> groups[k].1 == |WithStatus(rows, groups[k].0)|
    requires WithStatus(rows, st) != {} ==> Listed(groups, st)
    ensures Counted(groups, st) == |WithStatus(rows, st)|
  {
    if groups != [] && groups[|groups| - 1].0 != st {
      var before := groups[..|groups| - 1];
      if WithStatus(rows, st) != {} {
        var k :| 0 <= k < |groups| && groups[k].0 == st;
        assert before[k].0 == st;
      }
      CountedIsSize(rows, before, st);
    }
  }
}
