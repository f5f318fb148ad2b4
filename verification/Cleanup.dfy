/**
 * backend/src/jobs/dataCleanup.job.ts: one entity type's cleanup, a statement at a time.
 * Other connections may insert rows between statements, and any statement may throw.
 */
module Cleanup {
  import opened Common

  type Id = nat

  datatype Row = Row(time: int, tag: string, data: string)

  datatype Entry = Entry(id: Id, row: Row)

  /** `NOT (time > now - days)`, limited to some tags when `only` is given. */
  datatype Preserve = Preserve(days: nat, only: Option<seq<string>>)

  datatype Policy = Policy(entityType: string, retentionDays: nat, archiveBeforeDelete: bool,
                           preserve: Option<Preserve>)

  /** One call of cleanupEntityType: its policy, flags, and the cutoff taken when it started. */
  datatype Call = Call(policy: Policy, dryRun: bool, force: bool, started: int)

  datatype Report = Report(processed: nat, archived: nat, deleted: nat, failed: bool)

  datatype Phase =
    | Counting
    | Selecting
    | Archiving(todo: seq<Entry>, count: nat)
    | Deleting(total: nat)
    | Recounting
    | Done

  /**
   * `initial`, `filed`, `ever` and `selected` are history: the tables at the start, every
   * row the table has held since, and what the archive query returned.
   */
  datatype State = State(
    live: map<Id, Row>, archive: seq<Entry>, phase: Phase, report: Report,
    initial: map<Id, Row>, filed: seq<Entry>, ever: map<Id, Row>, selected: seq<Entry>)

  datatype Step =
    | Count(now: int)
    | Select(rows: seq<Entry>, now: int)
    | InsertBatch
    | DeleteBatch(ids: set<Id>, now: int)
    | Recount(now: int)
    | Throw
    | Write(id: Id, row: Row)

  const DAY_MS := 24 * 60 * 60 * 1000
  const BATCH_SIZE := 1000

  const POLICIES: seq<Policy> := [
    Policy("prices", 90, true, Some(Preserve(7, None))),
    Policy("health_scores", 180, true, Some(Preserve(30, None))),
    Policy("pool_events", 60, true, Some(Preserve(14, Some(["deposit", "withdraw"])))),
    Policy("pool_metrics", 120, true, Some(Preserve(30, None))),
    Policy("search_analytics", 90, false, None),
    Policy("verification_results", 365, true, Some(Preserve(90, Some(["failed"]))))
  ]

  function Cutoff(c: Call): int { c.started - c.policy.retentionDays * DAY_MS }

  predicate Kept(r: Row, p: Preserve, now: int) {
    (p.only.None? || r.tag in p.only.value) && r.time > now - p.days * DAY_MS
  }

  /** The where condition, as a statement issued at `now` evaluates it. */
  predicate Old(r: Row, c: Call, now: int) {
    r.time < Cutoff(c) && !(c.policy.preserve.Some? && Kept(r, c.policy.preserve.value, now))
  }

  function Matching(rows: map<Id, Row>, c: Call, now: int): set<Id> { set id | id in rows && Old(rows[id], c, now) }

  function IdsOf(entries: seq<Entry>): set<Id> { set k | 0 <= k < |entries| :: entries[k].id }

  /** The entries list these rows of the table, each once, in any order. */
  ghost predicate ListsIds(rows: seq<Entry>, live: map<Id, Row>, ids: set<Id>) {
    && IdsOf(rows) == ids
    && (forall k :: 0 <= k < |rows| ==> rows[k].id in live && rows[k].row == live[rows[k].id])
    && (forall i, j :: 0 <= i < j < |rows| ==> rows[i].id != rows[j].id)
  }

  /** What a query under the where condition may return. */
  ghost predicate Lists(rows: seq<Entry>, live: map<Id, Row>, c: Call, now: int) {
    ListsIds(rows, live, Matching(live, c, now))
  }

  function Begin(live: map<Id, Row>, archive: seq<Entry>): State {
    State(live, archive, Counting, Report(0, 0, 0, false), live, archive, live, [])
  }

  /** Where the call goes once everything to archive is archived. */
  function AfterArchive(c: Call): Phase { if !c.dryRun then Deleting(0) else if c.force then Recounting else Done }

  ghost predicate Enabled(s: State, step: Step, c: Call) {
    match step
    case Count(now) => s.phase == Counting && now >= c.started
    case Select(rows, now) => s.phase == Selecting && now >= c.started && Lists(rows, s.live, c, now)
    case InsertBatch => s.phase.Archiving? && s.phase.todo != []
    case DeleteBatch(ids, now) =>
      var matching := Matching(s.live, c, now);
      s.phase.Deleting? && now >= c.started && ids <= matching && |ids| == Min(BATCH_SIZE, |matching|)
    case Recount(now) => s.phase == Recounting && now >= c.started
    case Throw => s.phase != Done
    case Write(id, _) => s.phase != Done && id !in s.ever
  }

  function Next(s: State, step: Step, c: Call): State {
    match step
    case Count(now) =>
      var n := |Matching(s.live, c, now)|;
      s.(report := s.report.(processed := n),
         phase := if n == 0 then Done
                  else if c.policy.archiveBeforeDelete && !c.dryRun then Selecting else AfterArchive(c))
    case Select(rows, _) =>
      s.(selected := rows, phase := if rows == [] then AfterArchive(c) else Archiving(rows, 0))
    case InsertBatch =>
      if !s.phase.Archiving? then s
      else
        var n := Min(BATCH_SIZE, |s.phase.todo|);
        var batch, rest, count := s.phase.todo[..n], s.phase.todo[n..], s.phase.count + n;
        if rest == [] then
          s.(archive := s.archive + batch, report := s.report.(archived := count), phase := AfterArchive(c))
        else s.(archive := s.archive + batch, phase := Archiving(rest, count))
    case DeleteBatch(ids, _) =>
      if !s.phase.Deleting? then s
      else
        var total := s.phase.total + |ids|;
        if |ids| == BATCH_SIZE then s.(live := s.live - ids, phase := Deleting(total))
        else s.(live := s.live - ids, report := s.report.(deleted := total), phase := Done)
    case Recount(now) => s.(report := s.report.(deleted := |Matching(s.live, c, now)|), phase := Done)
    case Throw => s.(report := s.report.(failed := true), phase := Done)
    case Write(id, row) => s.(live := s.live[id := row], ever := s.ever[id := row])
  }

  // ---------------------------------------------------------------- the preserve conditions

  /** A preserve window no longer than the retention never spares a row older than the cutoff. */
  predicate Sensible(p: Policy) { p.preserve.Some? ==> p.preserve.value.days <= p.retentionDays }

  lemma OldIsBeforeCutoff(r: Row, c: Call, now: int)
    requires Sensible(c.policy) && now >= c.started
    ensures Old(r, c, now) <==> r.time < Cutoff(c)
  {
  }

  /** So under all six policies the preserve condition changes nothing. */
  lemma PreserveNeverApplies(k: nat, c: Call, r: Row, now: int)
    requires k < |POLICIES| && c.policy == POLICIES[k] && now >= c.started
    ensures Sensible(c.policy)
    ensures Old(r, c, now) <==> r.time < c.started - c.policy.retentionDays * 86400000
  {
  }

  predicate Spared(r: Row, c: Call, now: int) { now >= c.started && r.time < Cutoff(c) && !Old(r, c, now) }

  /** A preserve condition spares a row, on some clock, exactly when its window is longer than the retention. */
  lemma PreserveAppliesIff(c: Call)
    requires c.policy.preserve.Some?
    ensures (exists r: Row, now: int :: Spared(r, c, now)) <==>
      (&& c.policy.preserve.value.days > c.policy.retentionDays
       && (c.policy.preserve.value.only.None? || c.policy.preserve.value.only.value != []))
  {
    var p := c.policy.preserve.value;
    if p.days > c.policy.retentionDays && (p.only.None? || p.only.value != []) {
      var tag := if p.only.Some? then p.only.value[0] else "";
      var r := Row(Cutoff(c) - 1, tag, "");
      assert p.days * DAY_MS >= (c.policy.retentionDays + 1) * DAY_MS;
      assert Kept(r, p, c.started);
      assert Spared(r, c, c.started);
    }
  }
}
