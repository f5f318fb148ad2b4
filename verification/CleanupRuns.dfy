/** What every cleanup keeps, whatever other connections insert and wherever a statement throws. */
module CleanupRuns {
  import opened Common
  import opened Cleanup

  /** Rows older than the cutoff: by `OldIsBeforeCutoff`, what every statement of the call matches. */
  function Stale(rows: map<Id, Row>, c: Call): set<Id> { set id | id in rows && rows[id].time < Cutoff(c) }

  lemma MatchingIsStale(rows: map<Id, Row>, c: Call, now: int)
    requires Sensible(c.policy) && now >= c.started
    ensures Matching(rows, c, now) == Stale(rows, c)
  {
    forall id | id in rows
      ensures Old(rows[id], c, now) <==> rows[id].time < Cutoff(c)
    {
      OldIsBeforeCutoff(rows[id], c, now);
    }
  }

  // ---------------------------------------------------------------- the invariant

  predicate SubMap(a: map<Id, Row>, b: map<Id, Row>) { forall id <- a :: id in b && a[id] == b[id] }

  /** Rows that were deleted. */
  function Gone(s: State): set<Id> { s.ever.Keys - s.live.Keys }

  /** Nothing but stale rows is ever deleted, and no row is ever altered. */
  predicate LiveOk(s: State, c: Call) {
    SubMap(s.initial, s.ever) && SubMap(s.live, s.ever)
    && forall id :: id in s.ever && id !in s.live ==> s.ever[id].time < Cutoff(c)
  }

  predicate Archives(c: Call) { c.policy.archiveBeforeDelete && !c.dryRun }

  predicate Selected(s: State, c: Call) {
    && (forall k :: 0 <= k < |s.selected| ==>
          s.selected[k].id in s.ever && s.selected[k].row == s.ever[s.selected[k].id])
    && (forall i, j :: 0 <= i < j < |s.selected| ==> s.selected[i].id != s.selected[j].id)
    && IdsOf(s.selected) <= Stale(s.ever, c)
  }

  /** The archive grew by a prefix of the selection; all of it once deletion begins. */
  predicate ArchiveOk(s: State, c: Call) {
    && (s.phase.Counting? || s.phase.Selecting? ==> s.archive == s.filed && s.selected == [])
    && (s.phase.Archiving? ==>
          s.archive + s.phase.todo == s.filed + s.selected && s.phase.count + |s.phase.todo| == |s.selected|
                               && s.phase.todo != [])
    && (s.phase.Deleting? && Archives(c) ==> s.archive == s.filed + s.selected && s.report.archived == |s.selected|)
    && s.filed <= s.archive <= s.filed + s.selected
    && (!Archives(c) ==> s.selected == [])
  }

  /** Once something was selected or deleted, the selection covered the stale rows of the start. */
  predicate CoverOk(s: State, c: Call) {
    && (s.phase.Archiving? || (s.phase.Deleting? && Archives(c)) ==> Stale(s.initial, c) <= IdsOf(s.selected))
    && (s.phase.Done? && Archives(c) ==>
          s.live == s.ever || (Stale(s.initial, c) <= IdsOf(s.selected) && s.archive == s.filed + s.selected))
  }

  predicate PhaseOk(s: State, c: Call) {
    && (s.phase.Selecting? || s.phase.Archiving? ==> Archives(c))
    && (s.phase.Recounting? ==> c.dryRun && c.force)
    && (s.phase.Deleting? ==> !c.dryRun)
    && (!s.phase.Deleting? && !s.phase.Done? ==> s.live == s.ever)
    && (c.dryRun ==> s.live == s.ever)
    && (s.phase.Deleting? ==> s.phase.total == |Gone(s)|)
    && (s.report.failed ==> s.phase == Done)
  }

  /** What a report without error says. */
  predicate ReportOk(s: State, c: Call) {
    s.phase == Done && !s.report.failed && !c.dryRun ==>
      && Gone(s) == Stale(s.ever, c)
      && s.report.deleted == |Gone(s)|
      && (Archives(c) ==>
            && s.archive == s.filed + s.selected && s.report.archived == |s.selected|
            && Stale(s.initial, c) <= IdsOf(s.selected))
  }

  /** Without other writers the selection is what was counted. */
  predicate QuietOk(s: State, c: Call) {
    s.ever == s.initial ==>
      && (s.phase.Counting? || s.report.failed || s.report.processed == |Stale(s.initial, c)|)
  }

  predicate DryOk(s: State, c: Call) {
    s.phase == Done && !s.report.failed && c.dryRun ==>
      s.report.archived == 0 && s.report.deleted == if c.force && s.report.processed > 0 then |Stale(s.ever, c)| else 0
  }

  predicate Zeros(s: State) {
    && (s.phase != Done ==> s.report.deleted == 0)
    && (s.phase.Counting? || s.phase.Selecting? || s.phase.Archiving? || s.phase.Recounting? ==> s.report.archived == 0)
    && (s.phase.Deleting? || s.phase.Recounting? || s.phase.Selecting? || s.phase.Archiving? ==> s.report.processed > 0)
    && (s.phase == Done && !s.report.failed && s.report.processed == 0 ==>
          s.live == s.ever && s.archive == s.filed && s.report.archived == 0 && s.report.deleted == 0)
  }

  ghost predicate Inv(s: State, c: Call) {
    && LiveOk(s, c) && Selected(s, c) && ArchiveOk(s, c) && CoverOk(s, c) && PhaseOk(s, c)
    && ReportOk(s, c) && QuietOk(s, c) && DryOk(s, c) && Zeros(s)
  }

  // ---------------------------------------------------------------- one step

  lemma CountKeeps(s: State, c: Call, now: int)
    requires Inv(s, c) && Sensible(c.policy) && Enabled(s, Count(now), c)
    ensures Inv(Next(s, Count(now), c), c)
  {
    MatchingIsStale(s.live, c, now);
    assert Gone(s) == {};
  }

  lemma SelectKeeps(s: State, c: Call, rows: seq<Entry>, now: int)
    requires Inv(s, c) && Sensible(c.policy) && Enabled(s, Select(rows, now), c)
    ensures Inv(Next(s, Select(rows, now), c), c)
  {
    MatchingIsStale(s.live, c, now);
    assert Gone(s) == {};
    assert Stale(s.initial, c) <= Stale(s.ever, c);
    if rows == [] { assert s.filed + rows == s.filed; }
  }

  lemma InsertKeeps(s: State, c: Call)
    requires Inv(s, c) && Enabled(s, InsertBatch, c)
    ensures Inv(Next(s, InsertBatch, c), c)
  {
    var todo := s.phase.todo;
    var n := Min(BATCH_SIZE, |todo|);
    assert todo == todo[..n] + todo[n..];
    assert s.archive + todo == (s.archive + todo[..n]) + todo[n..];
    assert Gone(s) == {};
  }

  lemma Without(live: map<Id, Row>, ever: map<Id, Row>, ids: set<Id>)
    requires SubMap(live, ever) && ids <= live.Keys
    ensures SubMap(live - ids, ever)
    ensures (live - ids).Keys == live.Keys - ids
    ensures ever.Keys - (live - ids).Keys == (ever.Keys - live.Keys) + ids
  {
  }

  /** When all stale rows that are live go, all stale rows are gone. */
  lemma AllStaleGone(live: map<Id, Row>, ever: map<Id, Row>, c: Call)
    requires SubMap(live, ever) && forall id :: id in ever && id !in live ==> ever[id].time < Cutoff(c)
    ensures (ever.Keys - live.Keys) + Stale(live, c) == Stale(ever, c)
  {
  }

  lemma DeleteLive(s: State, c: Call, ids: set<Id>, now: int)
    requires LiveOk(s, c) && Sensible(c.policy) && Enabled(s, DeleteBatch(ids, now), c)
    ensures ids <= Stale(s.live, c) <= s.live.Keys
    ensures LiveOk(Next(s, DeleteBatch(ids, now), c), c)
  {
    MatchingIsStale(s.live, c, now);
    Without(s.live, s.ever, ids);
  }

  lemma DeleteGone(s: State, c: Call, ids: set<Id>, now: int)
    requires LiveOk(s, c) && Sensible(c.policy) && Enabled(s, DeleteBatch(ids, now), c)
    ensures var s' := Next(s, DeleteBatch(ids, now), c);
      && LiveOk(s', c) && Gone(s') == Gone(s) + ids && Gone(s) !! ids
      && (s'.phase == Done ==> Gone(s') == Stale(s.ever, c))
  {
    DeleteLive(s, c, ids, now);
    Without(s.live, s.ever, ids);
    if |ids| != BATCH_SIZE {
      MatchingIsStale(s.live, c, now);
      SubsetFull(ids, Stale(s.live, c));
      AllStaleGone(s.live, s.ever, c);
    }
  }

  lemma DeleteReports(s: State, c: Call, ids: set<Id>, now: int)
    requires LiveOk(s, c) && PhaseOk(s, c) && ArchiveOk(s, c) && CoverOk(s, c) && Sensible(c.policy)
    requires Enabled(s, DeleteBatch(ids, now), c)
    ensures var s' := Next(s, DeleteBatch(ids, now), c); PhaseOk(s', c) && ReportOk(s', c)
  {
    DeleteGone(s, c, ids, now);
  }

  lemma DeleteRest(s: State, c: Call, ids: set<Id>, now: int)
    requires Selected(s, c) && ArchiveOk(s, c) && CoverOk(s, c) && PhaseOk(s, c) && QuietOk(s, c) && Zeros(s)
    requires Enabled(s, DeleteBatch(ids, now), c)
    ensures var s' := Next(s, DeleteBatch(ids, now), c);
      Selected(s', c) && ArchiveOk(s', c) && CoverOk(s', c) && QuietOk(s', c) && DryOk(s', c) && Zeros(s')
  {
  }

  lemma DeleteKeeps(s: State, c: Call, ids: set<Id>, now: int)
    requires Inv(s, c) && Sensible(c.policy) && Enabled(s, DeleteBatch(ids, now), c)
    ensures Inv(Next(s, DeleteBatch(ids, now), c), c)
  {
    DeleteGone(s, c, ids, now);
    DeleteReports(s, c, ids, now);
    DeleteRest(s, c, ids, now);
  }

  /** A batch below the limit deleted all that matched. */
  lemma SubsetFull(a: set<Id>, b: set<Id>)
    requires a <= b && |a| == |b|
    ensures a == b
  {
    assert b == a + (b - a);
  }

  lemma RecountKeeps(s: State, c: Call, now: int)
    requires Inv(s, c) && Sensible(c.policy) && Enabled(s, Recount(now), c)
    ensures Inv(Next(s, Recount(now), c), c)
  {
    MatchingIsStale(s.live, c, now);
  }

  lemma ThrowKeeps(s: State, c: Call)
    requires Inv(s, c) && Enabled(s, Throw, c)
    ensures Inv(Next(s, Throw, c), c)
  {
  }

  lemma WriteLive(s: State, c: Call, id: Id, row: Row)
    requires LiveOk(s, c) && Selected(s, c) && Enabled(s, Write(id, row), c)
    ensures var s' := Next(s, Write(id, row), c);
      LiveOk(s', c) && Selected(s', c) && Gone(s') == Gone(s) && s'.ever != s.initial
  {
    var s' := Next(s, Write(id, row), c);
    assert id !in s.initial && id in s'.ever;
    assert Stale(s.ever, c) <= Stale(s'.ever, c);
    assert s.live.Keys <= s.ever.Keys;
  }

  lemma WriteKeeps(s: State, c: Call, id: Id, row: Row)
    requires Inv(s, c) && Enabled(s, Write(id, row), c)
    ensures Inv(Next(s, Write(id, row), c), c)
  {
    WriteLive(s, c, id, row);
  }

  lemma NextKeeps(s: State, step: Step, c: Call)
    requires Inv(s, c) && Sensible(c.policy) && Enabled(s, step, c)
    ensures Inv(Next(s, step, c), c)
  {
    match step {
      case Count(now) => CountKeeps(s, c, now);
      case Select(rows, now) => SelectKeeps(s, c, rows, now);
      case InsertBatch => InsertKeeps(s, c);
      case DeleteBatch(ids, now) => DeleteKeeps(s, c, ids, now);
      case Recount(now) => RecountKeeps(s, c, now);
      case Throw => ThrowKeeps(s, c);
      case Write(id, row) => WriteKeeps(s, c, id, row);
    }
  }

  // ---------------------------------------------------------------- runs

  ghost predicate Legal(s: State, steps: seq<Step>, c: Call)
    decreases |steps|
  {
    steps == [] || (Enabled(s, steps[0], c) && Legal(Next(s, steps[0], c), steps[1..], c))
  }

  function After(s: State, steps: seq<Step>, c: Call): State
    decreases |steps|
  {
    if steps == [] then s else After(Next(s, steps[0], c), steps[1..], c)
  }

  lemma {:induction false} RunKeeps(s: State, steps: seq<Step>, c: Call)
    requires Inv(s, c) && Sensible(c.policy) && Legal(s, steps, c)
    ensures Inv(After(s, steps, c), c)
    decreases |steps|
  {
    if steps != [] {
      NextKeeps(s, steps[0], c);
      RunKeeps(Next(s, steps[0], c), steps[1..], c);
    }
  }

  /** Every state a cleanup can be in, from any tables, meets the invariant the results below rest on. */
  lemma EveryRun(live: map<Id, Row>, archive: seq<Entry>, steps: seq<Step>, c: Call)
    requires Sensible(c.policy) && Legal(Begin(live, archive), steps, c)
    ensures Inv(After(Begin(live, archive), steps, c), c)
  {
    RunKeeps(Begin(live, archive), steps, c);
  }

  /** A state some cleanup reaches from the tables it began with. */
  ghost predicate Reachable(s: State, c: Call) {
    exists steps :: Legal(Begin(s.initial, s.filed), steps, c) && s == After(Begin(s.initial, s.filed), steps, c)
  }

  lemma {:induction false} RunSnoc(s: State, steps: seq<Step>, c: Call, step: Step)
    requires Legal(s, steps, c) && Enabled(After(s, steps, c), step, c)
    ensures Legal(s, steps + [step], c) && After(s, steps + [step], c) == Next(After(s, steps, c), step, c)
    decreases |steps|
  {
    var longer := steps + [step];
    if steps == [] {
      assert longer[1..] == [];
    } else {
      assert longer[0] == steps[0] && longer[1..] == steps[1..] + [step];
      RunSnoc(Next(s, steps[0], c), steps[1..], c, step);
    }
  }

  lemma ReachableNext(s: State, step: Step, c: Call)
    requires Reachable(s, c) && Enabled(s, step, c)
    ensures Reachable(Next(s, step, c), c)
  {
    var steps :| Legal(Begin(s.initial, s.filed), steps, c) && s == After(Begin(s.initial, s.filed), steps, c);
    RunSnoc(Begin(s.initial, s.filed), steps, c, step);
  }

  lemma ReachableInv(s: State, c: Call)
    requires Reachable(s, c) && Sensible(c.policy)
    ensures Inv(s, c)
  {
    var steps :| Legal(Begin(s.initial, s.filed), steps, c) && s == After(Begin(s.initial, s.filed), steps, c);
    EveryRun(s.initial, s.filed, steps, c);
  }

  lemma NotYetArchived(s: State, c: Call)
    requires Reachable(s, c) && Sensible(c.policy) && s.phase.Selecting?
    ensures s.report.archived == 0
  {
    ReachableInv(s, c);
  }

  // ---------------------------------------------------------------- results

  /** The row is in the table, or among what this call archived. */
  predicate Safe(s: State, id: Id)
    requires id in s.ever && |s.filed| <= |s.archive|
  {
    (id in s.live && s.live[id] == s.ever[id]) || Entry(id, s.ever[id]) in s.archive[|s.filed|..]
  }

  /** With archiving, or in a dry run, every row of the start is safe at every point, failures included. */
  lemma OriginalsAreSafe(s: State, c: Call, id: Id)
    requires Inv(s, c) && (Archives(c) || c.dryRun) && id in s.initial
    ensures s.ever[id] == s.initial[id] && Safe(s, id)
  {
    if id !in s.live {
      assert id in Stale(s.initial, c);
    }
  }

  predicate Succeeded(s: State, c: Call) {
    Archives(c) && s.phase == Done && !s.report.failed
  }

  /**
   * After a successful cleanup with archiving the stale rows are gone and the archive grew by
   * the selection, so what is neither live nor archived is stale and was not selected.
   */
  lemma LostExactly(s: State, c: Call, id: Id)
    requires Inv(s, c) && Succeeded(s, c) && id in s.ever
    ensures id in s.live <==> id !in Stale(s.ever, c)
    ensures s.archive == s.filed + s.selected
    ensures !Safe(s, id) <==> id in Stale(s.ever, c) && id !in IdsOf(s.selected)
  {
  }

  /** An old row inserted under this id. */
  predicate StaleWrite(step: Step, id: Id, c: Call) { step.Write? && step.id == id && step.row.time < Cutoff(c) }

  ghost predicate Written(steps: seq<Step>, id: Id, c: Call) {
    exists j :: 0 <= j < |steps| && StaleWrite(steps[j], id, c)
  }

  /** The run inserts an old row under this id after its archive query. */
  ghost predicate WrittenAfterSelect(steps: seq<Step>, id: Id, c: Call) {
    exists i, j :: 0 <= i < j < |steps| && steps[i].Select? && StaleWrite(steps[j], id, c)
  }

  /** The row is in neither table. */
  predicate Lost(s: State, id: Id)
    requires |s.filed| <= |s.archive|
  {
    id in s.ever && !Safe(s, id)
  }

  predicate Missed(s: State, id: Id, c: Call) { id in Stale(s.ever, c) && id !in IdsOf(s.selected) }

  /** Once past the query, a step makes a row missed just by inserting it. */
  lemma MissedNext(s: State, step: Step, c: Call, id: Id)
    requires Selected(s, c) && Enabled(s, step, c) && !s.phase.Counting? && !s.phase.Selecting?
    ensures Missed(Next(s, step, c), id, c) <==> Missed(s, id, c) || StaleWrite(step, id, c)
    ensures !step.Select? && !Next(s, step, c).phase.Counting? && !Next(s, step, c).phase.Selecting?
  {
  }

  lemma {:induction false} MissedLater(s: State, steps: seq<Step>, c: Call, id: Id)
    requires Inv(s, c) && Sensible(c.policy) && Legal(s, steps, c) && !s.phase.Counting? && !s.phase.Selecting?
    ensures Missed(After(s, steps, c), id, c) <==> Missed(s, id, c) || Written(steps, id, c)
    ensures !WrittenAfterSelect(steps, id, c)
    decreases |steps|
  {
    if steps != [] {
      NextKeeps(s, steps[0], c);
      MissedNext(s, steps[0], c, id);
      MissedLater(Next(s, steps[0], c), steps[1..], c, id);
    }
  }

  /** The query selects every old row there is, and a call that ends without it by success had none to select. */
  lemma MissedAtSelect(s: State, step: Step, c: Call, id: Id)
    requires Inv(s, c) && Sensible(c.policy) && Archives(c) && Enabled(s, step, c)
    requires s.phase.Counting? || s.phase.Selecting?
    requires var next := Next(s, step, c); !next.phase.Counting? && !next.phase.Selecting?
    ensures var next := Next(s, step, c);
      && (step.Select? ==> !Missed(next, id, c))
      && (!step.Select? ==> next.phase == Done && (!next.report.failed ==> !Missed(next, id, c)))
  {
    if step.Select? || step.Count? { MatchingIsStale(s.live, c, step.now); }
  }

  lemma {:induction false} MissedRun(s: State, steps: seq<Step>, c: Call, id: Id)
    requires Inv(s, c) && Sensible(c.policy) && Legal(s, steps, c) && Archives(c)
    requires s.phase.Counting? || s.phase.Selecting?
    requires Succeeded(After(s, steps, c), c)
    ensures Missed(After(s, steps, c), id, c) <==> WrittenAfterSelect(steps, id, c)
    decreases |steps|
  {
    var step, next, rest := steps[0], Next(s, steps[0], c), steps[1..];
    NextKeeps(s, step, c);
    if next.phase.Counting? || next.phase.Selecting? {
      MissedRun(next, rest, c, id);
    } else {
      MissedAtSelect(s, step, c, id);
      MissedLater(next, rest, c, id);
      if !step.Select? { assert rest == []; }
    }
  }

  /**
   * A successful cleanup with archiving loses exactly the old rows that another connection
   * inserted after the archive query, whatever else the run holds.
   */
  lemma LostIffWrittenAfterSelect(live: map<Id, Row>, archive: seq<Entry>, steps: seq<Step>, c: Call, id: Id)
    requires Sensible(c.policy) && Legal(Begin(live, archive), steps, c)
    requires Succeeded(After(Begin(live, archive), steps, c), c)
    ensures var s := After(Begin(live, archive), steps, c);
      |s.filed| <= |s.archive| && (Lost(s, id) <==> WrittenAfterSelect(steps, id, c))
  {
    var s := After(Begin(live, archive), steps, c);
    EveryRun(live, archive, steps, c);
    MissedRun(Begin(live, archive), steps, c, id);
    if id in s.ever { LostExactly(s, c, id); }
  }

  /** A call, two old rows of which the second is inserted between the archive query and the delete. */
  const LOSSY_CALL := Call(POLICIES[0], false, false, 0)
  const OLD_ROW := Row(-100 * DAY_MS, "", "")
  const FOUND := [Entry(1, OLD_ROW)]
  const LOSSY_RUN := [Count(0), Select(FOUND, 0), Write(2, OLD_ROW), InsertBatch, DeleteBatch({1, 2}, 0)]

  /** The call succeeds and reports one row archived and two deleted; the second is in neither table. */
  lemma CleanupCanLose()
    ensures var start := Begin(map[1 := OLD_ROW], []);
      && Legal(start, LOSSY_RUN, LOSSY_CALL)
      && var s := After(start, LOSSY_RUN, LOSSY_CALL);
        Succeeded(s, LOSSY_CALL) && s.report == Report(1, 1, 2, false) && |s.filed| <= |s.archive| && Lost(s, 2)
  {
    var c, s0 := LOSSY_CALL, Begin(map[1 := OLD_ROW], []);
    var s4 := LossyArchive();
    var s5 := Next(s4, DeleteBatch({1, 2}, 0), c);
    assert Matching(s4.live, c, 0) == {1, 2};
    RunSnoc(s0, LOSSY_RUN[..4], c, DeleteBatch({1, 2}, 0));
    assert LOSSY_RUN == LOSSY_RUN[..4] + [DeleteBatch({1, 2}, 0)];
    assert 2 in s5.ever && 2 !in s5.live && s5.archive == s5.archive[|s5.filed|..] == FOUND;
  }

  /** The count and the archive query, whatever the archive holds already. */
  lemma FoundSelected(archive: seq<Entry>) returns (s: State)
    ensures var start := Begin(map[1 := OLD_ROW], archive);
      Legal(start, LOSSY_RUN[..2], LOSSY_CALL) && s == After(start, LOSSY_RUN[..2], LOSSY_CALL)
    ensures s == State(map[1 := OLD_ROW], archive, Archiving(FOUND, 0), Report(1, 0, 0, false),
                       map[1 := OLD_ROW], archive, map[1 := OLD_ROW], FOUND)
  {
    var c, s0 := LOSSY_CALL, Begin(map[1 := OLD_ROW], archive);
    assert Matching(s0.live, c, 0) == {1};
    RunSnoc(s0, [], c, Count(0));
    var s1 := Next(s0, Count(0), c);
    IdsSnoc([], Entry(1, OLD_ROW));
    assert [] + [Entry(1, OLD_ROW)] == FOUND && IdsOf(FOUND) == {} + {1};
    RunSnoc(s0, [Count(0)], c, Select(FOUND, 0));
    s := Next(s1, Select(FOUND, 0), c);
    assert [] + [Count(0)] == [Count(0)] && LOSSY_RUN[..2] == [Count(0)] + [Select(FOUND, 0)];
  }

  lemma LossyArchive() returns (s: State)
    ensures var start := Begin(map[1 := OLD_ROW], []);
      Legal(start, LOSSY_RUN[..4], LOSSY_CALL) && s == After(start, LOSSY_RUN[..4], LOSSY_CALL)
    ensures s == State(map[1 := OLD_ROW, 2 := OLD_ROW], FOUND, Deleting(0), Report(1, 1, 0, false),
                       map[1 := OLD_ROW], [], map[1 := OLD_ROW, 2 := OLD_ROW], FOUND)
  {
    var c, s0 := LOSSY_CALL, Begin(map[1 := OLD_ROW], []);
    var s2 := FoundSelected([]);
    RunSnoc(s0, LOSSY_RUN[..2], c, Write(2, OLD_ROW));
    var s3 := Next(s2, Write(2, OLD_ROW), c);
    assert LOSSY_RUN[..3] == LOSSY_RUN[..2] + [Write(2, OLD_ROW)];
    RunSnoc(s0, LOSSY_RUN[..3], c, InsertBatch);
    s := Next(s3, InsertBatch, c);
    assert FOUND[..1] == FOUND && FOUND[1..] == [] && s.archive == FOUND;
    assert LOSSY_RUN[..4] == LOSSY_RUN[..3] + [InsertBatch];
  }

  /** Nothing was lost exactly when the report counts as many rows archived as deleted. */
  lemma CountsTellLosses(s: State, c: Call)
    requires Inv(s, c) && Succeeded(s, c)
    ensures s.report.archived == |s.selected| && s.report.deleted == |Stale(s.ever, c)|
    ensures (forall id <- s.ever :: Safe(s, id)) <==> s.report.archived == s.report.deleted
  {
    forall id | id in s.ever
      ensures !Safe(s, id) <==> id in Stale(s.ever, c) && id !in IdsOf(s.selected)
    {
      LostExactly(s, c, id);
    }
    SameCount(s.selected, Stale(s.ever, c));
  }

  lemma SameCount(entries: seq<Entry>, all: set<Id>)
    requires IdsOf(entries) <= all && forall i, j :: 0 <= i < j < |entries| ==> entries[i].id != entries[j].id
    ensures |entries| == |all| <==> all <= IdsOf(entries)
  {
    IdsCount(entries);
    if |entries| == |all| { SubsetFull(IdsOf(entries), all); }
    assert all <= IdsOf(entries) ==> all == IdsOf(entries);
  }

  lemma {:induction false} IdsCount(entries: seq<Entry>)
    requires forall i, j :: 0 <= i < j < |entries| ==> entries[i].id != entries[j].id
    ensures |IdsOf(entries)| == |entries|
  {
    if entries != [] {
      var n := |entries| - 1;
      IdsCount(entries[..n]);
      assert IdsOf(entries) == IdsOf(entries[..n]) + {entries[n].id};
      assert entries[n].id !in IdsOf(entries[..n]);
    }
  }

  /** With no other writer a successful cleanup moves exactly the stale rows, each once, and all three counts agree. */
  lemma QuietMovesExactly(s: State, c: Call)
    requires Inv(s, c) && Archives(c) && s.phase == Done && !s.report.failed && s.ever == s.initial
    ensures s.live.Keys == s.initial.Keys - Stale(s.initial, c) && SubMap(s.live, s.initial)
    ensures exists moved :: MovedOnce(s, c, moved)
    ensures s.report.processed == s.report.archived == s.report.deleted == |Stale(s.initial, c)|
  {
    IdsCount(s.selected);
    assert IdsOf(s.selected) == Stale(s.initial, c);
    assert MovedOnce(s, c, s.selected);
  }

  ghost predicate MovedOnce(s: State, c: Call, moved: seq<Entry>) {
    && s.archive == s.filed + moved && IdsOf(moved) == Stale(s.initial, c)
    && (forall i, j :: 0 <= i < j < |moved| ==> moved[i].id != moved[j].id)
    && (forall k :: 0 <= k < |moved| ==> moved[k].id in s.initial && moved[k].row == s.initial[moved[k].id])
  }

  /** A cleanup without archiving, and with no other writer, deletes exactly the stale rows. */
  lemma QuietDeletesExactly(s: State, c: Call)
    requires Inv(s, c) && !c.dryRun && s.phase == Done && !s.report.failed && s.ever == s.initial
    ensures s.live.Keys == s.initial.Keys - Stale(s.initial, c) && SubMap(s.live, s.initial)
    ensures s.report.processed == s.report.deleted == |Stale(s.initial, c)|
    ensures !c.policy.archiveBeforeDelete ==> s.archive == s.filed
  {
  }

  /** A dry run, forced or not, writes to neither table; a forced one still reports the stale rows as deleted. */
  lemma DryRunChangesNothing(s: State, c: Call)
    requires Inv(s, c) && c.dryRun
    ensures s.live == s.ever && s.archive == s.filed
    ensures s.phase == Done && !s.report.failed && c.force && s.ever == s.initial ==>
      s.report.deleted == s.report.processed == |Stale(s.initial, c)|
    ensures s.phase == Done && !s.report.failed && !c.force ==> s.report.deleted == 0
  {
  }

  // ---------------------------------------------------------------- the call ends

  function Rank(p: Phase): nat {
    match p case Counting => 5 case Selecting => 4
    case Archiving(_, _) => 3 case Deleting(_) => 2 case Recounting => 1 case Done => 0
  }

  function Size(s: State): nat { if s.phase.Archiving? then |s.phase.todo| else |s.live| }

  lemma BatchAdvances(s: State, c: Call, ids: set<Id>, now: int)
    requires s.phase.Deleting? && ids <= s.live.Keys && Next(s, DeleteBatch(ids, now), c).phase.Deleting?
    ensures |Next(s, DeleteBatch(ids, now), c).live| < |s.live|
  {
  }

  /** Every step of the call itself advances it; only other writers could keep the delete loop busy. */
  lemma StepsRunOut(s: State, c: Call, step: Step)
    requires PhaseOk(s, c) && Enabled(s, step, c) && !step.Write? && s.phase != Done
    ensures Rank(Next(s, step, c).phase) < Rank(s.phase)
            || (Rank(Next(s, step, c).phase) == Rank(s.phase) && Size(Next(s, step, c)) < Size(s))
  {
    if step.DeleteBatch? && |step.ids| == BATCH_SIZE { BatchAdvances(s, c, step.ids, step.now); }
  }

  /** A call that is not done can always take a step other than throwing. */
  lemma NeverStuck(s: State, c: Call)
    requires ArchiveOk(s, c) && s.phase != Done
    ensures exists step :: Enabled(s, step, c) && !step.Throw? && !step.Write?
  {
    match s.phase {
      case Counting => assert Enabled(s, Count(c.started), c);
      case Selecting =>
        var rows := Listing(s.live, Matching(s.live, c, c.started));
        assert Enabled(s, Select(rows, c.started), c);
      case Archiving(_, _) => assert Enabled(s, InsertBatch, c);
      case Deleting(_) =>
        var ids := SubsetOf(Matching(s.live, c, c.started), Min(BATCH_SIZE, |Matching(s.live, c, c.started)|));
        assert Enabled(s, DeleteBatch(ids, c.started), c);
      case Recounting => assert Enabled(s, Recount(c.started), c);
    }
  }

  lemma ListingSnoc(live: map<Id, Row>, rest: seq<Entry>, ids: set<Id>, id: Id)
    requires ListsIds(rest, live, ids) && id in live && id !in ids
    ensures ListsIds(rest + [Entry(id, live[id])], live, ids + {id})
  {
    IdsSnoc(rest, Entry(id, live[id]));
    assert forall k :: 0 <= k < |rest| ==> rest[k].id in IdsOf(rest);
  }

  ghost function Listing(live: map<Id, Row>, ids: set<Id>): (rows: seq<Entry>)
    requires ids <= live.Keys
    ensures ListsIds(rows, live, ids)
    decreases |ids|
  {
    if ids == {} then []
    else
      var id :| id in ids;
      var rest := Listing(live, ids - {id});
      ListingSnoc(live, rest, ids - {id}, id);
      assert ids - {id} + {id} == ids;
      rest + [Entry(id, live[id])]
  }

  lemma IdsSnoc(rows: seq<Entry>, e: Entry)
    ensures IdsOf(rows + [e]) == IdsOf(rows) + {e.id}
  {
    var all := rows + [e];
    assert forall k :: 0 <= k < |rows| ==> all[k] == rows[k];
    assert all[|rows|] == e;
    forall id | id in IdsOf(rows) + {e.id}
      ensures id in IdsOf(all)
    {
      if id in IdsOf(rows) {
        var k :| 0 <= k < |rows| && rows[k].id == id;
        assert all[k].id == id;
      }
    }
  }

  ghost function SubsetOf(ids: set<Id>, n: nat): (some: set<Id>)
    requires n <= |ids|
    ensures some <= ids && |some| == n
  {
    if n == 0 then {}
    else
      var id :| id in ids;
      SubsetOf(ids - {id}, n - 1) + {id}
  }
}
