/** The cleanup of one entity type as imperative code over the table and its archive. */
module CleanupJob {
  import opened Common
  import opened Cleanup
  import opened CleanupRuns

  /** The table, with no other writer; `step` is the step system's account of the call. */
  class Table {
    var live: map<Id, Row>
    var archive: seq<Entry>
    ghost var step: State

    ghost predicate Tracks(c: Call)
      reads this
    {
      Reachable(step, c) && Sensible(c.policy)
      && live == step.live && archive == step.archive && step.ever == step.initial
    }

    constructor (live: map<Id, Row>, archive: seq<Entry>)
      ensures this.live == live && this.archive == archive
    {
      this.live, this.archive := live, archive;
    }

    /** The statement that comes next throws, or not. */
    method Throws(c: Call) returns (thrown: bool)
      requires Tracks(c) && step.phase != Done
      modifies this`step
      ensures Tracks(c) && step.initial == old(step).initial && step.filed == old(step).filed
      ensures if thrown then step.phase == Done && step.report == old(step).report.(failed := true)
        else step == old(step)
    {
      thrown := *;
      if thrown {
        ReachableNext(step, Throw, c);
        step := Next(step, Throw, c);
      }
    }

    /** `select *` under the where condition, in whatever order. */
    method SelectRows(c: Call, now: int) returns (rows: seq<Entry>)
      ensures Lists(rows, live, c, now)
    {
      rows := [];
      var all := Matching(live, c, now);
      var rest := all;
      while rest != {}
        invariant rest <= all && ListsIds(rows, live, all - rest)
        decreases |rest|
      {
        var id :| id in rest;
        ListingSnoc(live, rows, all - rest, id);
        assert all - rest + {id} == all - (rest - {id});
        rows := rows + [Entry(id, live[id])];
        rest := rest - {id};
      }
      assert all - rest == all;
    }

    /** Which rows a limited delete picks is the database's choice. */
    method PickBatch(ids: set<Id>) returns (batch: set<Id>)
      ensures batch <= ids && |batch| == Min(BATCH_SIZE, |ids|)
    {
      batch := {};
      var rest := ids;
      while rest != {} && |batch| < BATCH_SIZE
        invariant batch + rest == ids && batch !! rest && |batch| + |rest| == |ids| && |batch| <= BATCH_SIZE
        decreases |rest|
      {
        var id :| id in rest;
        batch, rest := batch + {id}, rest - {id};
      }
    }

    method ArchiveData(c: Call) returns (archived: Option<nat>)
      requires Tracks(c) && step.phase.Selecting?
      modifies this
      ensures Tracks(c) && step.initial == old(step).initial && step.filed == old(step).filed
      ensures archived.None? ==> step.phase == Done && step.report == old(step).report.(failed := true)
      ensures archived.Some? ==>
        step.phase == AfterArchive(c) && step.report == old(step).report.(archived := archived.value)
    {
      var thrown := Throws(c);
      if thrown { return None; }
      NotYetArchived(step, c);
      var now :| now >= c.started;
      var dataToArchive := SelectRows(c, now);
      ReachableNext(step, Select(dataToArchive, now), c);
      step := Next(step, Select(dataToArchive, now), c);
      var archivedCount: nat := 0;
      if |dataToArchive| == 0 { return Some(archivedCount); }
      var i: nat := 0;
      while i < |dataToArchive|
        invariant Tracks(c) && step.initial == old(step).initial && step.filed == old(step).filed
        invariant archivedCount == Min(i, |dataToArchive|)
        invariant if i < |dataToArchive|
          then step.phase == Archiving(dataToArchive[i..], i) && step.report == old(step).report
          else step.phase == AfterArchive(c) && step.report == old(step).report.(archived := archivedCount)
        decreases |dataToArchive| - i
      {
        thrown := Throws(c);
        if thrown { return None; }
        var batch := dataToArchive[i..Min(i + BATCH_SIZE, |dataToArchive|)];
        ReachableNext(step, InsertBatch, c);
        step := Next(step, InsertBatch, c);
        archive := archive + batch;
        archivedCount := archivedCount + |batch|;
        i := i + BATCH_SIZE;
      }
      return Some(archivedCount);
    }

    method DeleteOne(c: Call) returns (deleted: Option<nat>)
      requires Tracks(c) && step.phase.Deleting?
      modifies this
      ensures Tracks(c) && step.initial == old(step).initial && step.filed == old(step).filed
      ensures deleted.None? ==> step.phase == Done && step.report == old(step).report.(failed := true)
      ensures deleted.Some? ==>
        var total := old(step).phase.total + deleted.value;
        if deleted.value == BATCH_SIZE then
          step.phase == Deleting(total) && step.report == old(step).report && |live| < |old(live)|
        else step.phase == Done && step.report == old(step).report.(deleted := total)
    {
      var thrown := Throws(c);
      if thrown { return None; }
      var now :| now >= c.started;
      var batch := PickBatch(Matching(live, c, now));
      ReachableNext(step, DeleteBatch(batch, now), c);
      if |batch| == BATCH_SIZE { BatchAdvances(step, c, batch, now); }
      step := Next(step, DeleteBatch(batch, now), c);
      live := live - batch;
      return Some(|batch|);
    }

    method CountOnly(c: Call) returns (count: Option<nat>)
      requires Tracks(c) && step.phase.Recounting?
      modifies this`step
      ensures Tracks(c) && step.initial == old(step).initial && step.filed == old(step).filed && step.phase == Done
      ensures count.None? ==> step.report == old(step).report.(failed := true)
      ensures count.Some? ==> step.report == old(step).report.(deleted := count.value)
    {
      var thrown := Throws(c);
      if thrown { return None; }
      var now :| now >= c.started;
      ReachableNext(step, Cleanup.Recount(now), c);
      step := Next(step, Cleanup.Recount(now), c);
      return Some(|Matching(live, c, now)|);
    }

    method DeleteInBatches(c: Call) returns (deleted: Option<nat>)
      requires Tracks(c) && step.phase == Deleting(0)
      modifies this
      ensures Tracks(c) && step.initial == old(step).initial && step.filed == old(step).filed && step.phase == Done
      ensures deleted.None? ==> step.report == old(step).report.(failed := true)
      ensures deleted.Some? ==> step.report == old(step).report.(deleted := deleted.value)
    {
      var totalDeleted: nat := 0;
      var hasMore := true;
      while hasMore
        invariant Tracks(c) && step.initial == old(step).initial && step.filed == old(step).filed
        invariant if hasMore then step.phase == Deleting(totalDeleted) && step.report == old(step).report
          else step.phase == Done && step.report == old(step).report.(deleted := totalDeleted)
        decreases if hasMore then |live| + 1 else 0
      {
        var deletedCount := DeleteOne(c);
        if deletedCount.None? { return None; }
        totalDeleted := totalDeleted + deletedCount.value;
        hasMore := deletedCount.value == BATCH_SIZE;
      }
      return Some(totalDeleted);
    }

    method DeleteOldData(c: Call) returns (deleted: Option<nat>)
      requires Tracks(c) && step.phase == AfterArchive(c) && step.phase != Done
      modifies this
      ensures Tracks(c) && step.initial == old(step).initial && step.filed == old(step).filed && step.phase == Done
      ensures deleted.None? ==> step.report == old(step).report.(failed := true)
      ensures deleted.Some? ==> step.report == old(step).report.(deleted := deleted.value)
    {
      if c.dryRun {
        deleted := CountOnly(c);
      } else {
        deleted := DeleteInBatches(c);
      }
    }

    /** The final state is one the step system reaches, so the results about its runs hold of the tables. */
    method CleanupEntityType(c: Call) returns (report: Report)
      requires Sensible(c.policy)
      modifies this
      ensures Tracks(c) && step.phase == Done && step.report == report
      ensures step.initial == old(live) && step.filed == old(archive)
    {
      report := Report(0, 0, 0, false);
      step := Begin(live, archive);
      assert Legal(step, [], c) && After(step, [], c) == step;
      var thrown := Throws(c);
      if thrown { return report.(failed := true); }
      var now :| now >= c.started;
      ReachableNext(step, Count(now), c);
      step := Next(step, Count(now), c);
      report := report.(processed := |Matching(live, c, now)|);
      if report.processed == 0 { return; }
      if c.policy.archiveBeforeDelete && !c.dryRun {
        var archived := ArchiveData(c);
        if archived.None? { return report.(failed := true); }
        report := report.(archived := archived.value);
      }
      if !c.dryRun || c.force {
        var deleted := DeleteOldData(c);
        if deleted.None? { return report.(failed := true); }
        report := report.(deleted := deleted.value);
      }
    }

    /**
     * A real cleanup that reports no error moved exactly the stale rows, or deleted them where the
     * policy does not archive.
     */
    method CleanupAndConfirm(c: Call) returns (report: Report)
      requires Sensible(c.policy) && !c.dryRun
      modifies this
      ensures !report.failed ==>
        && live.Keys == old(live).Keys - Stale(old(live), c) && SubMap(live, old(live))
        && report.processed == report.deleted == |Stale(old(live), c)|
        && (c.policy.archiveBeforeDelete ==>
            report.archived == report.processed && exists moved :: MovedOnce(step, c, moved))
        && (!c.policy.archiveBeforeDelete ==> archive == old(archive))
      ensures report.failed && c.policy.archiveBeforeDelete ==>
        forall id <- old(live) ::
          (id in live && live[id] == old(live)[id])
          || (|old(archive)| <= |archive| && Entry(id, old(live)[id]) in archive[|old(archive)|..])
    {
      report := CleanupEntityType(c);
      ReachableInv(step, c);
      if report.failed && c.policy.archiveBeforeDelete {
        forall id | id in old(live)
          ensures (id in live && live[id] == old(live)[id])
                  || (|old(archive)| <= |archive| && Entry(id, old(live)[id]) in archive[|old(archive)|..])
        {
          OriginalsAreSafe(step, c, id);
        }
      } else if !report.failed {
        QuietDeletesExactly(step, c);
        if c.policy.archiveBeforeDelete { QuietMovesExactly(step, c); }
      }
    }
  }
}
