/** What a chain of cleanups of one table adds up to: how often a row is archived. */
module CleanupChains {
  import opened Common
  import opened Cleanup
  import opened CleanupRuns

  /** One call with everything that happens until the next one begins, inserts of other connections included. */
  datatype Visit = Visit(call: Call, steps: seq<Step>)

  function Outcome(live: map<Id, Row>, archive: seq<Entry>, v: Visit): State {
    After(Begin(live, archive), v.steps, v.call)
  }

  ghost predicate FreshWrites(steps: seq<Step>, used: set<Id>) {
    forall k :: 0 <= k < |steps| && steps[k].Write? ==> steps[k].id !in used
  }

  /** Each call starts from the tables the one before left; no id the table ever held is used again. */
  ghost predicate Chain(live: map<Id, Row>, archive: seq<Entry>, used: set<Id>, visits: seq<Visit>)
    decreases |visits|
  {
    visits == [] ||
    (&& Sensible(visits[0].call.policy) && Legal(Begin(live, archive), visits[0].steps, visits[0].call)
     && FreshWrites(visits[0].steps, used)
     && var s := Outcome(live, archive, visits[0]);
       Chain(s.live, s.archive, used + s.ever.Keys, visits[1..]))
  }

  function StateAt(live: map<Id, Row>, archive: seq<Entry>, visits: seq<Visit>, k: nat): State
    requires k < |visits|
    decreases k
  {
    var s := Outcome(live, archive, visits[0]);
    if k == 0 then s else StateAt(s.live, s.archive, visits[1..], k - 1)
  }

  function FinalArchive(live: map<Id, Row>, archive: seq<Entry>, visits: seq<Visit>): seq<Entry>
    decreases |visits|
  {
    if visits == [] then archive
    else
      var s := Outcome(live, archive, visits[0]);
      FinalArchive(s.live, s.archive, visits[1..])
  }

  function Copies(entries: seq<Entry>, id: Id): nat {
    if entries == [] then 0
    else Copies(entries[..|entries| - 1], id) + if entries[|entries| - 1].id == id then 1 else 0
  }

  /** The row is among what the call archived. */
  predicate Archived(s: State, id: Id) { |s.filed| <= |s.archive| && id in IdsOf(s.archive[|s.filed|..]) }

  /** The call archived the row but left it in the table. */
  predicate Spared(s: State, id: Id) { Archived(s, id) && id in s.live }

  function ArchivedTimes(live: map<Id, Row>, archive: seq<Entry>, visits: seq<Visit>, id: Id): nat
    decreases |visits|
  {
    if visits == [] then 0
    else
      var s := Outcome(live, archive, visits[0]);
      (if Archived(s, id) then 1 else 0) + ArchivedTimes(s.live, s.archive, visits[1..], id)
  }

  // ---------------------------------------------------------------- one call

  lemma {:induction false} CopiesConcat(a: seq<Entry>, b: seq<Entry>, id: Id)
    ensures Copies(a + b, id) == Copies(a, id) + Copies(b, id)
  {
    if b == [] {
      assert a + b == a;
    } else {
      var n := |b| - 1;
      CopiesConcat(a, b[..n], id);
      assert (a + b)[..|a| + n] == a + b[..n];
    }
  }

  lemma {:induction false} CopiesOnce(entries: seq<Entry>, id: Id)
    requires forall i, j :: 0 <= i < j < |entries| ==> entries[i].id != entries[j].id
    ensures Copies(entries, id) == if id in IdsOf(entries) then 1 else 0
  {
    if entries != [] {
      var n := |entries| - 1;
      CopiesOnce(entries[..n], id);
      IdsSnoc(entries[..n], entries[n]);
      assert entries[..n] + [entries[n]] == entries;
    }
  }

  /** A call archives a row at most once, and only a row the table held during the call. */
  lemma OneCall(s: State, c: Call, id: Id)
    requires Selected(s, c) && ArchiveOk(s, c)
    ensures Copies(s.archive, id) == Copies(s.filed, id) + if Archived(s, id) then 1 else 0
    ensures Archived(s, id) ==> id in s.ever
  {
    var more := s.archive[|s.filed|..];
    assert s.archive == s.filed + more;
    assert forall k :: 0 <= k < |more| ==> more[k] == s.selected[k];
    CopiesConcat(s.filed, more, id);
    CopiesOnce(more, id);
  }

  lemma {:induction false} Remembers(s: State, steps: seq<Step>, c: Call, used: set<Id>)
    requires Legal(s, steps, c) && FreshWrites(steps, used)
    ensures After(s, steps, c).filed == s.filed
    ensures forall id :: id in After(s, steps, c).ever && id !in s.ever ==> id !in used
    ensures s.live.Keys <= s.ever.Keys ==> After(s, steps, c).live.Keys <= After(s, steps, c).ever.Keys
    decreases |steps|
  {
    if steps != [] {
      assert steps[0].Write? ==> steps[0].id !in used;
      assert forall k :: 0 <= k < |steps| - 1 ==> steps[1..][k] == steps[k + 1];
      Remembers(Next(s, steps[0], c), steps[1..], c, used);
    }
  }

  lemma FirstCall(live: map<Id, Row>, archive: seq<Entry>, used: set<Id>, visits: seq<Visit>, id: Id)
    requires visits != [] && Chain(live, archive, used, visits) && live.Keys <= used
    ensures var s := Outcome(live, archive, visits[0]);
      && Inv(s, visits[0].call) && s.filed == archive && s.live.Keys <= used + s.ever.Keys
      && Copies(s.archive, id) == Copies(archive, id) + (if Archived(s, id) then 1 else 0)
      && (id in used && id !in live ==> !Archived(s, id) && id !in s.live)
      && (Archived(s, id) ==> id in s.ever)
  {
    var v, s := visits[0], Outcome(live, archive, visits[0]);
    EveryRun(live, archive, v.steps, v.call);
    Remembers(Begin(live, archive), v.steps, v.call, used);
    OneCall(s, v.call, id);
  }

  // ---------------------------------------------------------------- chains

  lemma {:induction false} ChainInv(
      live: map<Id, Row>, archive: seq<Entry>, used: set<Id>, visits: seq<Visit>, k: nat)
    requires Chain(live, archive, used, visits) && live.Keys <= used && k < |visits|
    ensures Inv(StateAt(live, archive, visits, k), visits[k].call)
    decreases k
  {
    FirstCall(live, archive, used, visits, 0);
    if k > 0 {
      var s := Outcome(live, archive, visits[0]);
      ChainInv(s.live, s.archive, used + s.ever.Keys, visits[1..], k - 1);
    }
  }

  /** The copies of a row are as many as the calls that archived it. */
  lemma {:induction false} CopiesAreCalls(
      live: map<Id, Row>, archive: seq<Entry>, used: set<Id>, visits: seq<Visit>, id: Id)
    requires Chain(live, archive, used, visits) && live.Keys <= used
    ensures Copies(FinalArchive(live, archive, visits), id) ==
      Copies(archive, id) + ArchivedTimes(live, archive, visits, id)
    decreases |visits|
  {
    if visits != [] {
      var s := Outcome(live, archive, visits[0]);
      FirstCall(live, archive, used, visits, id);
      CopiesAreCalls(s.live, s.archive, used + s.ever.Keys, visits[1..], id);
    }
  }

  /** A deleted row is never archived again. */
  lemma {:induction false} DeletedStaysOut(
      live: map<Id, Row>, archive: seq<Entry>, used: set<Id>, visits: seq<Visit>, id: Id)
    requires Chain(live, archive, used, visits) && live.Keys <= used && id in used && id !in live
    ensures ArchivedTimes(live, archive, visits, id) == 0
    decreases |visits|
  {
    if visits != [] {
      var s := Outcome(live, archive, visits[0]);
      FirstCall(live, archive, used, visits, id);
      DeletedStaysOut(s.live, s.archive, used + s.ever.Keys, visits[1..], id);
    }
  }

  ghost predicate ArchivedAt(live: map<Id, Row>, archive: seq<Entry>, visits: seq<Visit>, k: nat, id: Id) {
    k < |visits| && Archived(StateAt(live, archive, visits, k), id)
  }

  ghost predicate SparedAt(live: map<Id, Row>, archive: seq<Entry>, visits: seq<Visit>, k: nat, id: Id) {
    k < |visits| && Spared(StateAt(live, archive, visits, k), id)
  }

  lemma {:induction false} SomeCall(live: map<Id, Row>, archive: seq<Entry>, visits: seq<Visit>, id: Id)
    ensures ArchivedTimes(live, archive, visits, id) >= 1 <==>
      exists k: nat :: ArchivedAt(live, archive, visits, k, id)
    decreases |visits|
  {
    if visits != [] {
      var s := Outcome(live, archive, visits[0]);
      SomeCall(s.live, s.archive, visits[1..], id);
      if Archived(s, id) { assert ArchivedAt(live, archive, visits, 0, id); }
      if k: nat :| ArchivedAt(live, archive, visits, k, id) && k > 0 {
        assert ArchivedAt(s.live, s.archive, visits[1..], k - 1, id);
      }
      if k: nat :| ArchivedAt(s.live, s.archive, visits[1..], k, id) {
        assert ArchivedAt(live, archive, visits, k + 1, id);
      }
    }
  }

  ghost predicate SparedThenArchived(live: map<Id, Row>, archive: seq<Entry>, visits: seq<Visit>, id: Id) {
    exists j: nat, k: nat :: j < k && SparedAt(live, archive, visits, j, id) && ArchivedAt(live, archive, visits, k, id)
  }

  lemma SparedTail(live: map<Id, Row>, archive: seq<Entry>, visits: seq<Visit>, id: Id)
    requires visits != []
    ensures var s := Outcome(live, archive, visits[0]);
      SparedThenArchived(live, archive, visits, id) <==>
        || (Spared(s, id) && exists k: nat :: ArchivedAt(s.live, s.archive, visits[1..], k, id))
        || SparedThenArchived(s.live, s.archive, visits[1..], id)
  {
    var s, rest := Outcome(live, archive, visits[0]), visits[1..];
    assert SparedAt(live, archive, visits, 0, id) <==> Spared(s, id);
    if j: nat, k: nat :| j < k && SparedAt(live, archive, visits, j, id) && ArchivedAt(live, archive, visits, k, id) {
      assert ArchivedAt(s.live, s.archive, rest, k - 1, id);
      if j > 0 { assert SparedAt(s.live, s.archive, rest, j - 1, id); }
    }
    if k: nat :| ArchivedAt(s.live, s.archive, rest, k, id) { assert ArchivedAt(live, archive, visits, k + 1, id); }
    if j: nat, k: nat :|
      j < k && SparedAt(s.live, s.archive, rest, j, id) && ArchivedAt(s.live, s.archive, rest, k, id)
    {
      assert SparedAt(live, archive, visits, j + 1, id) && ArchivedAt(live, archive, visits, k + 1, id);
    }
  }

  lemma {:induction false} TwiceIffSpared(
      live: map<Id, Row>, archive: seq<Entry>, used: set<Id>, visits: seq<Visit>, id: Id)
    requires Chain(live, archive, used, visits) && live.Keys <= used
    ensures ArchivedTimes(live, archive, visits, id) >= 2 <==> SparedThenArchived(live, archive, visits, id)
    decreases |visits|
  {
    if visits != [] {
      var s := Outcome(live, archive, visits[0]);
      FirstCall(live, archive, used, visits, id);
      SomeCall(s.live, s.archive, visits[1..], id);
      SparedTail(live, archive, visits, id);
      TwiceIffSpared(s.live, s.archive, used + s.ever.Keys, visits[1..], id);
      SparedImpliesTwo(s.live, s.archive, visits[1..], id);
      if Archived(s, id) && id !in s.live {
        DeletedStaysOut(s.live, s.archive, used + s.ever.Keys, visits[1..], id);
      }
    }
  }

  lemma SparedImpliesTwo(live: map<Id, Row>, archive: seq<Entry>, visits: seq<Visit>, id: Id)
    ensures SparedThenArchived(live, archive, visits, id) ==> ArchivedTimes(live, archive, visits, id) >= 1
  {
    SomeCall(live, archive, visits, id);
  }

  /**
   * Over any chain of cleanups a row not archived before is archived more than once exactly when
   * some call archived it but left it in the table and a later one archived it again, and a call
   * that left it there threw before it deleted it.
   */
  lemma ArchivedTwiceIff(live: map<Id, Row>, archive: seq<Entry>, used: set<Id>, visits: seq<Visit>, id: Id)
    requires Chain(live, archive, used, visits) && live.Keys <= used && Copies(archive, id) == 0
    ensures Copies(FinalArchive(live, archive, visits), id) >= 2 <==> SparedThenArchived(live, archive, visits, id)
    ensures forall k: nat :: SparedAt(live, archive, visits, k, id) ==>
      var s := StateAt(live, archive, visits, k);
      Archives(visits[k].call) && !Succeeded(s, visits[k].call) && (s.phase == Done ==> s.report.failed)
  {
    CopiesAreCalls(live, archive, used, visits, id);
    TwiceIffSpared(live, archive, used, visits, id);
    forall k: nat | SparedAt(live, archive, visits, k, id)
      ensures var s := StateAt(live, archive, visits, k);
        Archives(visits[k].call) && !Succeeded(s, visits[k].call) && (s.phase == Done ==> s.report.failed)
    {
      ChainInv(live, archive, used, visits, k);
    }
  }

  /** When no call throws, no row is archived twice. */
  lemma ArchivedOnceWithoutThrows(
      live: map<Id, Row>, archive: seq<Entry>, used: set<Id>, visits: seq<Visit>, id: Id)
    requires Chain(live, archive, used, visits) && live.Keys <= used && Copies(archive, id) == 0
    requires forall k :: 0 <= k < |visits| ==>
      var s := StateAt(live, archive, visits, k); s.phase == Done && !s.report.failed
    ensures Copies(FinalArchive(live, archive, visits), id) <= 1
  {
    ArchivedTwiceIff(live, archive, used, visits, id);
  }

  // ---------------------------------------------------------------- a row archived twice

  const THROWS := Visit(LOSSY_CALL, [Count(0), Select(FOUND, 0), InsertBatch, Throw])
  const REPEATS := Visit(LOSSY_CALL, [Count(0), Select(FOUND, 0), InsertBatch, DeleteBatch({1}, 0)])

  lemma FoundArchived(archive: seq<Entry>) returns (s: State)
    ensures var start := Begin(map[1 := OLD_ROW], archive);
      Legal(start, THROWS.steps[..3], LOSSY_CALL) && s == After(start, THROWS.steps[..3], LOSSY_CALL)
    ensures s == State(map[1 := OLD_ROW], archive + FOUND, Deleting(0), Report(1, 1, 0, false),
                       map[1 := OLD_ROW], archive, map[1 := OLD_ROW], FOUND)
  {
    var c, s0 := LOSSY_CALL, Begin(map[1 := OLD_ROW], archive);
    var s2 := FoundSelected(archive);
    assert THROWS.steps[..2] == LOSSY_RUN[..2];
    RunSnoc(s0, LOSSY_RUN[..2], c, InsertBatch);
    s := Next(s2, InsertBatch, c);
    assert FOUND[..1] == FOUND && FOUND[1..] == [];
    assert THROWS.steps[..3] == LOSSY_RUN[..2] + [InsertBatch];
  }

  /** The first call throws after its archive insert, the second succeeds; the row is in the archive twice. */
  lemma CleanupCanArchiveTwice()
    ensures var live := map[1 := OLD_ROW];
      && Chain(live, [], live.Keys, [THROWS, REPEATS])
      && Copies(FinalArchive(live, [], [THROWS, REPEATS]), 1) == 2
      && Succeeded(StateAt(live, [], [THROWS, REPEATS], 1), LOSSY_CALL)
  {
    var live, c := map[1 := OLD_ROW], LOSSY_CALL;
    var s3 := FoundArchived([]);
    RunSnoc(Begin(live, []), THROWS.steps[..3], c, Throw);
    assert THROWS.steps == THROWS.steps[..3] + [Throw];
    var first := Outcome(live, [], THROWS);
    assert first == Next(s3, Throw, c) && first.archive == FOUND;
    var t3 := FoundArchived(FOUND);
    assert REPEATS.steps[..3] == THROWS.steps[..3];
    assert Matching(t3.live, c, 0) == {1};
    RunSnoc(Begin(live, FOUND), REPEATS.steps[..3], c, DeleteBatch({1}, 0));
    assert REPEATS.steps == REPEATS.steps[..3] + [DeleteBatch({1}, 0)];
    var second := Outcome(live, FOUND, REPEATS);
    assert second == Next(t3, DeleteBatch({1}, 0), c) && second.archive == FOUND + FOUND;
    TwoVisits(live, first, second);
    CopiesConcat(FOUND, FOUND, 1);
    assert FOUND[..0] == [] && Copies(FOUND, 1) == 1;
  }

  lemma TwoVisits(live: map<Id, Row>, first: State, second: State)
    requires Legal(Begin(live, []), THROWS.steps, LOSSY_CALL) && first == Outcome(live, [], THROWS)
    requires first.live == live && first.archive == FOUND
    requires Legal(Begin(live, FOUND), REPEATS.steps, LOSSY_CALL) && second == Outcome(live, FOUND, REPEATS)
    ensures var visits := [THROWS, REPEATS];
      && Chain(live, [], live.Keys, visits)
      && FinalArchive(live, [], visits) == second.archive && StateAt(live, [], visits, 1) == second
  {
    var visits := [THROWS, REPEATS];
    var rest := visits[1..];
    assert rest == [REPEATS] && rest[1..] == [];
    assert Chain(second.live, second.archive, live.Keys + first.ever.Keys + second.ever.Keys, []);
    assert Chain(live, FOUND, live.Keys + first.ever.Keys, rest);
    assert FinalArchive(live, FOUND, rest) == second.archive;
  }
}
