/** The effect of merging disjoint groups one by one, read off the table before the first merge. */
module AssetMergeAll {
  import opened Common
  import opened AssetMerge
  import opened AssetMergeLaws
  import opened AssetMergeTable

  /** No retained field of the primary is both missing and offered by a duplicate. */
  ghost predicate NothingFilled(rows: seq<Asset>, g: DuplicateGroup) {
    var i := IndexOf(rows, g.primaryAssetId);
    i < |rows| && forall f, d :: d in Rows(rows, SetOf(g.duplicateIds)) ==>
      Truthy(Get(rows[i], f)) || !Truthy(Get(d, f))
  }

  function MergeAll(rows: seq<Asset>, groups: seq<DuplicateGroup>): Result<seq<Asset>, MergeError>
    decreases |groups|
  {
    if groups == [] then Success(rows)
    else
      var merged := MergeRows(rows, groups[0].primaryAssetId, groups[0].duplicateIds);
      if merged.Failure? then merged else MergeAll(merged.value, groups[1..])
  }

  /** The rows of the duplicates of a group. */
  function Dups(rows: seq<Asset>, g: DuplicateGroup): seq<Asset> { Rows(rows, SetOf(g.duplicateIds)) }

  /** The row with the fields it gets as a primary, read off the table before any merge. */
  function FillOf(rows: seq<Asset>, groups: seq<DuplicateGroup>, a: Asset): Asset {
    if groups == [] then a
    else if groups[0].primaryAssetId == a.id then Filled(a, Dups(rows, groups[0]))
    else FillOf(rows, groups[1..], a)
  }

  function FinalRow(rows: seq<Asset>, groups: seq<DuplicateGroup>, a: Asset): Asset {
    var filled := FillOf(rows, groups, a);
    if a.id in DupIds(groups) then filled.(isActive := false) else filled
  }

  function FinalRows(rows: seq<Asset>, groups: seq<DuplicateGroup>): (r: seq<Asset>)
    ensures |r| == |rows| && forall k :: 0 <= k < |rows| ==> r[k] == FinalRow(rows, groups, rows[k])
  {
    seq(|rows|, k requires 0 <= k < |rows| => FinalRow(rows, groups, rows[k]))
  }

  lemma {:induction false} RowsFind(rows: seq<Asset>, ids: set<AssetId>)
    ensures forall a :: a in Rows(rows, ids) <==> a in rows && a.id in ids
    ensures DistinctIds(rows) ==> DistinctIds(Rows(rows, ids))
  {
    if rows != [] {
      RowsFind(rows[1..], ids);
      assert rows == [rows[0]] + rows[1..];
      assert forall k :: 1 <= k < |rows| ==> rows[k] == rows[1..][k - 1];
      if DistinctIds(rows) {
        assert forall a <- rows[1..] :: a.id != rows[0].id;
      }
    }
  }

  lemma RowsCount(rows: seq<Asset>, ids: seq<AssetId>)
    requires DistinctIds(rows) && Distinct(ids) && forall n :: 0 <= n < |ids| ==> HasRow(rows, ids[n])
    ensures |Rows(rows, SetOf(ids))| == |ids|
  {
    var found := Rows(rows, SetOf(ids));
    RowsFind(rows, SetOf(ids));
    SetSizeBound(Ids(found));
    SetSizeBound(ids);
    forall id | id in ids
      ensures id in Ids(found)
    {
      var n :| 0 <= n < |ids| && ids[n] == id;
      assert HasRow(rows, id);
      var a :| a in rows && a.id == id;
      assert a in found;
      var k :| 0 <= k < |found| && found[k] == a;
      assert Ids(found)[k] == id;
    }
    forall id | id in Ids(found)
      ensures id in ids
    {
      var k :| 0 <= k < |found| && Ids(found)[k] == id;
      assert found[k] in found;
    }
    assert (set id | id in Ids(found)) == (set id | id in ids);
  }

  /** A table finds as many rows as ids were given just when it has a row for each, and none is given twice. */
  lemma RowsCountIff(rows: seq<Asset>, ids: seq<AssetId>)
    requires DistinctIds(rows)
    ensures |Rows(rows, SetOf(ids))| == |ids| <==> Distinct(ids) && forall id <- ids :: HasRow(rows, id)
  {
    var found := Rows(rows, SetOf(ids));
    var foundIds, all := set id | id in Ids(found), set id | id in ids;
    RowsFind(rows, SetOf(ids));
    SetSizeBound(Ids(found));
    SetSizeBound(ids);
    if Distinct(ids) && forall id <- ids :: HasRow(rows, id) {
      RowsCount(rows, ids);
    } else if |found| == |ids| {
      forall id | id in foundIds
        ensures id in all && HasRow(rows, id)
      {
        var k :| 0 <= k < |found| && Ids(found)[k] == id;
        assert found[k] in found;
      }
      assert foundIds <= all;
      SameSize(foundIds, all);
    }
  }

  lemma SameSize(a: set<AssetId>, b: set<AssetId>)
    requires a <= b && |a| >= |b|
    ensures a == b
  {
    assert b == a + (b - a) && |b| == |a| + |b - a|;
  }

  /** Which rows a merge refuses for: no primary, or a duplicate that is not there or given twice. */
  lemma MergeRefusesIff(rows: seq<Asset>, primaryId: AssetId, ids: seq<AssetId>)
    requires DistinctIds(rows)
    ensures MergeRows(rows, primaryId, ids) == Failure(PrimaryNotFound) <==> !HasRow(rows, primaryId)
    ensures MergeRows(rows, primaryId, ids) == Failure(DuplicateNotFound) <==>
      HasRow(rows, primaryId) && !(Distinct(ids) && forall id <- ids :: HasRow(rows, id))
  {
    RowsCountIff(rows, ids);
    var i := IndexOf(rows, primaryId);
    if i < |rows| { assert rows[i] in rows; }
  }

  ghost predicate HasRow(rows: seq<Asset>, id: AssetId) { exists a <- rows :: a.id == id }

  /** The rows a group names are there, and its duplicates are listed once. */
  ghost predicate Mergeable(rows: seq<Asset>, g: DuplicateGroup) {
    && HasRow(rows, g.primaryAssetId) && Distinct(g.duplicateIds)
    && forall n :: 0 <= n < |g.duplicateIds| ==> HasRow(rows, g.duplicateIds[n])
  }

  ghost predicate Offered(dups: seq<Asset>, f: Field) { exists d <- dups :: Truthy(Get(d, f)) }

  /** The primary has no symbol, and a duplicate offers one. */
  ghost predicate FillsSymbol(rows: seq<Asset>, g: DuplicateGroup) {
    exists a <- rows :: a.id == g.primaryAssetId && !Truthy(a.symbol) && Offered(Dups(rows, g), Symbol)
  }

  /** A missing value that is offered is resolved to that of some duplicate; any other stays. */
  lemma {:induction false} ResolvedFrom(own: Option<string>, dups: seq<Asset>, f: Field)
    ensures if Truthy(own) || !Offered(dups, f) then Resolve(own, dups, f) == own
      else Truthy(Resolve(own, dups, f)) && exists d <- dups :: Get(d, f) == Resolve(own, dups, f)
  {
    if dups != [] {
      var init, last := dups[..|dups| - 1], dups[|dups| - 1];
      assert dups == init + [last] && last in dups;
      ResolvedFrom(own, init, f);
    }
  }

  /** A symbol that a merge fills is still held by the row of the duplicate it comes from. */
  lemma FilledSymbolIsTaken(rows: seq<Asset>, i: nat, dups: seq<Asset>)
    requires i < |rows| && forall d <- dups :: d in rows
    ensures var symbol := Resolve(rows[i].symbol, dups, Symbol);
      symbol != rows[i].symbol && Taken(rows, i, symbol) <==> !Truthy(rows[i].symbol) && Offered(dups, Symbol)
  {
    var own := rows[i].symbol;
    ResolvedFrom(own, dups, Symbol);
    if !Truthy(own) && Offered(dups, Symbol) {
      var d :| d in dups && Get(d, Symbol) == Resolve(own, dups, Symbol);
      var k :| 0 <= k < |rows| && rows[k] == d;
      assert rows[k].symbol == Resolve(own, dups, Symbol) != own;
    }
  }

  lemma FillsSymbolAt(rows: seq<Asset>, g: DuplicateGroup, i: nat)
    requires DistinctIds(rows) && i < |rows| && rows[i].id == g.primaryAssetId
    ensures FillsSymbol(rows, g) <==> !Truthy(rows[i].symbol) && Offered(Dups(rows, g), Symbol)
  {
    assert rows[i] in rows;
  }

  /** One merge, row by row: it throws exactly when it would fill the symbol. */
  lemma MergeOne(rows: seq<Asset>, g: DuplicateGroup)
    requires DistinctIds(rows) && Mergeable(rows, g) && g.primaryAssetId !in g.duplicateIds
    ensures MergeRows(rows, g.primaryAssetId, g.duplicateIds) ==
      if FillsSymbol(rows, g) then Failure(SymbolTaken) else Success(FinalRows(rows, [g]))
  {
    var i, dups, ids := IndexOf(rows, g.primaryAssetId), Dups(rows, g), SetOf(g.duplicateIds);
    RowsCount(rows, g.duplicateIds);
    RowsFind(rows, ids);
    FilledSymbolIsTaken(rows, i, dups);
    FillsSymbolAt(rows, g, i);
    var next := Deactivate(rows[i := Filled(rows[i], dups)], ids);
    assert DupIds([g]) == ids;
    forall k | 0 <= k < |rows|
      ensures next[k] == FinalRow(rows, [g], rows[k])
    {
      assert FillOf(rows, [g][1..], rows[k]) == rows[k];
      if k != i { assert rows[k].id != g.primaryAssetId; }
    }
    assert next == FinalRows(rows, [g]);
  }

  /** Rows depend only on the rows they select. */
  lemma {:induction false} RowsSame(rows: seq<Asset>, next: seq<Asset>, ids: set<AssetId>)
    requires |rows| == |next| && forall k :: 0 <= k < |rows| ==> rows[k].id == next[k].id
    requires forall k :: 0 <= k < |rows| && rows[k].id in ids ==> rows[k] == next[k]
    ensures Rows(rows, ids) == Rows(next, ids)
  {
    if rows != [] { RowsSame(rows[1..], next[1..], ids); }
  }

  ghost predicate AllMergeable(rows: seq<Asset>, groups: seq<DuplicateGroup>) {
    Disjoint(groups)
    && forall n :: 0 <= n < |groups| ==>
       Mergeable(rows, groups[n]) && groups[n].primaryAssetId !in groups[n].duplicateIds
  }

  lemma {:induction false} FilledKeepsId(rows: seq<Asset>, groups: seq<DuplicateGroup>, a: Asset)
    ensures var b := FillOf(rows, groups, a); b.id == a.id && b.isActive == a.isActive
    ensures FinalRow(rows, groups, a).id == a.id
  {
    if groups != [] { FilledKeepsId(rows, groups[1..], a); }
  }

  lemma SameIds(rows: seq<Asset>, groups: seq<DuplicateGroup>)
    ensures forall k :: 0 <= k < |rows| ==> FinalRows(rows, groups)[k].id == rows[k].id
    ensures DistinctIds(rows) ==> DistinctIds(FinalRows(rows, groups))
  {
    forall k | 0 <= k < |rows|
      ensures FinalRows(rows, groups)[k].id == rows[k].id
    {
      FilledKeepsId(rows, groups, rows[k]);
    }
  }

  /** A row no group leads is not filled. */
  lemma {:induction false} NotLed(rows: seq<Asset>, groups: seq<DuplicateGroup>, a: Asset)
    requires forall n :: 0 <= n < |groups| ==> groups[n].primaryAssetId != a.id
    ensures FillOf(rows, groups, a) == a
  {
    if groups != [] {
      assert forall n :: 0 <= n < |groups| - 1 ==> groups[1..][n] == groups[n + 1];
      NotLed(rows, groups[1..], a);
    }
  }

  /** Tables that agree on the duplicates fill alike. */
  lemma {:induction false} FillSame(rows: seq<Asset>, next: seq<Asset>, groups: seq<DuplicateGroup>, a: Asset)
    requires forall n :: 0 <= n < |groups| ==> Dups(rows, groups[n]) == Dups(next, groups[n])
    ensures FillOf(rows, groups, a) == FillOf(next, groups, a)
  {
    if groups != [] {
      assert forall n :: 0 <= n < |groups| - 1 ==> groups[1..][n] == groups[n + 1];
      FillSame(rows, next, groups[1..], a);
    }
  }

  /** The first merge leaves the rows of later groups as they were. */
  lemma LaterUntouched(rows: seq<Asset>, groups: seq<DuplicateGroup>, n: nat)
    requires 0 < n < |groups| && Disjoint(groups)
    ensures Dups(FinalRows(rows, [groups[0]]), groups[n]) == Dups(rows, groups[n])
  {
    var g, next := groups[0], FinalRows(rows, [groups[0]]);
    SameIds(rows, [g]);
    assert DupIds([g]) == SetOf(g.duplicateIds);
    forall k | 0 <= k < |rows| && rows[k].id in SetOf(groups[n].duplicateIds)
      ensures rows[k] == next[k]
    {
      assert rows[k].id in Members(groups[n]);
      assert rows[k].id !in Members(g);
      NotLed(rows, [g], rows[k]);
    }
    RowsSame(rows, next, SetOf(groups[n].duplicateIds));
  }

  lemma StepRow(rows: seq<Asset>, groups: seq<DuplicateGroup>, a: Asset)
    requires groups != [] && Disjoint(groups) && groups[0].primaryAssetId !in groups[0].duplicateIds
    requires forall n :: 0 < n < |groups| ==> Dups(FinalRows(rows, [groups[0]]), groups[n]) == Dups(rows, groups[n])
    ensures FinalRow(FinalRows(rows, [groups[0]]), groups[1..], FinalRow(rows, [groups[0]], a))
      == FinalRow(rows, groups, a)
  {
    var g, rest, next := groups[0], groups[1..], FinalRows(rows, [groups[0]]);
    var b := FinalRow(rows, [g], a);
    FilledKeepsId(rows, [g], a);
    assert DupIds([g]) == SetOf(g.duplicateIds);
    assert FillOf(rows, [g], a) == if g.primaryAssetId == a.id then Filled(a, Dups(rows, g)) else a;
    if a.id in Members(g) {
      NotLed(next, rest, b);
      NotLed(rows, rest, a);
      NotInDups(rest, a.id);
    } else {
      FillSame(rows, next, rest, a);
    }
  }

  lemma {:induction false} NotInDups(groups: seq<DuplicateGroup>, id: AssetId)
    requires forall n :: 0 <= n < |groups| ==> id !in groups[n].duplicateIds
    ensures id !in DupIds(groups)
  {
    if groups != [] {
      assert forall n :: 0 <= n < |groups| - 1 ==> groups[1..][n] == groups[n + 1];
      NotInDups(groups[1..], id);
    }
  }

  lemma RestMergeable(rows: seq<Asset>, groups: seq<DuplicateGroup>)
    requires groups != [] && AllMergeable(rows, groups)
    ensures AllMergeable(FinalRows(rows, [groups[0]]), groups[1..])
  {
    var next := FinalRows(rows, [groups[0]]);
    SameIds(rows, [groups[0]]);
    forall id | HasRow(rows, id)
      ensures HasRow(next, id)
    {
      var k :| 0 <= k < |rows| && rows[k].id == id;
      assert next[k] in next;
    }
    forall n | 0 <= n < |groups| - 1
      ensures Mergeable(next, groups[1..][n])
    {
      assert Mergeable(rows, groups[n + 1]);
    }
    forall m, n | 0 <= m < n < |groups| - 1
      ensures Members(groups[1..][m]) !! Members(groups[1..][n])
    {
      assert Members(groups[m + 1]) !! Members(groups[n + 1]);
    }
  }

  /** The first merge leaves the primary of a later group as it was, so the later group fills what it would have. */
  lemma FillsSymbolSame(rows: seq<Asset>, groups: seq<DuplicateGroup>, n: nat)
    requires 0 < n < |groups| && AllMergeable(rows, groups)
    ensures FillsSymbol(FinalRows(rows, [groups[0]]), groups[n]) <==> FillsSymbol(rows, groups[n])
  {
    var g, next := groups[0], FinalRows(rows, [groups[0]]);
    LaterUntouched(rows, groups, n);
    SameIds(rows, [g]);
    assert DupIds([g]) == SetOf(g.duplicateIds);
    forall k | 0 <= k < |rows| && rows[k].id == groups[n].primaryAssetId
      ensures next[k] == rows[k]
    {
      assert rows[k].id in Members(groups[n]) && rows[k].id !in Members(g);
      NotLed(rows, [g], rows[k]);
    }
    assert forall k :: 0 <= k < |rows| ==> rows[k] in rows && next[k] in next;
  }

  ghost predicate SomeFillsSymbol(rows: seq<Asset>, groups: seq<DuplicateGroup>) {
    exists n :: 0 <= n < |groups| && FillsSymbol(rows, groups[n])
  }

  lemma SomeFillsTail(rows: seq<Asset>, groups: seq<DuplicateGroup>)
    requires groups != [] && AllMergeable(rows, groups)
    ensures SomeFillsSymbol(rows, groups) <==>
      FillsSymbol(rows, groups[0]) || SomeFillsSymbol(FinalRows(rows, [groups[0]]), groups[1..])
  {
    var rest, next := groups[1..], FinalRows(rows, [groups[0]]);
    forall n | 0 <= n < |rest|
      ensures rest[n] == groups[n + 1] && (FillsSymbol(next, rest[n]) <==> FillsSymbol(rows, groups[n + 1]))
    {
      FillsSymbolSame(rows, groups, n + 1);
    }
    if n :| 0 <= n < |groups| && FillsSymbol(rows, groups[n]) {
      if n > 0 { assert FillsSymbol(next, rest[n - 1]); }
    }
  }

  /**
   * Merging disjoint groups one by one throws exactly when some group fills the symbol of its
   * primary, and else has the effect read off the table before the first merge.
   */
  lemma {:induction false} MergeAllRows(rows: seq<Asset>, groups: seq<DuplicateGroup>)
    requires DistinctIds(rows) && AllMergeable(rows, groups)
    ensures MergeAll(rows, groups) ==
      if SomeFillsSymbol(rows, groups) then Failure(SymbolTaken) else Success(FinalRows(rows, groups))
    decreases |groups|
  {
    if groups == [] {
      assert FinalRows(rows, []) == rows;
    } else {
      var next := FinalRows(rows, [groups[0]]);
      assert Mergeable(rows, groups[0]);
      MergeOne(rows, groups[0]);
      SomeFillsTail(rows, groups);
      SameIds(rows, [groups[0]]);
      RestMergeable(rows, groups);
      MergeAllRows(next, groups[1..]);
      forall n | 0 < n < |groups|
        ensures Dups(next, groups[n]) == Dups(rows, groups[n])
      {
        LaterUntouched(rows, groups, n);
      }
      forall k | 0 <= k < |rows|
        ensures FinalRows(next, groups[1..])[k] == FinalRows(rows, groups)[k]
      {
        StepRow(rows, groups, rows[k]);
      }
      assert FinalRows(next, groups[1..]) == FinalRows(rows, groups);
    }
  }

  lemma {:induction false} NothingResolved(own: Option<string>, dups: seq<Asset>, f: Field)
    requires Truthy(own) || forall k :: 0 <= k < |dups| ==> !Truthy(Get(dups[k], f))
    ensures Resolve(own, dups, f) == own
  {
    if !Truthy(own) && dups != [] { NothingResolved(own, dups[..|dups| - 1], f); }
  }

  lemma NothingFilledIn(rows: seq<Asset>, g: DuplicateGroup)
    requires NothingFilled(rows, g)
    ensures var i := IndexOf(rows, g.primaryAssetId); Filled(rows[i], Rows(rows, SetOf(g.duplicateIds))) == rows[i]
  {
    var primary, dups := rows[IndexOf(rows, g.primaryAssetId)], Rows(rows, SetOf(g.duplicateIds));
    forall f
      ensures Resolve(Get(primary, f), dups, f) == Get(primary, f)
    {
      assert forall k :: 0 <= k < |dups| ==> dups[k] in dups;
      NothingResolved(Get(primary, f), dups, f);
    }
    assert Get(primary, Symbol) == primary.symbol && Get(primary, Name) == primary.name;
    assert Get(primary, Issuer) == primary.issuer;
  }

  lemma MergeOnlyDeactivates(rows: seq<Asset>, g: DuplicateGroup)
    requires DistinctIds(rows) && Mergeable(rows, g) && NothingFilled(rows, g)
    ensures MergeRows(rows, g.primaryAssetId, g.duplicateIds) == Success(Deactivate(rows, SetOf(g.duplicateIds)))
  {
    var i := IndexOf(rows, g.primaryAssetId);
    RowsCount(rows, g.duplicateIds);
    NothingFilledIn(rows, g);
    assert rows[i := rows[i]] == rows;
  }

  lemma SameFields(a: Asset, f: Field)
    ensures Get(a.(isActive := false), f) == Get(a, f)
  {
  }

  lemma StillNothingFilled(rows: seq<Asset>, ids: set<AssetId>, g: DuplicateGroup)
    requires NothingFilled(rows, g)
    ensures NothingFilled(Deactivate(rows, ids), g)
  {
    var after, dups := Deactivate(rows, ids), SetOf(g.duplicateIds);
    var i := IndexOf(rows, g.primaryAssetId);
    IndexKept(rows, ids, g.primaryAssetId);
    forall f, d | d in Rows(after, dups)
      ensures Truthy(Get(after[i], f)) || !Truthy(Get(d, f))
    {
      var was := WasDuplicate(rows, ids, dups, d);
      SameFields(was, f);
      SameFields(rows[i], f);
    }
  }

  lemma {:induction false} IndexKept(rows: seq<Asset>, ids: set<AssetId>, id: AssetId)
    ensures IndexOf(Deactivate(rows, ids), id) == IndexOf(rows, id)
  {
    var i, after := IndexOf(rows, id), Deactivate(rows, ids);
    assert forall k :: 0 <= k < |rows| ==> after[k].id == rows[k].id;
  }

  lemma WasDuplicate(rows: seq<Asset>, ids: set<AssetId>, dups: set<AssetId>, d: Asset) returns (was: Asset)
    requires d in Rows(Deactivate(rows, ids), dups)
    ensures was in Rows(rows, dups) && (d == was || d == was.(isActive := false))
  {
    var after := Deactivate(rows, ids);
    RowsFind(after, dups);
    RowsFind(rows, dups);
    var k :| 0 <= k < |after| && after[k] == d;
    was := rows[k];
  }

  /** Deactivating rows changes neither who is mergeable nor what would be filled. */
  lemma DeactivatedStill(rows: seq<Asset>, ids: set<AssetId>, g: DuplicateGroup)
    requires Mergeable(rows, g) && NothingFilled(rows, g)
    ensures Mergeable(Deactivate(rows, ids), g) && NothingFilled(Deactivate(rows, ids), g)
  {
    StillNothingFilled(rows, ids, g);
  }

  lemma {:induction false} MergeAllDeactivates(rows: seq<Asset>, groups: seq<DuplicateGroup>)
    requires DistinctIds(rows)
    requires forall n :: 0 <= n < |groups| ==> Mergeable(rows, groups[n]) && NothingFilled(rows, groups[n])
    ensures MergeAll(rows, groups) == Success(Deactivate(rows, DupIds(groups)))
    decreases |groups|
  {
    if groups == [] {
      assert Deactivate(rows, {}) == rows;
    } else {
      var ids := SetOf(groups[0].duplicateIds);
      var next := Deactivate(rows, ids);
      MergeOnlyDeactivates(rows, groups[0]);
      forall n | 0 <= n < |groups| - 1
        ensures Mergeable(next, groups[1..][n]) && NothingFilled(next, groups[1..][n])
      {
        DeactivatedStill(rows, ids, groups[n + 1]);
      }
      MergeAllDeactivates(next, groups[1..]);
      assert Deactivate(next, DupIds(groups[1..])) == Deactivate(rows, DupIds(groups));
    }
  }
}
