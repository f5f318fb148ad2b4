/** Exactly when merging every group that was found leaves nothing to merge. */
module AssetMergeSettles {
  import opened Common
  import opened AssetMerge
  import opened AssetMergeLaws
  import opened AssetMergeTable
  import opened AssetMergeAll

  lemma {:induction false} ActiveFind(rows: seq<Asset>)
    ensures forall a :: a in Active(rows) <==> a in rows && a.isActive
    ensures DistinctIds(rows) ==> DistinctIds(Active(rows))
  {
    if rows != [] {
      ActiveFind(rows[1..]);
      assert rows == [rows[0]] + rows[1..];
      assert forall k :: 1 <= k < |rows| ==> rows[k] == rows[1..][k - 1];
      if DistinctIds(rows) {
        assert forall a <- rows[1..] :: a.id != rows[0].id;
      }
    }
  }

  /** The rows of a query without an order, each once. */
  ghost predicate Returns(found: seq<Asset>, rows: seq<Asset>) {
    DistinctIds(found) && forall a :: a in found <==> a in rows
  }

  lemma GroupsMergeable(rows: seq<Asset>, score: Score, active: seq<Asset>, groups: seq<DuplicateGroup>)
    requires DistinctIds(rows) && Returns(active, Active(rows)) && groups == Groups(active, score)
    ensures AllMergeable(rows, groups)
    ensures forall n :: 0 <= n < |groups| ==> exists a <- active :: a.id == groups[n].primaryAssetId
  {
    ActiveFind(rows);
    GroupsSound(active, score, 0, {});
    forall n | 0 <= n < |groups|
      ensures Mergeable(rows, groups[n]) && exists a <- active :: a.id == groups[n].primaryAssetId
    {
      var g := groups[n];
      assert GroupSound(active, score, 0, {}, g);
      var a :| 0 <= a < |active| && active[a].id == g.primaryAssetId
               && forall m :: 0 <= m < |g.duplicateIds| ==> MatchOf(active, score, a, g.duplicateIds[m]);
      assert active[a] in active && active[a] in rows;
      forall m | 0 <= m < |g.duplicateIds|
        ensures HasRow(rows, g.duplicateIds[m])
      {
        assert MatchOf(active, score, a, g.duplicateIds[m]);
        var b :| a < b < |active| && active[b].id == g.duplicateIds[m];
        assert active[b] in active && active[b] in rows;
      }
    }
    forall n | 0 <= n < |groups|
      ensures groups[n].primaryAssetId !in groups[n].duplicateIds
    {
      assert GroupSound(active, score, 0, {}, groups[n]);
    }
  }

  lemma SurvivorsBelow(assets: seq<Asset>, score: Score, x: Asset, y: Asset)
    requires DistinctIds(assets) && x in assets && y in assets && x.id != y.id
    requires x.id !in DupIds(Groups(assets, score)) && y.id !in DupIds(Groups(assets, score))
    requires forall a, b :: score(a, b) == score(b, a)
    ensures score(x, y) < SCORE_THRESHOLD
  {
    var a :| 0 <= a < |assets| && assets[a] == x;
    var b :| 0 <= b < |assets| && assets[b] == y;
    if a < b { UngroupedBelow(assets, score, 0, {}, a, b); } else { UngroupedBelow(assets, score, 0, {}, b, a); }
  }

  lemma {:induction false} SurvivorsSettle(assets: seq<Asset>, score: Score, again: seq<Asset>)
    requires DistinctIds(assets) && DistinctIds(again) && forall a, b :: score(a, b) == score(b, a)
    requires forall k :: 0 <= k < |again| ==> again[k] in assets && again[k].id !in DupIds(Groups(assets, score))
    ensures Groups(again, score) == []
  {
    forall a, b | 0 <= a < b < |again|
      ensures score(again[a], again[b]) < SCORE_THRESHOLD
    {
      SurvivorsBelow(assets, score, again[a], again[b]);
    }
    NoGroupsIff(again, score);
  }

  lemma StillActive(rows: seq<Asset>, ids: set<AssetId>, a: Asset)
    requires a in Active(Deactivate(rows, ids))
    ensures a in Active(rows) && a.id !in ids
  {
    var after := Deactivate(rows, ids);
    ActiveFind(rows);
    ActiveFind(after);
    var k :| 0 <= k < |after| && after[k] == a;
    assert rows[k] in rows;
  }

  /**
   * Merging every group of the active assets, when no merge fills a retained field,
   * succeeds and leaves nothing to merge, in whatever order the survivors come back.
   */
  lemma {:induction false} MergeAllSettles(rows: seq<Asset>, score: Score, groups: seq<DuplicateGroup>,
                                           again: seq<Asset>)
    requires DistinctIds(rows) && forall a, b :: score(a, b) == score(b, a)
    requires groups == Groups(Active(rows), score)
    requires forall n :: 0 <= n < |groups| ==> NothingFilled(rows, groups[n])
    requires DistinctIds(again)
    requires MergeAll(rows, groups).Success? ==>
      forall k :: 0 <= k < |again| ==> again[k] in Active(MergeAll(rows, groups).value)
    ensures MergeAll(rows, groups).Success?
    ensures Groups(again, score) == []
  {
    var active := Active(rows);
    ActiveFind(rows);
    GroupsMergeable(rows, score, active, groups);
    MergeAllDeactivates(rows, groups);
    forall k | 0 <= k < |again|
      ensures again[k] in active && again[k].id !in DupIds(groups)
    {
      StillActive(rows, DupIds(groups), again[k]);
    }
    SurvivorsSettle(active, score, again);
  }

  // ---------------------------------------------------------------- exactly when nothing is left to merge

  /** The last truthy value the duplicates offer for a field. */
  function LastOffer(dups: seq<Asset>, f: Field): Option<string> {
    if dups == [] then None
    else if Truthy(Get(dups[|dups| - 1], f)) then Get(dups[|dups| - 1], f)
    else LastOffer(dups[..|dups| - 1], f)
  }

  /** The value that merging `g` writes into a field of its primary `a`, if any. */
  function Fills(rows: seq<Asset>, g: DuplicateGroup, a: Asset, f: Field): Option<string> {
    if Truthy(Get(a, f)) then None else LastOffer(Dups(rows, g), f)
  }

  predicate Survives(groups: seq<DuplicateGroup>, a: Asset) { a.isActive && a.id !in DupIds(groups) }

  /** The primary `x` of a group is filled with the value that another survivor `y` ends up with in that field. */
  ghost predicate Collision(rows: seq<Asset>, groups: seq<DuplicateGroup>, g: DuplicateGroup, x: Asset, y: Asset,
                            f: Field) {
    && g in groups && x in rows && x.id == g.primaryAssetId
    && y in rows && y.id != x.id && Survives(groups, y)
    && Fills(rows, g, x, f).Some? && Get(FillOf(rows, groups, y), f) == Fills(rows, g, x, f)
  }

  ghost predicate Collides(rows: seq<Asset>, groups: seq<DuplicateGroup>) {
    exists g, x, y, f :: Collision(rows, groups, g, x, y, f)
  }

  lemma {:induction false} ResolveIs(own: Option<string>, dups: seq<Asset>, f: Field)
    ensures Resolve(own, dups, f) == if Truthy(own) || LastOffer(dups, f).None? then own else LastOffer(dups, f)
    ensures LastOffer(dups, f).Some? ==> Truthy(LastOffer(dups, f))
  {
    if dups != [] { ResolveIs(own, dups[..|dups| - 1], f); }
  }

  /** A filled field comes from the one group the asset leads. */
  lemma {:induction false} FillFrom(rows: seq<Asset>, groups: seq<DuplicateGroup>, a: Asset, f: Field) returns (n: nat)
    requires Get(FillOf(rows, groups, a), f) != Get(a, f)
    ensures n < |groups| && groups[n].primaryAssetId == a.id
    ensures Fills(rows, groups[n], a, f).Some? && Get(FillOf(rows, groups, a), f) == Fills(rows, groups[n], a, f)
  {
    if groups[0].primaryAssetId == a.id {
      n := 0;
      FilledGet(a, Dups(rows, groups[0]), f);
      ResolveIs(Get(a, f), Dups(rows, groups[0]), f);
    } else {
      n := FillFrom(rows, groups[1..], a, f);
      n := n + 1;
    }
  }

  lemma {:induction false} FillOfLeader(rows: seq<Asset>, groups: seq<DuplicateGroup>, a: Asset, n: nat)
    requires Disjoint(groups) && n < |groups| && groups[n].primaryAssetId == a.id
    ensures FillOf(rows, groups, a) == Filled(a, Dups(rows, groups[n]))
  {
    if n > 0 {
      assert a.id in Members(groups[n]) && a.id !in Members(groups[0]);
      forall k, m | 0 <= k < m < |groups| - 1
        ensures Members(groups[1..][k]) !! Members(groups[1..][m])
      {
        assert Members(groups[k + 1]) !! Members(groups[m + 1]);
      }
      FillOfLeader(rows, groups[1..], a, n - 1);
    }
  }

  lemma {:induction false} LeaderSurvives(groups: seq<DuplicateGroup>, n: nat)
    requires Disjoint(groups) && n < |groups| && groups[n].primaryAssetId !in groups[n].duplicateIds
    ensures groups[n].primaryAssetId !in DupIds(groups)
  {
    var id := groups[n].primaryAssetId;
    forall m | 0 <= m < |groups|
      ensures id !in groups[m].duplicateIds
    {
      if m < n {
        assert Members(groups[m]) !! Members(groups[n]);
      } else if m > n {
        assert Members(groups[n]) !! Members(groups[m]);
      }
    }
    NotInDups(groups, id);
  }

  /** Two survivors that do not match agree after filling only through a filled field. */
  lemma NewMatch(rows: seq<Asset>, groups: seq<DuplicateGroup>, x: Asset, y: Asset)
    requires x in rows && y in rows && x.id != y.id && Survives(groups, x) && Survives(groups, y)
    requires !AgreeSomewhere(x, y) && AgreeSomewhere(FillOf(rows, groups, x), FillOf(rows, groups, y))
    ensures Collides(rows, groups)
  {
    var x', y' := FillOf(rows, groups, x), FillOf(rows, groups, y);
    FillOther(rows, groups, x);
    FillOther(rows, groups, y);
    var f := if x'.symbol == y'.symbol then Symbol else if x'.name == y'.name then Name else Issuer;
    assert Get(x', f) == Get(y', f) && (Get(x', f) != Get(x, f) || Get(y', f) != Get(y, f));
    if Get(x', f) != Get(x, f) {
      var n := FillFrom(rows, groups, x, f);
      assert Collision(rows, groups, groups[n], x, y, f);
    } else {
      var n := FillFrom(rows, groups, y, f);
      assert Collision(rows, groups, groups[n], y, x, f);
    }
  }

  /** Filling touches the retained fields only. */
  lemma {:induction false} FillOther(rows: seq<Asset>, groups: seq<DuplicateGroup>, a: Asset)
    ensures var b := FillOf(rows, groups, a); b.sourceChain == a.sourceChain && b.bridgeProvider == a.bridgeProvider
  {
    if groups != [] { FillOther(rows, groups[1..], a); }
  }

  lemma CollisionMatches(rows: seq<Asset>, groups: seq<DuplicateGroup>, g: DuplicateGroup, x: Asset, y: Asset, f: Field)
    requires AllMergeable(rows, groups) && Collision(rows, groups, g, x, y, f)
    ensures x.id !in DupIds(groups)
    ensures AgreeSomewhere(FillOf(rows, groups, x), FillOf(rows, groups, y))
  {
    var n :| 0 <= n < |groups| && groups[n] == g;
    LeaderSurvives(groups, n);
    FillOfLeader(rows, groups, x, n);
    FilledGet(x, Dups(rows, g), f);
    ResolveIs(Get(x, f), Dups(rows, g), f);
  }

  lemma SurvivorRow(rows: seq<Asset>, groups: seq<DuplicateGroup>, b: Asset) returns (a: Asset)
    requires b in Active(FinalRows(rows, groups))
    ensures a in rows && Survives(groups, a) && b == FillOf(rows, groups, a) && a.id == b.id
  {
    ActiveFind(FinalRows(rows, groups));
    var k :| 0 <= k < |rows| && FinalRows(rows, groups)[k] == b;
    a := rows[k];
    FilledKeepsId(rows, groups, a);
  }

  lemma SurvivorStays(rows: seq<Asset>, groups: seq<DuplicateGroup>, a: Asset)
    requires a in rows && Survives(groups, a)
    ensures FillOf(rows, groups, a) in Active(FinalRows(rows, groups)) && FillOf(rows, groups, a).id == a.id
  {
    ActiveFind(FinalRows(rows, groups));
    FilledKeepsId(rows, groups, a);
    var k :| 0 <= k < |rows| && rows[k] == a;
    assert FinalRows(rows, groups)[k] in FinalRows(rows, groups);
  }

  lemma Symmetric()
    ensures forall a, b :: ComputeMatchScore(a, b) == ComputeMatchScore(b, a)
  {
    forall a, b ensures ComputeMatchScore(a, b) == ComputeMatchScore(b, a) { ScoreIsAllOrNothing(a, b); }
  }

  lemma CollidingRegroups(rows: seq<Asset>, groups: seq<DuplicateGroup>, active: seq<Asset>, again: seq<Asset>)
    requires DistinctIds(rows) && Returns(active, Active(rows)) && groups == Groups(active, ComputeMatchScore)
    requires AllMergeable(rows, groups) && Returns(again, Active(FinalRows(rows, groups))) && Collides(rows, groups)
    requires forall n :: 0 <= n < |groups| ==> exists a <- active :: a.id == groups[n].primaryAssetId
    ensures Groups(again, ComputeMatchScore) != []
  {
    var g, x, y, f :| Collision(rows, groups, g, x, y, f);
    CollisionMatches(rows, groups, g, x, y, f);
    ActiveFind(rows);
    var a :| a in active && a.id == x.id;
    SurvivorStays(rows, groups, x);
    SurvivorStays(rows, groups, y);
    PairGrouped(again, FillOf(rows, groups, x), FillOf(rows, groups, y));
  }

  lemma PairGrouped(again: seq<Asset>, x: Asset, y: Asset)
    requires DistinctIds(again) && x in again && y in again && x.id != y.id && AgreeSomewhere(x, y)
    ensures Groups(again, ComputeMatchScore) != []
  {
    var a :| 0 <= a < |again| && again[a] == x;
    var b :| 0 <= b < |again| && again[b] == y;
    NoGroupsIff(again, ComputeMatchScore);
    ScoreIsAllOrNothing(x, y);
    if a < b {
      assert ComputeMatchScore(again[a], again[b]) >= SCORE_THRESHOLD;
    } else {
      assert ComputeMatchScore(again[b], again[a]) >= SCORE_THRESHOLD;
    }
  }

  lemma RegroupingCollides(rows: seq<Asset>, groups: seq<DuplicateGroup>, active: seq<Asset>, again: seq<Asset>)
    requires DistinctIds(rows) && Returns(active, Active(rows)) && groups == Groups(active, ComputeMatchScore)
    requires Returns(again, Active(FinalRows(rows, groups))) && Groups(again, ComputeMatchScore) != []
    ensures Collides(rows, groups)
  {
    NoGroupsIff(again, ComputeMatchScore);
    var a, b :| 0 <= a < b < |again| && ComputeMatchScore(again[a], again[b]) >= SCORE_THRESHOLD;
    assert again[a] in again && again[b] in again;
    var x := SurvivorRow(rows, groups, again[a]);
    var y := SurvivorRow(rows, groups, again[b]);
    ActiveFind(rows);
    Symmetric();
    SurvivorsBelow(active, ComputeMatchScore, x, y);
    ScoreIsAllOrNothing(x, y);
    ScoreIsAllOrNothing(again[a], again[b]);
    NewMatch(rows, groups, x, y);
  }

  /**
   * Merging every found group throws exactly when some merge would fill the symbol of its
   * primary, which a duplicate still holds. Otherwise it leaves nothing to merge exactly when
   * no merge fills a field of its primary with the value another survivor ends up with there.
   * The queries may return their rows in any order.
   */
  lemma {:induction false} MergeAllSettlesIff(
      rows: seq<Asset>, groups: seq<DuplicateGroup>, active: seq<Asset>, again: seq<Asset>)
    requires DistinctIds(rows) && Returns(active, Active(rows)) && groups == Groups(active, ComputeMatchScore)
    ensures MergeAll(rows, groups) ==
      if SomeFillsSymbol(rows, groups) then Failure(SymbolTaken) else Success(FinalRows(rows, groups))
    ensures Returns(again, Active(FinalRows(rows, groups))) ==>
      (Groups(again, ComputeMatchScore) == [] <==> !Collides(rows, groups))
  {
    GroupsMergeable(rows, ComputeMatchScore, active, groups);
    MergeAllRows(rows, groups);
    if Returns(again, Active(FinalRows(rows, groups))) {
      if Collides(rows, groups) {
        CollidingRegroups(rows, groups, active, again);
      } else if Groups(again, ComputeMatchScore) != [] {
        RegroupingCollides(rows, groups, active, again);
      }
    }
  }

  lemma CollidingTable(rows: seq<Asset>, groups: seq<DuplicateGroup>)
    requires DistinctIds(rows) && groups == Groups(Active(rows), ComputeMatchScore)
    requires Collides(rows, groups) && !SomeFillsSymbol(rows, groups)
    ensures var merged := MergeAll(rows, groups);
      merged.Success? && Groups(Active(merged.value), ComputeMatchScore) != []
  {
    ActiveFind(rows);
    ActiveFind(FinalRows(rows, groups));
    SameIds(rows, groups);
    MergeAllSettlesIff(rows, groups, Active(rows), Active(FinalRows(rows, groups)));
  }

  // ---------------------------------------------------------------- tables the schema allows

  /** Symbols are present and unique, names are present. */
  ghost predicate SchemaAllows(rows: seq<Asset>) {
    && DistinctIds(rows)
    && (forall k :: 0 <= k < |rows| ==> rows[k].symbol.Some? && rows[k].name.Some?)
    && (forall i, j :: 0 <= i < j < |rows| ==> rows[i].symbol != rows[j].symbol)
  }

  /** On such a table merging every found group succeeds exactly when no asset with an empty symbol leads a group. */
  lemma MergesUnlessSymbolEmpty(rows: seq<Asset>, groups: seq<DuplicateGroup>, active: seq<Asset>)
    requires SchemaAllows(rows) && Returns(active, Active(rows)) && groups == Groups(active, ComputeMatchScore)
    ensures MergeAll(rows, groups).Success? <==>
      forall n :: 0 <= n < |groups| ==> forall a <- rows :: a.id == groups[n].primaryAssetId ==> a.symbol != Some("")
  {
    GroupsMergeable(rows, ComputeMatchScore, active, groups);
    GroupsSound(active, ComputeMatchScore, 0, {});
    MergeAllRows(rows, groups);
    forall n, a | 0 <= n < |groups| && a in rows && a.id == groups[n].primaryAssetId
      ensures FillsSymbol(rows, groups[n]) <==> a.symbol == Some("")
    {
      assert GroupSound(active, ComputeMatchScore, 0, {}, groups[n]);
      assert Mergeable(rows, groups[n]) && groups[n].primaryAssetId !in groups[n].duplicateIds;
      EmptySymbolFilled(rows, groups[n], a);
    }
    forall n | 0 <= n < |groups|
      ensures exists a <- rows :: a.id == groups[n].primaryAssetId
    {
      assert Mergeable(rows, groups[n]) && HasRow(rows, groups[n].primaryAssetId);
    }
  }

  lemma EmptySymbolFilled(rows: seq<Asset>, g: DuplicateGroup, a: Asset)
    requires SchemaAllows(rows) && Mergeable(rows, g) && g.duplicateIds != [] && g.primaryAssetId !in g.duplicateIds
    requires a in rows && a.id == g.primaryAssetId
    ensures FillsSymbol(rows, g) <==> a.symbol == Some("")
  {
    RowsFind(rows, SetOf(g.duplicateIds));
    if a.symbol == Some("") {
      var d :| d in rows && d.id == g.duplicateIds[0];
      assert d in Dups(rows, g);
      var i :| 0 <= i < |rows| && rows[i] == a;
      var j :| 0 <= j < |rows| && rows[j] == d;
      assert Truthy(d.symbol);
    } else {
      assert Truthy(a.symbol);
    }
  }

  // ---------------------------------------------------------------- a table that does not settle

  /** A primary without an issuer, a duplicate by name that has one, and a third asset with that issuer. */
  const BARE := Asset("1", Some("AAA"), Some("USD Coin"), None, None, None, true)
  const ISSUED := Asset("2", Some("BBB"), Some("USD Coin"), Some("G"), None, None, true)
  const THIRD := Asset("3", Some("CCC"), Some("Coin"), Some("G"), None, None, true)

  /** Only the first two match, so they form the one group. */
  lemma BareGroups() returns (g: DuplicateGroup)
    ensures g.primaryAssetId == "1" && g.duplicateIds == ["2"]
    ensures Groups([BARE, ISSUED, THIRD], ComputeMatchScore) == [g]
  {
    var rows, score := [BARE, ISSUED, THIRD], ComputeMatchScore;
    ScoreIsAllOrNothing(BARE, ISSUED);
    ScoreIsAllOrNothing(BARE, THIRD);
    var start := DuplicateGroup("1", BARE.symbol, [], 0.0, "");
    g := start.(duplicateIds := ["2"], matchScore := 1.0, matchReason := DetermineMatchReason(BARE, ISSUED));
    assert [] + ["2"] == ["2"];
    assert Extend(rows, score, 0, 3, {} + {"2"}, g) == g;
    assert Extend(rows, score, 0, 2, {} + {"2"}, g) == g;
    assert GroupAt(rows, score, 0, {}) == Extend(rows, score, 0, 1, {}, start) == g;
    var seen := {} + SetOf(g.duplicateIds) + {"1"};
    assert GroupsFrom(rows, score, 3, seen) == [];
    assert GroupAt(rows, score, 2, seen).duplicateIds == [];
    assert GroupsFrom(rows, score, 2, seen) == [];
    assert GroupsFrom(rows, score, 1, seen) == [];
  }

  lemma BareRows()
    ensures Active([BARE, ISSUED, THIRD]) == [BARE, ISSUED, THIRD]
    ensures Rows([BARE, ISSUED, THIRD], {"2"}) == [ISSUED]
  {
    var rows, two, one := [BARE, ISSUED, THIRD], [ISSUED, THIRD], [THIRD];
    assert rows[1..] == two && two[1..] == one && one[1..] == [];
    assert Active(one) == one && Rows(one, {"2"}) == [];
    assert Active(two) == two && Rows(two, {"2"}) == [ISSUED];
  }

  lemma BareCollides(g: DuplicateGroup)
    requires g.primaryAssetId == "1" && g.duplicateIds == ["2"]
    ensures Collides([BARE, ISSUED, THIRD], [g])
  {
    var rows := [BARE, ISSUED, THIRD];
    BareRows();
    assert SetOf(["2"]) == {"2"};
    var offers := [ISSUED];
    assert |"G"| == 1 && Get(offers[|offers| - 1], Issuer) == Some("G");
    assert LastOffer(offers, Issuer) == Some("G");
    assert Fills(rows, g, BARE, Issuer) == Some("G");
    NotLed(rows, [g], THIRD);
    assert DupIds([g]) == {"2"};
    assert BARE == rows[0] && THIRD == rows[2] && g == [g][0];
    assert Collision(rows, [g], g, BARE, THIRD, Issuer);
  }

  lemma BareTable()
    ensures SchemaAllows([BARE, ISSUED, THIRD])
  {
    var rows := [BARE, ISSUED, THIRD];
    assert BARE.symbol.value[0] == 'A' && ISSUED.symbol.value[0] == 'B' && THIRD.symbol.value[0] == 'C';
    assert rows[0] == BARE && rows[1] == ISSUED && rows[2] == THIRD;
  }

  /** Merging every group of this table fills the issuer of its first row, which then matches the third. */
  lemma FillingCanRegroup()
    ensures SchemaAllows([BARE, ISSUED, THIRD])
    ensures var rows := [BARE, ISSUED, THIRD];
      var merged := MergeAll(rows, Groups(Active(rows), ComputeMatchScore));
      merged.Success? && Groups(Active(merged.value), ComputeMatchScore) != []
  {
    var g := BareGroups();
    BareTable();
    BareRows();
    BareCollides(g);
    CollidingTable([BARE, ISSUED, THIRD], [g]);
  }
}
