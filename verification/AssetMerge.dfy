/**
 * backend/src/services/assetMerge.service.ts: greedy duplicate grouping and merging.
 * Asset ids are the primary key of the table.
 */
module AssetMerge {
  import opened Common

  type AssetId = string

  datatype Asset = Asset(
    id: AssetId,
    symbol: Option<string>,
    name: Option<string>,
    issuer: Option<string>,
    sourceChain: Option<string>,
    bridgeProvider: Option<string>,
    isActive: bool)

  datatype DuplicateGroup = DuplicateGroup(
    primaryAssetId: AssetId, primarySymbol: Option<string>, duplicateIds: seq<AssetId>,
    matchScore: real, matchReason: string)

  type Score = (Asset, Asset) -> real

  const SCORE_THRESHOLD := 0.8

  predicate Truthy(v: Option<string>) { v.Some? && v.value != "" }

  // ---------------------------------------------------------------- scoring

  /** Weight of a field when the two assets agree on it, 0 otherwise. */
  function Agree(same: bool, weight: real): real { if same then weight else 0.0 }

  function ComputeMatchScore(a: Asset, b: Asset): real {
    var score := Agree(a.symbol == b.symbol, 30.0) + Agree(a.name == b.name, 25.0)
                 + Agree(a.issuer == b.issuer && Truthy(a.issuer), 25.0)
                 + Agree(a.sourceChain == b.sourceChain && Truthy(a.sourceChain), 10.0)
                 + Agree(a.bridgeProvider == b.bridgeProvider && Truthy(a.bridgeProvider), 10.0);
    var total := Agree(a.symbol == b.symbol, 30.0) + Agree(a.name == b.name, 25.0)
                 + Agree(a.issuer == b.issuer && Truthy(a.issuer), 25.0)
                 + Agree(a.sourceChain == b.sourceChain && Truthy(a.sourceChain), 10.0)
                 + Agree(a.bridgeProvider == b.bridgeProvider && Truthy(a.bridgeProvider), 10.0);
    if total > 0.0 then score / total else 0.0
  }

  /** The assets agree on the symbol or name (absent counts), or on a present issuer, chain or bridge. */
  predicate AgreeSomewhere(a: Asset, b: Asset) {
    || a.symbol == b.symbol || a.name == b.name
    || (a.issuer == b.issuer && Truthy(a.issuer))
    || (a.sourceChain == b.sourceChain && Truthy(a.sourceChain))
    || (a.bridgeProvider == b.bridgeProvider && Truthy(a.bridgeProvider))
  }

  /** Score and total grow together, so agreeing anywhere scores 1, whatever the weights. */
  lemma ScoreIsAllOrNothing(a: Asset, b: Asset)
    ensures ComputeMatchScore(a, b) == if AgreeSomewhere(a, b) then 1.0 else 0.0
    ensures ComputeMatchScore(a, b) == ComputeMatchScore(b, a)
    ensures ComputeMatchScore(a, b) >= SCORE_THRESHOLD <==> AgreeSomewhere(a, b)
  {
  }

  function DetermineMatchReason(a: Asset, b: Asset): string {
    var symbol := if a.symbol == b.symbol then ["same symbol"] else [];
    var name := if a.name == b.name then ["same name"] else [];
    var issuer := if a.issuer == b.issuer then ["same issuer"] else [];
    var reasons := symbol + name + issuer;
    if |reasons| > 0 then JoinReasons(reasons) else "unknown"
  }

  function JoinReasons(parts: seq<string>): string {
    if parts == [] then "" else if |parts| == 1 then parts[0] else parts[0] + ", " + JoinReasons(parts[1..])
  }

  // ---------------------------------------------------------------- greedy grouping

  /** The group of `a` with one more duplicate. */
  function Take(g: DuplicateGroup, a: Asset, b: Asset, score: real): DuplicateGroup {
    g.(duplicateIds := g.duplicateIds + [b.id], matchScore := if g.matchScore < score then score else g.matchScore,
       matchReason := DetermineMatchReason(a, b))
  }

  /** The inner loop from `j` on: extends the group of asset `i` with unseen matches. */
  function Extend(assets: seq<Asset>, score: Score, i: nat, j: nat, seen: set<AssetId>,
                  g: DuplicateGroup): DuplicateGroup
    requires i < |assets| && j <= |assets|
    decreases |assets| - j
  {
    if j == |assets| then g
    else if assets[j].id in seen || score(assets[i], assets[j]) < SCORE_THRESHOLD then
      Extend(assets, score, i, j + 1, seen, g)
    else
      Extend(assets, score, i, j + 1, seen + {assets[j].id}, Take(g, assets[i], assets[j], score(assets[i], assets[j])))
  }

  function GroupAt(assets: seq<Asset>, score: Score, i: nat, seen: set<AssetId>): DuplicateGroup
    requires i < |assets|
  {
    Extend(assets, score, i, i + 1, seen, DuplicateGroup(assets[i].id, assets[i].symbol, [], 0.0, ""))
  }

  function SetOf(ids: seq<AssetId>): set<AssetId> { set id | id in ids }

  /** The outer loop from `i` on. */
  function GroupsFrom(assets: seq<Asset>, score: Score, i: nat, seen: set<AssetId>): seq<DuplicateGroup>
    requires i <= |assets|
    decreases |assets| - i
  {
    if i == |assets| then []
    else if assets[i].id in seen then GroupsFrom(assets, score, i + 1, seen)
    else
      var g := GroupAt(assets, score, i, seen);
      if g.duplicateIds == [] then GroupsFrom(assets, score, i + 1, seen)
      else [g] + GroupsFrom(assets, score, i + 1, seen + SetOf(g.duplicateIds) + {assets[i].id})
  }

  function Groups(assets: seq<Asset>, score: Score): seq<DuplicateGroup> { GroupsFrom(assets, score, 0, {}) }

  /** `findDuplicates` over the active assets the query returned. */
  method FindDuplicates(assets: seq<Asset>) returns (groups: seq<DuplicateGroup>)
    ensures groups == Groups(assets, ComputeMatchScore)
  {
    groups := [];
    var seen: set<AssetId> := {};
    var i := 0;
    while i < |assets|
      invariant i <= |assets|
      invariant groups + GroupsFrom(assets, ComputeMatchScore, i, seen) == Groups(assets, ComputeMatchScore)
    {
      if assets[i].id in seen {
        i := i + 1;
        continue;
      }
      ghost var seen0 := seen;
      var group := DuplicateGroup(assets[i].id, assets[i].symbol, [], 0.0, "");
      var j := i + 1;
      while j < |assets|
        invariant i < j <= |assets|
        invariant Extend(assets, ComputeMatchScore, i, j, seen, group) == GroupAt(assets, ComputeMatchScore, i, seen0)
        invariant seen == seen0 + SetOf(group.duplicateIds)
      {
        if assets[j].id !in seen {
          var score := ComputeMatchScore(assets[i], assets[j]);
          if score >= SCORE_THRESHOLD {
            group := group.(duplicateIds := group.duplicateIds + [assets[j].id]);
            group := group.(matchScore := if group.matchScore < score then score else group.matchScore);
            group := group.(matchReason := DetermineMatchReason(assets[i], assets[j]));
            seen := seen + {assets[j].id};
          }
        }
        j := j + 1;
      }
      ghost var rest := GroupsFrom(assets, ComputeMatchScore, i + 1, seen + {assets[i].id});
      if |group.duplicateIds| > 0 {
        seen := seen + {assets[i].id};
        assert groups + ([group] + rest) == groups + [group] + rest;
        groups := groups + [group];
      }
      i := i + 1;
    }
    assert groups + [] == groups;
  }

  // ---------------------------------------------------------------- what the groups satisfy

  ghost predicate DistinctIds(assets: seq<Asset>) {
    forall i, j :: 0 <= i < j < |assets| ==> assets[i].id != assets[j].id
  }

  function Ids(assets: seq<Asset>): (r: seq<AssetId>)
    ensures |r| == |assets| && forall k :: 0 <= k < |assets| ==> r[k] == assets[k].id
  {
    seq(|assets|, k requires 0 <= k < |assets| => assets[k].id)
  }

  /** What the inner loop adds to a group: exactly the unseen matches from `j` on. */
  ghost predicate ExtendsTo(assets: seq<Asset>, score: Score, i: nat, j: nat, seen: set<AssetId>, g: DuplicateGroup,
                            h: DuplicateGroup)
    requires i < |assets| && j <= |assets|
  {
    && h.primaryAssetId == g.primaryAssetId && h.primarySymbol == g.primarySymbol
    && g.duplicateIds <= h.duplicateIds
    && (forall k :: j <= k < |assets| && assets[k].id !in seen ==>
          (score(assets[i], assets[k]) >= SCORE_THRESHOLD <==> assets[k].id in h.duplicateIds[|g.duplicateIds|..]))
    && (forall n :: |g.duplicateIds| <= n < |h.duplicateIds| ==> DupAt(assets, j, seen, h.duplicateIds[n]))
    && (forall m, n :: |g.duplicateIds| <= m < n < |h.duplicateIds| ==> h.duplicateIds[m] != h.duplicateIds[n])
  }

  /** An unseen id of an asset from `j` on. */
  ghost predicate DupAt(assets: seq<Asset>, j: nat, seen: set<AssetId>, id: AssetId) {
    id !in seen && exists k :: j <= k < |assets| && assets[k].id == id
  }

  lemma {:induction false} ExtendFinds(assets: seq<Asset>, score: Score, i: nat, j: nat, seen: set<AssetId>,
                                       g: DuplicateGroup)
    requires DistinctIds(assets) && i < |assets| && j <= |assets|
    ensures ExtendsTo(assets, score, i, j, seen, g, Extend(assets, score, i, j, seen, g))
    decreases |assets| - j
  {
    var h := Extend(assets, score, i, j, seen, g);
    if j < |assets| {
      var id, s := assets[j].id, score(assets[i], assets[j]);
      if id in seen || s < SCORE_THRESHOLD {
        ExtendFinds(assets, score, i, j + 1, seen, g);
      } else {
        var g' := Take(g, assets[i], assets[j], s);
        ExtendFinds(assets, score, i, j + 1, seen + {id}, g');
        TakeOne(assets, score, i, j, seen, g, g', h);
      }
    }
  }

  lemma TakeOne(assets: seq<Asset>, score: Score, i: nat, j: nat, seen: set<AssetId>, g: DuplicateGroup,
                g': DuplicateGroup, h: DuplicateGroup)
    requires DistinctIds(assets) && i < |assets| && j < |assets| && assets[j].id !in seen
    requires score(assets[i], assets[j]) >= SCORE_THRESHOLD
    requires g'.duplicateIds == g.duplicateIds + [assets[j].id]
    requires g'.primaryAssetId == g.primaryAssetId && g'.primarySymbol == g.primarySymbol
    requires ExtendsTo(assets, score, i, j + 1, seen + {assets[j].id}, g', h)
    ensures ExtendsTo(assets, score, i, j, seen, g, h)
  {
    var n0 := |g.duplicateIds|;
    assert h.duplicateIds[n0] == g'.duplicateIds[n0] == assets[j].id;
    assert h.duplicateIds[n0..] == [assets[j].id] + h.duplicateIds[n0 + 1..];
    assert h.duplicateIds[..n0] == g'.duplicateIds[..n0] == g.duplicateIds;
    forall n | n0 <= n < |h.duplicateIds|
      ensures DupAt(assets, j, seen, h.duplicateIds[n])
    {
      if n > n0 { assert DupAt(assets, j + 1, seen + {assets[j].id}, h.duplicateIds[n]); }
    }
    forall n | n0 < n < |h.duplicateIds|
      ensures h.duplicateIds[n] != assets[j].id
    {
      assert DupAt(assets, j + 1, seen + {assets[j].id}, h.duplicateIds[n]);
    }
  }
}
