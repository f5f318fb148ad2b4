/** Soundness and completeness of the greedy grouping, and what merging all groups leaves behind. */
module AssetMergeLaws {
  import opened Common
  import opened AssetMerge

  function DupIds(groups: seq<DuplicateGroup>): set<AssetId> {
    if groups == [] then {} else SetOf(groups[0].duplicateIds) + DupIds(groups[1..])
  }

  function Members(g: DuplicateGroup): set<AssetId> { SetOf(g.duplicateIds) + {g.primaryAssetId} }

  /** `id` belongs to an asset after position `a` that reaches the threshold against asset `a`. */
  ghost predicate MatchOf(assets: seq<Asset>, score: Score, a: nat, id: AssetId)
    requires a < |assets|
  {
    exists b :: a < b < |assets| && assets[b].id == id && score(assets[a], assets[b]) >= SCORE_THRESHOLD
  }

  /** A group led by an unseen asset from `i` on, with distinct unseen duplicates that all match it. */
  ghost predicate GroupSound(assets: seq<Asset>, score: Score, i: nat, seen: set<AssetId>, g: DuplicateGroup) {
    && g.duplicateIds != [] && Distinct(g.duplicateIds)
    && g.primaryAssetId !in g.duplicateIds
    && (forall id <- Members(g) :: id !in seen)
    && exists a :: i <= a < |assets| && assets[a].id == g.primaryAssetId && assets[a].symbol == g.primarySymbol
                   && forall n :: 0 <= n < |g.duplicateIds| ==> MatchOf(assets, score, a, g.duplicateIds[n])
  }

  lemma GroupAtSound(assets: seq<Asset>, score: Score, i: nat, seen: set<AssetId>)
    requires DistinctIds(assets) && i < |assets| && assets[i].id !in seen
    ensures var g := GroupAt(assets, score, i, seen);
      && g.primaryAssetId == assets[i].id && g.primarySymbol == assets[i].symbol
      && (g.duplicateIds != [] ==> GroupSound(assets, score, i, seen, g))
      && (forall k :: i < k < |assets| && assets[k].id !in seen ==>
            (score(assets[i], assets[k]) >= SCORE_THRESHOLD <==> assets[k].id in g.duplicateIds))
  {
    var start := DuplicateGroup(assets[i].id, assets[i].symbol, [], 0.0, "");
    ExtendFinds(assets, score, i, i + 1, seen, start);
    var g := GroupAt(assets, score, i, seen);
    assert g.duplicateIds[0..] == g.duplicateIds;
    forall n | 0 <= n < |g.duplicateIds|
      ensures MatchOf(assets, score, i, g.duplicateIds[n]) && g.duplicateIds[n] != assets[i].id
      ensures g.duplicateIds[n] !in seen
    {
      assert DupAt(assets, i + 1, seen, g.duplicateIds[n]);
      var k :| i + 1 <= k < |assets| && assets[k].id == g.duplicateIds[n];
      assert assets[k].id in g.duplicateIds;
    }
  }

  ghost predicate Disjoint(groups: seq<DuplicateGroup>) {
    forall m, n :: 0 <= m < n < |groups| ==> Members(groups[m]) !! Members(groups[n])
  }

  lemma {:induction false} GroupsSound(assets: seq<Asset>, score: Score, i: nat, seen: set<AssetId>)
    requires DistinctIds(assets) && i <= |assets|
    ensures var groups := GroupsFrom(assets, score, i, seen);
      && Disjoint(groups)
      && forall n :: 0 <= n < |groups| ==> GroupSound(assets, score, i, seen, groups[n])
    decreases |assets| - i
  {
    if i < |assets| {
      var groups := GroupsFrom(assets, score, i, seen);
      var g := GroupAt(assets, score, i, seen);
      if assets[i].id in seen || g.duplicateIds == [] {
        GroupsSound(assets, score, i + 1, seen);
      } else {
        GroupAtSound(assets, score, i, seen);
        var seen' := seen + SetOf(g.duplicateIds) + {assets[i].id};
        GroupsSound(assets, score, i + 1, seen');
        FirstDisjoint(assets, score, i + 1, seen', g, groups[1..]);
        assert groups == [g] + groups[1..];
      }
    }
  }

  lemma FirstDisjoint(assets: seq<Asset>, score: Score, i: nat, seen: set<AssetId>, g: DuplicateGroup,
                      rest: seq<DuplicateGroup>)
    requires Members(g) <= seen && Disjoint(rest)
    requires forall n :: 0 <= n < |rest| ==> GroupSound(assets, score, i, seen, rest[n])
    ensures Disjoint([g] + rest)
  {
  }

  /** Two assets that are nobody's duplicate stay below the threshold against each other. */
  lemma {:induction false} UngroupedBelow(assets: seq<Asset>, score: Score, i: nat, seen: set<AssetId>, a: nat, b: nat)
    requires DistinctIds(assets) && i <= a < b < |assets|
    requires assets[a].id !in seen && assets[b].id !in seen
    requires var dups := DupIds(GroupsFrom(assets, score, i, seen)); assets[a].id !in dups && assets[b].id !in dups
    ensures score(assets[a], assets[b]) < SCORE_THRESHOLD
    decreases |assets| - i
  {
    if assets[i].id in seen {
      UngroupedBelow(assets, score, i + 1, seen, a, b);
    } else {
      var g := GroupAt(assets, score, i, seen);
      GroupAtSound(assets, score, i, seen);
      if a == i {
        assert assets[b].id !in g.duplicateIds;
      } else if g.duplicateIds == [] {
        UngroupedBelow(assets, score, i + 1, seen, a, b);
      } else {
        var rest := GroupsFrom(assets, score, i + 1, seen + SetOf(g.duplicateIds) + {assets[i].id});
        assert ([g] + rest)[1..] == rest;
        UngroupedBelow(assets, score, i + 1, seen + SetOf(g.duplicateIds) + {assets[i].id}, a, b);
      }
    }
  }

  /** Nothing is grouped exactly when every pair stays below the threshold. */
  lemma {:induction false} NoGroupsIff(assets: seq<Asset>, score: Score)
    requires DistinctIds(assets)
    ensures Groups(assets, score) == [] <==>
      forall a, b :: 0 <= a < b < |assets| ==> score(assets[a], assets[b]) < SCORE_THRESHOLD
  {
    var groups := Groups(assets, score);
    if groups == [] {
      forall a, b | 0 <= a < b < |assets|
        ensures score(assets[a], assets[b]) < SCORE_THRESHOLD
      {
        UngroupedBelow(assets, score, 0, {}, a, b);
      }
    } else {
      GroupsSound(assets, score, 0, {});
      var g := groups[0];
      assert GroupSound(assets, score, 0, {}, g);
      var a :| 0 <= a < |assets| && assets[a].id == g.primaryAssetId && MatchOf(assets, score, a, g.duplicateIds[0]);
    }
  }

  /** The group's score is the best score of the matches it was offered. */
  lemma {:induction false} ScoreIsMax(assets: seq<Asset>, score: Score, i: nat, j: nat, seen: set<AssetId>,
                                      g: DuplicateGroup)
    requires DistinctIds(assets) && i < |assets| && j <= |assets|
    ensures var h := Extend(assets, score, i, j, seen, g);
      && h.matchScore >= g.matchScore
      && (forall k :: j <= k < |assets| && assets[k].id !in seen && score(assets[i], assets[k]) >= SCORE_THRESHOLD ==>
            score(assets[i], assets[k]) <= h.matchScore)
      && (h.matchScore == g.matchScore || exists k :: j <= k < |assets| && h.matchScore == score(assets[i], assets[k]))
    decreases |assets| - j
  {
    if j < |assets| {
      var id, s := assets[j].id, score(assets[i], assets[j]);
      if id in seen || s < SCORE_THRESHOLD {
        ScoreIsMax(assets, score, i, j + 1, seen, g);
      } else {
        ScoreIsMax(assets, score, i, j + 1, seen + {id}, Take(g, assets[i], assets[j], s));
      }
    }
  }

  lemma JoinedReasons(s: string, t: string, u: string)
    ensures JoinReasons([s]) == s && JoinReasons([s, t]) == s + ", " + t
    ensures JoinReasons([s, t, u]) == s + ", " + (t + ", " + u)
  {
    assert [s, t][1..] == [t] && [t, u][1..] == [u] && [s, t, u][1..] == [t, u];
    assert JoinReasons([t]) == t && JoinReasons([u]) == u;
    assert JoinReasons([t, u]) == t + ", " + u;
  }

  /** The phrases that apply, in order. */
  function Reasons(symbol: bool, name: bool, issuer: bool): seq<string> {
    match (symbol, name, issuer)
    case (true, true, true) => ["same symbol", "same name", "same issuer"]
    case (true, true, false) => ["same symbol", "same name"]
    case (true, false, true) => ["same symbol", "same issuer"]
    case (true, false, false) => ["same symbol"]
    case (false, true, true) => ["same name", "same issuer"]
    case (false, true, false) => ["same name"]
    case (false, false, true) => ["same issuer"]
    case (false, false, false) => ["unknown"]
  }

  /** The reason names what the two assets agree on; absent values agree. */
  predicate ReasonFits(reason: string, a: Asset, b: Asset) {
    reason == JoinReasons(Reasons(a.symbol == b.symbol, a.name == b.name, a.issuer == b.issuer))
  }

  lemma ReasonReads(a: Asset, b: Asset)
    ensures ReasonFits(DetermineMatchReason(a, b), a, b)
  {
    var symbol := if a.symbol == b.symbol then ["same symbol"] else [];
    var name := if a.name == b.name then ["same name"] else [];
    var issuer := if a.issuer == b.issuer then ["same issuer"] else [];
    if symbol + name + issuer != [] {
      assert symbol + name + issuer == Reasons(a.symbol == b.symbol, a.name == b.name, a.issuer == b.issuer);
    } else {
      JoinedReasons("unknown", "", "");
    }
  }

  /** The last duplicate of the group is an asset from `j` on, and the reason is the one for it. */
  ghost predicate ReasonOf(assets: seq<Asset>, i: nat, j: nat, h: DuplicateGroup)
    requires i < |assets|
  {
    h.duplicateIds != []
    && exists k :: j <= k < |assets| && assets[k].id == h.duplicateIds[|h.duplicateIds| - 1]
                   && ReasonFits(h.matchReason, assets[i], assets[k])
  }

  /** The group's reason is the one for its last duplicate. */
  lemma {:induction false} ReasonIsLast(assets: seq<Asset>, score: Score, i: nat, j: nat, seen: set<AssetId>,
                                        g: DuplicateGroup)
    requires i < |assets| && j <= |assets|
    ensures var h := Extend(assets, score, i, j, seen, g); h == g || ReasonOf(assets, i, j, h)
    decreases |assets| - j
  {
    if j < |assets| {
      var id, s := assets[j].id, score(assets[i], assets[j]);
      if id in seen || s < SCORE_THRESHOLD {
        ReasonIsLast(assets, score, i, j + 1, seen, g);
      } else {
        ReasonReads(assets[i], assets[j]);
        ReasonIsLast(assets, score, i, j + 1, seen + {id}, Take(g, assets[i], assets[j], s));
      }
    }
  }
}
