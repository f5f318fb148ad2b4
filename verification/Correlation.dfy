/**
 * backend/src/services/correlation.service.ts: correlation groups of incidents. The
 * membership table is a set of rows and each call is one step.
 */
module Correlation {
  import opened Common

  type GroupId = nat
  type Incident = string

  datatype Member = Member(group: GroupId, incident: Incident, linkedBy: string)

  datatype Action = Linked | Unlinked | Approved

  /** The group reference is cleared when the group is deleted. */
  datatype Audit = Audit(action: Action, group: Option<GroupId>, incident: Incident, target: Incident, actor: string)

  datatype State = State(groups: map<GroupId, string>, members: set<Member>, audits: seq<Audit>)

  /**
   * `group` of a link is the row the `limit 1` query returned, or the id the database drew
   * for a new group.
   */
  datatype Op =
    | Link(incident: Incident, target: Incident, actor: string, group: GroupId)
    | Unlink(incident: Incident, target: Incident, actor: string, group: GroupId)
    | ApproveSuggestion(incident: Incident, target: Incident, actor: string, group: GroupId)

  const EMPTY := State(map[], {}, [])

  /** Groups that the join of groups and members finds for either incident. */
  function GroupsOfEither(s: State, a: Incident, b: Incident): set<GroupId> {
    set m | m in s.members && m.group in s.groups && (m.incident == a || m.incident == b) :: m.group
  }

  /** Groups that the self-join finds for both incidents. */
  function GroupsOfBoth(s: State, a: Incident, b: Incident): set<GroupId> {
    set m1, m2 | m1 in s.members && m2 in s.members
                 && m1.group == m2.group && m1.incident == a && m2.incident == b :: m1.group
  }

  /** Insert, ignoring the row if the incident is a member already. */
  function InsertIgnore(members: set<Member>, row: Member): set<Member> {
    if exists m :: m in members && m.incident == row.incident then members else members + {row}
  }

  function LinkStep(s: State, a: Incident, b: Incident, actor: string, g: GroupId): State {
    var groups := if GroupsOfEither(s, a, b) == {} then s.groups[g := actor] else s.groups;
    var first := InsertIgnore(s.members, Member(g, a, actor));
    State(groups, InsertIgnore(first, Member(g, b, actor)), s.audits + [Audit(Linked, Some(g), a, b, actor)])
  }

  function MembersOf(members: set<Member>, g: GroupId): set<Member> {
    set m | m in members && m.group == g
  }

  function ClearGroup(audits: seq<Audit>, g: GroupId): (r: seq<Audit>)
    ensures |r| == |audits|
    ensures forall k :: 0 <= k < |r| ==>
      r[k] == if audits[k].group == Some(g) then audits[k].(group := None) else audits[k]
  {
    seq(|audits|, k requires 0 <= k < |audits| =>
      if audits[k].group == Some(g) then audits[k].(group := None) else audits[k])
  }

  function UnlinkStep(s: State, a: Incident, b: Incident, actor: string, g: GroupId): State {
    if GroupsOfBoth(s, a, b) == {} then s
    else
      var left := set m | m in s.members && !(m.group == g && m.incident == b);
      var audits := s.audits + [Audit(Unlinked, Some(g), a, b, actor)];
      if |MembersOf(left, g)| < 2 then State(s.groups - {g}, left - MembersOf(left, g), ClearGroup(audits, g))
      else State(s.groups, left, audits)
  }

  ghost predicate Enabled(s: State, op: Op) {
    match op
    case Link(a, b, _, g) => LinkEnabled(s, a, b, g)
    case ApproveSuggestion(a, b, _, g) => LinkEnabled(s, a, b, g)
    case Unlink(a, b, _, g) => GroupsOfBoth(s, a, b) == {} || g in GroupsOfBoth(s, a, b)
  }

  ghost predicate LinkEnabled(s: State, a: Incident, b: Incident, g: GroupId) {
    var found := GroupsOfEither(s, a, b);
    if found == {} then g !in s.groups else g in found
  }

  function Next(s: State, op: Op): State {
    match op
    case Link(a, b, actor, g) => LinkStep(s, a, b, actor, g)
    case Unlink(a, b, actor, g) => UnlinkStep(s, a, b, actor, g)
    case ApproveSuggestion(a, b, actor, g) =>
      var s' := LinkStep(s, a, b, actor, g);
      s'.(audits := s'.audits + [Audit(Approved, Some(g), a, b, actor)])
  }

  // ---------------------------------------------------------------- the invariant

  predicate Grouped(members: set<Member>, i: Incident) {
    exists m :: m in members && m.incident == i
  }

  /** No incident has two rows. */
  predicate OneRow(members: set<Member>) {
    forall m, n :: m in members && n in members && m.incident == n.incident ==> m == n
  }

  predicate Inv(s: State) {
    && OneRow(s.members)
    && (forall m :: m in s.members ==> m.group in s.groups)
    && (forall g :: g in s.groups ==> |MembersOf(s.members, g)| >= 2)
    && (forall k :: 0 <= k < |s.audits| && s.audits[k].group.Some? ==> s.audits[k].group.value in s.groups)
  }

  lemma Grows(small: set<Member>, large: set<Member>, g: GroupId)
    requires small <= large
    ensures |MembersOf(small, g)| <= |MembersOf(large, g)|
  {
    SubsetSize(MembersOf(small, g), MembersOf(large, g));
  }

  lemma SubsetSize<T>(a: set<T>, b: set<T>)
    requires a <= b
    ensures |a| <= |b|
  {
    assert b == a + (b - a);
  }

  lemma TwoRows(rows: set<Member>, m: Member, n: Member)
    requires m in rows && n in rows && m != n
    ensures |rows| >= 2
  {
    SubsetSize({m, n}, rows);
  }

  /** What a link does to the membership table, row by row. */
  lemma LinkMembers(s: State, a: Incident, b: Incident, actor: string, g: GroupId)
    requires Inv(s)
    ensures var s' := LinkStep(s, a, b, actor, g);
      && OneRow(s'.members) && s.members <= s'.members
      && (forall m :: m in s'.members <==>
            m in s.members
            || (m == Member(g, a, actor) && !Grouped(s.members, a))
            || (m == Member(g, b, actor) && !Grouped(s.members, b)))
  {
  }

  lemma NewGroupIsFull(s: State, a: Incident, b: Incident, actor: string, g: GroupId)
    requires Inv(s) && a != b && GroupsOfEither(s, a, b) == {}
    ensures |MembersOf(LinkStep(s, a, b, actor, g).members, g)| >= 2
  {
    LinkMembers(s, a, b, actor, g);
    NoGroups(s, a, b);
    TwoRows(MembersOf(LinkStep(s, a, b, actor, g).members, g), Member(g, a, actor), Member(g, b, actor));
  }

  lemma NoGroups(s: State, a: Incident, b: Incident)
    requires Inv(s)
    ensures GroupsOfEither(s, a, b) == {} <==> !Grouped(s.members, a) && !Grouped(s.members, b)
  {
    if m :| m in s.members && (m.incident == a || m.incident == b) {
      assert m.group in GroupsOfEither(s, a, b);
    }
  }

  lemma LinkKeeps(s: State, a: Incident, b: Incident, actor: string, g: GroupId)
    requires Inv(s) && LinkEnabled(s, a, b, g) && (a != b || Grouped(s.members, a))
    ensures Inv(LinkStep(s, a, b, actor, g))
  {
    var s' := LinkStep(s, a, b, actor, g);
    LinkMembers(s, a, b, actor, g);
    NoGroups(s, a, b);
    forall h | h in s'.groups
      ensures |MembersOf(s'.members, h)| >= 2
    {
      if h in s.groups { Grows(s.members, s'.members, h); } else { NewGroupIsFull(s, a, b, actor, g); }
    }
  }

  /** Linking an ungrouped incident with itself makes a group of one. */
  lemma SelfLinkBreaks(s: State, a: Incident, actor: string, g: GroupId)
    requires Inv(s) && LinkEnabled(s, a, a, g) && !Grouped(s.members, a)
    ensures !Inv(LinkStep(s, a, a, actor, g))
  {
    var s' := LinkStep(s, a, a, actor, g);
    LinkMembers(s, a, a, actor, g);
    NoGroups(s, a, a);
    assert MembersOf(s'.members, g) == {Member(g, a, actor)} by {
      forall m | m in MembersOf(s'.members, g)
        ensures m == Member(g, a, actor)
      {
        assert m !in s.members || m.group in s.groups;
      }
      assert Member(g, a, actor) in MembersOf(s'.members, g);
    }
  }

  /** A link keeps the invariant exactly when it links two incidents, or one that has a group already. */
  lemma LinkKeepsIff(s: State, a: Incident, b: Incident, actor: string, g: GroupId)
    requires Inv(s) && LinkEnabled(s, a, b, g)
    ensures Inv(LinkStep(s, a, b, actor, g)) <==> a != b || Grouped(s.members, a)
  {
    if a != b || Grouped(s.members, a) { LinkKeeps(s, a, b, actor, g); } else { SelfLinkBreaks(s, a, actor, g); }
  }

  lemma UnlinkKeeps(s: State, a: Incident, b: Incident, actor: string, g: GroupId)
    requires Inv(s) && Enabled(s, Unlink(a, b, actor, g))
    ensures Inv(UnlinkStep(s, a, b, actor, g))
  {
    var s' := UnlinkStep(s, a, b, actor, g);
    if GroupsOfBoth(s, a, b) != {} {
      forall h | h in s'.groups
        ensures |MembersOf(s'.members, h)| >= 2
      {
        if h != g { assert MembersOf(s'.members, h) == MembersOf(s.members, h); }
      }
    }
  }

  ghost predicate Proper(s: State, op: Op) {
    !op.Unlink? ==> op.incident != op.target || Grouped(s.members, op.incident)
  }

  lemma NextKeeps(s: State, op: Op)
    requires Inv(s) && Enabled(s, op) && Proper(s, op)
    ensures Inv(Next(s, op))
  {
    match op {
      case Link(a, b, actor, g) => LinkKeeps(s, a, b, actor, g);
      case Unlink(a, b, actor, g) => UnlinkKeeps(s, a, b, actor, g);
      case ApproveSuggestion(a, b, actor, g) =>
        LinkKeeps(s, a, b, actor, g);
        assert g in LinkStep(s, a, b, actor, g).groups;
    }
  }

  // ---------------------------------------------------------------- groups as blocks of a partition

  /** The incidents share a group, or are the same. */
  predicate Together(members: set<Member>, x: Incident, y: Incident) {
    x == y || exists m, n :: m in members && n in members && m.incident == x && n.incident == y && m.group == n.group
  }

  /** The incidents sit in two different groups. */
  predicate Apart(members: set<Member>, a: Incident, b: Incident) {
    Grouped(members, a) && Grouped(members, b) && !Together(members, a, b)
  }

  lemma TogetherIsEquivalence(members: set<Member>, x: Incident, y: Incident, z: Incident)
    requires OneRow(members)
    ensures Together(members, x, x)
    ensures Together(members, x, y) ==> Together(members, y, x)
    ensures Together(members, x, y) && Together(members, y, z) ==> Together(members, x, z)
  {
  }

  lemma InGroup(s: State, a: Incident, b: Incident, g: GroupId, x: Incident)
    requires Inv(s) && LinkEnabled(s, a, b, g) && !Apart(s.members, a, b)
    ensures (exists m :: m in s.members && m.incident == x && m.group == g)
            ==> Together(s.members, x, a) || Together(s.members, x, b)
    ensures Grouped(s.members, x) && (Together(s.members, x, a) || Together(s.members, x, b))
            ==> exists m :: m in s.members && m.incident == x && m.group == g
  {
    if m :| m in s.members && m.incident == x && m.group == g {
      assert g in GroupsOfEither(s, a, b);
    }
    if Grouped(s.members, x) && (Together(s.members, x, a) || Together(s.members, x, b)) {
      NoGroups(s, a, b);
      assert g in GroupsOfEither(s, a, b);
      var k :| k in s.members && k.group == g && (k.incident == a || k.incident == b);
      assert Together(s.members, x, k.incident);
    }
  }

  /** The block of either incident after a link: who has a row in the chosen group. */
  lemma InGroupAfter(s: State, a: Incident, b: Incident, actor: string, g: GroupId, x: Incident)
    requires Inv(s) && LinkEnabled(s, a, b, g) && !Apart(s.members, a, b)
    ensures (exists m :: m in LinkStep(s, a, b, actor, g).members && m.incident == x && m.group == g)
            <==> Together(s.members, x, a) || Together(s.members, x, b)
  {
    var members := LinkStep(s, a, b, actor, g).members;
    LinkMembers(s, a, b, actor, g);
    InGroup(s, a, b, g, x);
    if Together(s.members, x, a) || Together(s.members, x, b) {
      if Grouped(s.members, x) {
        var m :| m in s.members && m.incident == x && m.group == g;
        assert m in members;
      } else {
        assert x == a || x == b;
        assert Member(g, x, actor) in members;
      }
    }
  }

  /** Links between incidents of two different groups move nothing. */
  lemma LinkApart(s: State, a: Incident, b: Incident, actor: string, g: GroupId)
    requires Inv(s) && LinkEnabled(s, a, b, g) && Apart(s.members, a, b)
    ensures LinkStep(s, a, b, actor, g).members == s.members && LinkStep(s, a, b, actor, g).groups == s.groups
  {
    LinkMembers(s, a, b, actor, g);
    NoGroups(s, a, b);
  }

  /**
   * A link merges the blocks of its two incidents and touches no other block, unless
   * the two sit in different groups already: then no block changes.
   */
  lemma LinkMerges(s: State, a: Incident, b: Incident, actor: string, g: GroupId, x: Incident, y: Incident)
    requires Inv(s) && LinkEnabled(s, a, b, g)
    ensures Together(LinkStep(s, a, b, actor, g).members, x, y) <==>
      || Together(s.members, x, y)
      || (&& !Apart(s.members, a, b)
          && (Together(s.members, x, a) || Together(s.members, x, b))
          && (Together(s.members, y, a) || Together(s.members, y, b)))
  {
    if Apart(s.members, a, b) {
      LinkApart(s, a, b, actor, g);
    } else {
      LinkMergesBlocks(s, a, b, actor, g, x, y);
    }
  }

  lemma LinkMergesBlocks(s: State, a: Incident, b: Incident, actor: string, g: GroupId, x: Incident, y: Incident)
    requires Inv(s) && LinkEnabled(s, a, b, g) && !Apart(s.members, a, b)
    ensures Together(LinkStep(s, a, b, actor, g).members, x, y) <==>
      || Together(s.members, x, y)
      || ((Together(s.members, x, a) || Together(s.members, x, b))
          && (Together(s.members, y, a) || Together(s.members, y, b)))
  {
    var members := LinkStep(s, a, b, actor, g).members;
    LinkMembers(s, a, b, actor, g);
    InGroupAfter(s, a, b, actor, g, x);
    InGroupAfter(s, a, b, actor, g, y);
  }

  /**
   * An unlink isolates its target when both share a group, and otherwise changes nothing;
   * every other block only loses the target.
   */
  lemma UnlinkSplits(s: State, a: Incident, b: Incident, actor: string, g: GroupId, x: Incident, y: Incident)
    requires Inv(s) && Enabled(s, Unlink(a, b, actor, g))
    ensures var linked := Grouped(s.members, a) && Together(s.members, a, b);
      && (linked <==> GroupsOfBoth(s, a, b) != {})
      && (!linked ==> UnlinkStep(s, a, b, actor, g) == s)
      && (Together(UnlinkStep(s, a, b, actor, g).members, x, y) <==>
            x == y || (Together(s.members, x, y) && !(linked && (x == b || y == b))))
  {
    UnlinkFinds(s, a, b);
    if GroupsOfBoth(s, a, b) != {} { UnlinkRemoves(s, a, b, actor, g, x, y); }
  }

  lemma UnlinkFinds(s: State, a: Incident, b: Incident)
    ensures GroupsOfBoth(s, a, b) != {} <==> Grouped(s.members, a) && Together(s.members, a, b)
  {
    if Grouped(s.members, a) && Together(s.members, a, b) {
      var m, n :| m in s.members && n in s.members && m.incident == a && n.incident == b && m.group == n.group;
      assert m.group in GroupsOfBoth(s, a, b);
    }
  }

  /** A group left with one row has no two members. */
  lemma SmallGroup(rows: set<Member>, m: Member, n: Member)
    requires |rows| < 2 && m in rows && n in rows
    ensures m == n
  {
    if m != n { TwoRows(rows, m, n); }
  }

  lemma UnlinkRemoves(s: State, a: Incident, b: Incident, actor: string, g: GroupId, x: Incident, y: Incident)
    requires Inv(s) && g in GroupsOfBoth(s, a, b)
    ensures Together(UnlinkStep(s, a, b, actor, g).members, x, y) <==>
      x == y || (Together(s.members, x, y) && x != b && y != b)
  {
    var members := UnlinkStep(s, a, b, actor, g).members;
    var left := set m | m in s.members && !(m.group == g && m.incident == b);
    assert forall m :: m in left ==> m.incident != b;
    if x != y && Together(s.members, x, y) && x != b && y != b {
      var m, n :| m in s.members && n in s.members && m.incident == x && n.incident == y && m.group == n.group;
      assert m in left && n in left;
      if m.group == g && |MembersOf(left, g)| < 2 {
        SmallGroup(MembersOf(left, g), m, n);
      } else {
        assert m in members && n in members;
      }
    }
  }

  // ---------------------------------------------------------------- undoing a link

  /** Both tables of memberships put the same incidents together. */
  ghost predicate SameBlocks(members: set<Member>, others: set<Member>) {
    forall x, y :: Together(members, x, y) <==> Together(others, x, y)
  }

  /**
   * Unlinking right after linking restores every block exactly when the target had no group
   * before, or the two were in different groups, so that neither step moved anything.
   */
  lemma UnlinkUndoesLinkIff(s: State, a: Incident, b: Incident, actor: string, g: GroupId, h: GroupId)
    requires Inv(s) && LinkEnabled(s, a, b, g) && Enabled(LinkStep(s, a, b, actor, g), Unlink(a, b, actor, h))
    ensures SameBlocks(UnlinkStep(LinkStep(s, a, b, actor, g), a, b, actor, h).members, s.members)
            <==> !Grouped(s.members, b) || Apart(s.members, a, b)
  {
    if Apart(s.members, a, b) {
      LinkApart(s, a, b, actor, g);
      UnlinkFinds(LinkStep(s, a, b, actor, g), a, b);
    } else if a != b || Grouped(s.members, a) {
      UndoneIfUngrouped(s, a, b, actor, g, h);
    } else {
      SelfLinkUndone(s, a, actor, g, h);
    }
  }

  /** After a link that joined them, the unlink finds both in one group. */
  lemma LinkedTogether(s: State, a: Incident, b: Incident, actor: string, g: GroupId)
    requires Inv(s) && LinkEnabled(s, a, b, g) && !Apart(s.members, a, b) && (a != b || Grouped(s.members, a))
    ensures var linked := LinkStep(s, a, b, actor, g);
      Inv(linked) && Grouped(linked.members, a) && Together(linked.members, a, b)
  {
    LinkKeeps(s, a, b, actor, g);
    LinkMembers(s, a, b, actor, g);
    LinkMerges(s, a, b, actor, g, a, b);
    assert Grouped(s.members, a) || Member(g, a, actor) in LinkStep(s, a, b, actor, g).members;
  }

  lemma UndoneAt(s: State, a: Incident, b: Incident, actor: string, g: GroupId, h: GroupId, x: Incident, y: Incident)
    requires Inv(s) && LinkEnabled(s, a, b, g) && Enabled(LinkStep(s, a, b, actor, g), Unlink(a, b, actor, h))
    requires !Apart(s.members, a, b) && (a != b || Grouped(s.members, a))
    requires !Grouped(s.members, b)
    ensures Together(UnlinkStep(LinkStep(s, a, b, actor, g), a, b, actor, h).members, x, y) <==>
      Together(s.members, x, y)
  {
    LinkedTogether(s, a, b, actor, g);
    LinkMerges(s, a, b, actor, g, x, y);
    UnlinkSplits(LinkStep(s, a, b, actor, g), a, b, actor, h, x, y);
    TogetherIsEquivalence(s.members, x, a, y);
    TogetherIsEquivalence(s.members, y, a, x);
  }

  lemma UndoneIfUngrouped(s: State, a: Incident, b: Incident, actor: string, g: GroupId, h: GroupId)
    requires Inv(s) && LinkEnabled(s, a, b, g) && Enabled(LinkStep(s, a, b, actor, g), Unlink(a, b, actor, h))
    requires !Apart(s.members, a, b) && (a != b || Grouped(s.members, a))
    ensures SameBlocks(UnlinkStep(LinkStep(s, a, b, actor, g), a, b, actor, h).members, s.members) <==>
      !Grouped(s.members, b)
  {
    if Grouped(s.members, b) {
      var c := Companion(s, b);
      LinkedTogether(s, a, b, actor, g);
      UnlinkSplits(LinkStep(s, a, b, actor, g), a, b, actor, h, b, c);
    } else {
      forall x, y
        ensures Together(UnlinkStep(LinkStep(s, a, b, actor, g), a, b, actor, h).members, x, y) <==>
          Together(s.members, x, y)
      {
        UndoneAt(s, a, b, actor, g, h, x, y);
      }
    }
  }

  /** The group of one that a self-link makes goes with its only member. */
  lemma SelfLinkUndone(s: State, a: Incident, actor: string, g: GroupId, h: GroupId)
    requires Inv(s) && !Grouped(s.members, a) && LinkEnabled(s, a, a, g)
    requires Enabled(LinkStep(s, a, a, actor, g), Unlink(a, a, actor, h))
    ensures UnlinkStep(LinkStep(s, a, a, actor, g), a, a, actor, h).members == s.members
  {
    var linked, row := LinkStep(s, a, a, actor, g), Member(g, a, actor);
    LinkMembers(s, a, a, actor, g);
    NoGroups(s, a, a);
    assert linked.members == s.members + {row};
    assert g in GroupsOfBoth(linked, a, a) by { assert row in linked.members; }
    assert h == g;
    assert (set m | m in linked.members && !(m.group == g && m.incident == a)) == s.members;
    assert MembersOf(s.members, g) == {};
  }

  /** Someone else in the group of a grouped incident. */
  ghost function Companion(s: State, b: Incident): (c: Incident)
    requires Inv(s) && Grouped(s.members, b)
    ensures c != b && Together(s.members, b, c)
  {
    var m :| m in s.members && m.incident == b;
    var rows := MembersOf(s.members, m.group);
    assert rows != {m} by { assert |rows| >= 2; }
    assert m in rows;
    var n :| n in rows && n != m;
    n.incident
  }

  // ---------------------------------------------------------------- runs

  function After(s: State, ops: seq<Op>): State
    decreases |ops|
  {
    if ops == [] then s else After(Next(s, ops[0]), ops[1..])
  }

  ghost predicate Legal(s: State, ops: seq<Op>)
    decreases |ops|
  {
    ops == [] || (Enabled(s, ops[0]) && Proper(s, ops[0]) && Legal(Next(s, ops[0]), ops[1..]))
  }

  /** In every run no incident has two groups, no membership dangles, no group is smaller than two. */
  lemma {:induction false} RunKeeps(s: State, ops: seq<Op>)
    requires Inv(s) && Legal(s, ops)
    ensures Inv(After(s, ops))
    decreases |ops|
  {
    if ops != [] {
      NextKeeps(s, ops[0]);
      RunKeeps(Next(s, ops[0]), ops[1..]);
    }
  }
}
