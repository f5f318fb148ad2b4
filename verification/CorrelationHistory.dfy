/** What a run of correlation calls leaves on record: its audit rows, and who linked or created what. */
module CorrelationHistory {
  import opened Common
  import opened Correlation

  type History = seq<Op>

  /** The incidents sit in one group of the table. */
  predicate Share(members: set<Member>, a: Incident, b: Incident) {
    exists m, n :: m in members && n in members && m.incident == a && n.incident == b && m.group == n.group
  }

  lemma ShareIff(s: State, a: Incident, b: Incident)
    ensures GroupsOfBoth(s, a, b) != {} <==> Share(s.members, a, b)
  {
    if m, n :| m in s.members && n in s.members && m.incident == a && n.incident == b && m.group == n.group {
      assert m.group in GroupsOfBoth(s, a, b);
    }
  }

  /** A call and one action it puts on record. */
  type Note = (Action, Op)

  /** A link is one row, an approval two, and an unlink one if it finds a group. */
  function Notes(s: State, op: Op): seq<Note> {
    match op
    case Link(_, _, _, _) => [(Linked, op)]
    case ApproveSuggestion(_, _, _, _) => [(Linked, op), (Approved, op)]
    case Unlink(a, b, _, _) => if Share(s.members, a, b) then [(Unlinked, op)] else []
  }

  function AllNotes(s: State, ops: History): seq<Note>
    decreases |ops|
  {
    if ops == [] then [] else Notes(s, ops[0]) + AllNotes(Next(s, ops[0]), ops[1..])
  }

  /** The audit row of a note; its group is cleared once the group is gone. */
  predicate Says(a: Audit, n: Note) {
    && a.action == n.0 && a.incident == n.1.incident && a.target == n.1.target && a.actor == n.1.actor
    && (a.group == None || a.group == Some(n.1.group))
  }

  predicate AllSaid(audits: seq<Audit>, notes: seq<Note>) {
    |audits| == |notes| && forall k :: 0 <= k < |audits| ==> Says(audits[k], notes[k])
  }

  lemma UnlinkSays(s: State, notes: seq<Note>, a: Incident, b: Incident, actor: string, g: GroupId)
    requires AllSaid(s.audits, notes)
    ensures AllSaid(UnlinkStep(s, a, b, actor, g).audits, notes + Notes(s, Unlink(a, b, actor, g)))
  {
    ShareIff(s, a, b);
  }

  lemma StepSays(s: State, notes: seq<Note>, op: Op)
    requires AllSaid(s.audits, notes)
    ensures AllSaid(Next(s, op).audits, notes + Notes(s, op))
  {
    if op.Unlink? { UnlinkSays(s, notes, op.incident, op.target, op.actor, op.group); }
  }

  lemma {:induction false} RunSays(s: State, notes: seq<Note>, ops: History, all: seq<Note>)
    requires AllSaid(s.audits, notes) && all == notes + AllNotes(s, ops)
    ensures AllSaid(After(s, ops).audits, all)
    decreases |ops|
  {
    if ops == [] {
      assert all == notes;
    } else {
      StepSays(s, notes, ops[0]);
      assert all == notes + Notes(s, ops[0]) + AllNotes(Next(s, ops[0]), ops[1..]);
      RunSays(Next(s, ops[0]), notes + Notes(s, ops[0]), ops[1..], all);
    }
  }

  /** The audit rows of a run are those of its calls, in order. */
  lemma {:induction false} EveryCallSaid(ops: History)
    ensures AllSaid(After(EMPTY, ops).audits, AllNotes(EMPTY, ops))
  {
    RunSays(EMPTY, [], ops, AllNotes(EMPTY, ops));
  }

  // ---------------------------------------------------------------- who linked what

  /** The call linked the incident into the group. */
  predicate Links(op: Op, m: Member) {
    !op.Unlink? && (m.incident == op.incident || m.incident == op.target) && m == Member(op.group, m.incident, op.actor)
  }

  predicate Creates(op: Op, g: GroupId, creator: string) { !op.Unlink? && op.group == g && op.actor == creator }

  predicate MemberTraced(past: History, m: Member) { exists op <- past :: Links(op, m) }

  predicate GroupTraced(past: History, g: GroupId, creator: string) { exists op <- past :: Creates(op, g, creator) }

  predicate Traced(s: State, past: History) {
    && (forall m :: m in s.members ==> MemberTraced(past, m))
    && (forall g <- s.groups :: GroupTraced(past, g, s.groups[g]))
  }

  lemma NewMembers(s: State, op: Op, m: Member)
    requires m in Next(s, op).members && m !in s.members
    ensures Links(op, m)
  {
  }

  lemma NewGroups(s: State, op: Op, g: GroupId)
    requires g in Next(s, op).groups
    ensures (g in s.groups && Next(s, op).groups[g] == s.groups[g]) || Creates(op, g, Next(s, op).groups[g])
  {
  }

  lemma StepTraced(s: State, past: History, op: Op)
    requires Traced(s, past)
    ensures Traced(Next(s, op), past + [op])
  {
    var s' := Next(s, op);
    assert op in past + [op] && forall p <- past :: p in past + [op];
    forall m | m in s'.members
      ensures MemberTraced(past + [op], m)
    {
      if m in s.members { assert MemberTraced(past, m); } else { NewMembers(s, op, m); }
    }
    forall g | g in s'.groups
      ensures GroupTraced(past + [op], g, s'.groups[g])
    {
      NewGroups(s, op, g);
      if g in s.groups { assert GroupTraced(past, g, s.groups[g]); }
    }
  }

  lemma {:induction false} RunTraced(s: State, past: History, ops: History, all: History)
    requires Traced(s, past) && all == past + ops
    ensures Traced(After(s, ops), all)
    decreases |ops|
  {
    if ops == [] {
      assert all == past;
    } else {
      StepTraced(s, past, ops[0]);
      assert all == past + [ops[0]] + ops[1..];
      RunTraced(Next(s, ops[0]), past + [ops[0]], ops[1..], all);
    }
  }

  /** Every membership and every group of a run goes back to a link by its actor. */
  lemma {:induction false} EveryRowTraced(ops: History)
    ensures Traced(After(EMPTY, ops), ops)
  {
    RunTraced(EMPTY, [], ops, ops);
  }
}
