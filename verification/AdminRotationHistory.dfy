/** What a run of admin operations makes of its calls: who asked for what is on record, and nothing else is. */
module AdminRotationHistory {
  import opened Common
  import opened AdminRotation
  import opened AdminRotationRuns

  // ---------------------------------------------------------------- which calls return

  predicate IsRole(r: string) { r == "super_admin" || r == "operator" || r == "auditor" || r == "viewer" }

  predicate RolesFit(roles: seq<string>) { roles != [] && forall r <- roles :: IsRole(r) }

  lemma RolesFitIff(roles: seq<string>)
    ensures ValidateRoles(roles).None? <==> RolesFit(roles)
  {
    ValidRolesIff(roles);
    assert forall r :: r in VALID_ROLES <==> IsRole(r);
    assert forall k :: 0 <= k < |roles| ==> roles[k] in roles;
  }

  predicate Holds(s: State, a: Address, active: bool) { a in s.accounts && s.accounts[a].isActive == active }

  predicate CanExecute(s: State, id: ProposalId, now: int) {
    && id < |s.proposals| && s.proposals[id].status == Approved && now <= s.proposals[id].expiresAt
    && var p := s.proposals[id];
       match p.kind
       case AddAdmin => p.target !in s.accounts && (p.changes.roles.Some? ==> RolesFit(p.changes.roles.value))
       case RemoveAdmin => |Active(s.accounts)| > 2 && Holds(s, p.target, true)
       case ChangeRoles => p.target in s.accounts && (p.changes.roles.Some? ==> RolesFit(p.changes.roles.value))
       case Other(_) => false
  }

  /** When a call returns instead of throwing. */
  predicate Admissible(s: State, op: Op, now: int) {
    match op
    case Add(a, _, _, roles, _, _) => a !in s.accounts && RolesFit(roles)
    case Remove(a, _, _) => |Active(s.accounts)| > 2 && Holds(s, a, true)
    case Change(a, roles, _, _) => a in s.accounts && RolesFit(roles)
    case Activate(a, _) => Holds(s, a, false)
    case Propose(_, _, _, _, _, _) => true
    case Approve(id, actor) =>
      && id < |s.proposals| && s.proposals[id].status == Pending
      && now <= s.proposals[id].expiresAt && actor !in s.proposals[id].approvals
    case Execute(id, _) => CanExecute(s, id, now)
    case Reject(id, _, _) => id < |s.proposals| && s.proposals[id].status == Pending
  }

  lemma ReturnsIff(s: State, op: Op, now: int)
    ensures Do(s, op, now).error.None? <==> Admissible(s, op, now)
  {
    match op {
      case Add(_, _, _, roles, _, _) => RolesFitIff(roles);
      case Change(_, roles, _, _) => RolesFitIff(roles);
      case Execute(id, actor) =>
        ExecutesIff(s, id, actor, now);
        if id < |s.proposals| { RolesFitIff(ProposedRoles(s.proposals[id])); }
      case _ =>
    }
  }

  /** The error names a check that did fail. */
  predicate Blames(s: State, op: Op, now: int, e: Error) {
    match e
    case AlreadyExists(a) => a in s.accounts
    case InvalidRole(r) => !IsRole(r)
    case NoRoles => (op.Add? || op.Change? ==> op.roles == []) && !op.Remove? && !op.Activate?
    case TooFewAdmins(n) => n == |Active(s.accounts)| && n <= 2
    case NotFound(a) => a !in s.accounts
    case AlreadyInactive(a) => Holds(s, a, false)
    case AlreadyActive(a) => Holds(s, a, true)
    case ProposalNotFound(id) => id >= |s.proposals|
    case NotPending(status) => op.Approve? && op.id < |s.proposals| && s.proposals[op.id].status == status != Pending
    case NotApproved(status) => op.Execute? && op.id < |s.proposals| && s.proposals[op.id].status == status != Approved
    case HasExpired => (op.Approve? || op.Execute?) && op.id < |s.proposals| && now > s.proposals[op.id].expiresAt
    case AlreadyApproved => op.Approve? && op.id < |s.proposals| && op.actor in s.proposals[op.id].approvals
    case UnknownType(name) => op.Execute? && op.id < |s.proposals| && s.proposals[op.id].kind == Other(name)
    case NotRejectable => op.Reject? && (op.id < |s.proposals| ==> s.proposals[op.id].status != Pending)
  }

  lemma {:induction false} FirstInvalidIs(roles: seq<string>)
    ensures FirstInvalid(roles).Some? ==> FirstInvalid(roles).value in roles && !IsRole(FirstInvalid(roles).value)
  {
    assert forall r :: r in VALID_ROLES <==> IsRole(r);
    if roles != [] { FirstInvalidIs(roles[1..]); }
  }

  lemma ExecutionBlames(s: State, id: ProposalId, actor: Address, now: int)
    requires ExecuteStep(s, id, actor, now).error.Some?
    ensures Blames(s, Execute(id, actor), now, ExecuteStep(s, id, actor, now).error.value)
  {
    if id < |s.proposals| { FirstInvalidIs(ProposedRoles(s.proposals[id])); }
  }

  lemma ErrorsBlame(s: State, op: Op, now: int)
    requires Do(s, op, now).error.Some?
    ensures Blames(s, op, now, Do(s, op, now).error.value)
  {
    match op {
      case Add(_, _, _, roles, _, _) => FirstInvalidIs(roles);
      case Change(_, roles, _, _) => FirstInvalidIs(roles);
      case Execute(id, actor) => ExecutionBlames(s, id, actor, now);
      case _ =>
    }
  }

  // ---------------------------------------------------------------- what the calls that returned left behind

  type Call = (Op, int)

  /** The calls of a run that returned, in order. */
  function Returned(s: State, run: Run): seq<Call>
    decreases |run|
  {
    if run == [] then []
    else
      var o := Do(s, run[0].0, run[0].1);
      (if o.error.None? then [run[0]] else []) + Returned(o.state, run[1..])
  }

  predicate Writes(op: Op) { op.Add? || op.Remove? || op.Change? || op.Activate? || op.Execute? }

  function Writing(calls: seq<Call>): seq<Call> {
    if calls == [] then []
    else
      var last := calls[|calls| - 1];
      Writing(calls[..|calls| - 1]) + if Writes(last.0) then [last] else []
  }

  function Proposing(calls: seq<Call>): seq<Call> {
    if calls == [] then []
    else
      var last := calls[|calls| - 1];
      Proposing(calls[..|calls| - 1]) + if last.0.Propose? then [last] else []
  }

  function Approving(calls: seq<Call>, id: ProposalId): seq<Address> {
    if calls == [] then []
    else
      var op := calls[|calls| - 1].0;
      Approving(calls[..|calls| - 1], id) + if op.Approve? && op.id == id then [op.actor] else []
  }

  /** The event of a call: its kind, the account, who did it, why and when, and what the account became. */
  predicate Records(e: Event, c: Call) {
    e.createdAt == c.1 && e.after.Some?
    && match c.0
       case Add(a, _, _, roles, actor, why) =>
         e.eventType == Added && e.address == a && e.actor == actor && e.reason == why && e.cause == None
         && e.after.value == Snapshot(Some(roles), Some(true))
       case Remove(a, actor, why) =>
         e.eventType == Removed && e.address == a && e.actor == actor && e.reason == why && e.cause == None
         && e.after.value.isActive == Some(false)
       case Change(a, roles, actor, why) =>
         e.eventType == RoleChanged && e.address == a && e.actor == actor && e.reason == why && e.cause == None
         && e.after.value == Snapshot(Some(roles), None)
       case Activate(a, actor) =>
         e.eventType == Activated && e.address == a && e.actor == actor && e.reason == None && e.cause == None
         && e.after.value == Snapshot(None, Some(true))
       case Execute(id, actor) => e.cause == Some(id) && e.actor == actor
       case _ => false
  }

  /** One event for each call that wrote one, in order. */
  predicate EventsRecord(events: seq<Event>, calls: seq<Call>) {
    |events| == |Writing(calls)| && forall k :: 0 <= k < |events| ==> Records(events[k], Writing(calls)[k])
  }

  /** The approvals a request needs: those it asks for, and never fewer than two. */
  function Needed(required: Option<int>): int {
    match required
    case Some(n) => Max(2, n)
    case None => 2
  }

  /** The proposal is the one requested: what, by whom, how many must approve, and until when. */
  predicate Requested(p: Proposal, c: Call) {
    && c.0.Propose?
    && p.kind == c.0.kind && p.target == c.0.target && p.proposedBy == c.0.actor && p.changes == c.0.changes
    && Quorum(p) == Needed(c.0.required)
    && p.expiresAt - c.1 == (match c.0.hours case Some(h) => h * 3600000 case None => 259200000)
  }

  /** It is approved, or executed, with exactly the approvals requested, and waits or is rejected with fewer. */
  predicate ApprovedAsRequested(p: Proposal, c: Call) {
    && c.0.Propose?
    && (p.status == Approved || p.status == Executed ==> |p.approvals| == Needed(c.0.required))
    && (p.status == Pending || p.status == Rejected ==> |p.approvals| < Needed(c.0.required))
  }

  /** It was requested by its call, and approved by its proposer and then by exactly those who approved it. */
  predicate Matching(proposals: seq<Proposal>, calls: seq<Call>, id: ProposalId)
    requires id < |proposals| == |Proposing(calls)|
  {
    && Requested(proposals[id], Proposing(calls)[id])
    && proposals[id].approvals == [proposals[id].proposedBy] + Approving(calls, id)
  }

  ghost predicate AllMatching(proposals: seq<Proposal>, calls: seq<Call>) {
    && |proposals| == |Proposing(calls)|
    && (forall id :: 0 <= id < |proposals| ==> Matching(proposals, calls, id))
    && (forall id: nat :: id >= |proposals| ==> Approving(calls, id) == [])
  }

  lemma CallsSnoc(calls: seq<Call>, c: Call)
    ensures Writing(calls + [c]) == Writing(calls) + if Writes(c.0) then [c] else []
    ensures Proposing(calls + [c]) == Proposing(calls) + if c.0.Propose? then [c] else []
    ensures forall id ::
      Approving(calls + [c], id) == Approving(calls, id) + if c.0.Approve? && c.0.id == id then [c.0.actor] else []
  {
    assert (calls + [c])[..|calls|] == calls;
  }

  lemma CarryOutWrites(s: State, p: Proposal, id: ProposalId, actor: Address, now: int)
    requires CarryOut(s, p, id, actor, now).error.None?
    ensures var events := CarryOut(s, p, id, actor, now).state.events;
      |events| == |s.events| + 1 && events == s.events + [events[|s.events|]]
      && Records(events[|s.events|], (Execute(id, actor), now))
  {
  }

  lemma WritingStep(s: State, op: Op, now: int)
    requires Do(s, op, now).error.None?
    ensures var events := Do(s, op, now).state.events;
      if Writes(op) then
        |events| == |s.events| + 1 && events == s.events + [events[|s.events|]]
        && Records(events[|s.events|], (op, now))
      else events == s.events
  {
    if op.Execute? { CarryOutWrites(s, s.proposals[op.id], op.id, op.actor, now); }
  }

  lemma StepEvents(s: State, calls: seq<Call>, op: Op, now: int)
    requires EventsRecord(s.events, calls) && Do(s, op, now).error.None?
    ensures EventsRecord(Do(s, op, now).state.events, calls + [(op, now)])
  {
    CallsSnoc(calls, (op, now));
    WritingStep(s, op, now);
  }

  lemma NewRequest(s: State, op: Op, now: int)
    requires op.Propose?
    ensures var s' := Do(s, op, now).state;
      && s'.proposals == s.proposals + [s'.proposals[|s.proposals|]]
      && Requested(s'.proposals[|s.proposals|], (op, now))
      && s'.proposals[|s.proposals|].approvals == [s'.proposals[|s.proposals|].proposedBy]
  {
  }

  lemma OldRequest(s: State, op: Op, now: int, id: ProposalId, c: Call)
    requires id < |s.proposals| && Requested(s.proposals[id], c) && Do(s, op, now).error.None?
    ensures var s' := Do(s, op, now).state;
      && id < |s'.proposals| && Requested(s'.proposals[id], c)
      && s'.proposals[id].approvals
         == s.proposals[id].approvals + if op.Approve? && op.id == id then [op.actor] else []
  {
    if op.Execute? { CarryOutKeepsProposals(s, s.proposals[op.id], op.id, op.actor, now); }
  }

  lemma HowMany(s: State, op: Op, now: int)
    requires Do(s, op, now).error.None?
    ensures |Do(s, op, now).state.proposals| == |s.proposals| + if op.Propose? then 1 else 0
  {
    if op.Execute? { CarryOutKeepsProposals(s, s.proposals[op.id], op.id, op.actor, now); }
  }

  lemma StepProposals(s: State, calls: seq<Call>, op: Op, now: int)
    requires AllMatching(s.proposals, calls) && Do(s, op, now).error.None?
    ensures AllMatching(Do(s, op, now).state.proposals, calls + [(op, now)])
  {
    var proposals, more := Do(s, op, now).state.proposals, calls + [(op, now)];
    CallsSnoc(calls, (op, now));
    HowMany(s, op, now);
    if op.Propose? { NewRequest(s, op, now); }
    forall id | 0 <= id < |proposals|
      ensures Matching(proposals, more, id)
    {
      if id < |s.proposals| {
        assert Matching(s.proposals, calls, id);
        OldRequest(s, op, now, id, Proposing(calls)[id]);
      }
    }
  }

  lemma FailureProposals(s: State, calls: seq<Call>, op: Op, now: int)
    requires AllMatching(s.proposals, calls) && Do(s, op, now).error.Some?
    ensures AllMatching(Do(s, op, now).state.proposals, calls)
  {
    FailureChangesNothing(s, op, now);
    forall id | 0 <= id < |s.proposals|
      ensures Matching(Do(s, op, now).state.proposals, calls, id)
    {
      assert Matching(s.proposals, calls, id);
    }
  }

  lemma {:induction false} RunMatches(s: State, calls: seq<Call>, run: Run)
    requires EventsRecord(s.events, calls) && AllMatching(s.proposals, calls)
    ensures EventsRecord(After(s, run).events, calls + Returned(s, run))
    ensures AllMatching(After(s, run).proposals, calls + Returned(s, run))
    decreases |run|
  {
    if run == [] {
      assert calls + [] == calls;
    } else {
      var o := Do(s, run[0].0, run[0].1);
      if o.error.None? {
        StepEvents(s, calls, run[0].0, run[0].1);
        StepProposals(s, calls, run[0].0, run[0].1);
        RunMatches(o.state, calls + [run[0]], run[1..]);
        assert calls + [run[0]] + Returned(o.state, run[1..]) == calls + Returned(s, run);
      } else {
        FailureChangesNothing(s, run[0].0, run[0].1);
        FailureProposals(s, calls, run[0].0, run[0].1);
        RunMatches(o.state, calls, run[1..]);
        assert Returned(s, run) == Returned(o.state, run[1..]);
      }
    }
  }

  /**
   * After any run from empty tables the events are those of the calls that returned, and the proposals are those
   * requested, each approved by exactly those who approved it and no further than the approvals requested allow.
   */
  lemma EveryCallRecorded(run: Run)
    ensures EventsRecord(After(EMPTY, run).events, Returned(EMPTY, run))
    ensures AllMatching(After(EMPTY, run).proposals, Returned(EMPTY, run))
    ensures forall id :: 0 <= id < |After(EMPTY, run).proposals| ==>
      ApprovedAsRequested(After(EMPTY, run).proposals[id], Proposing(Returned(EMPTY, run))[id])
  {
    RunMatches(EMPTY, [], run);
    EveryRun(run);
    assert [] + Returned(EMPTY, run) == Returned(EMPTY, run);
    var proposals, calls := After(EMPTY, run).proposals, Returned(EMPTY, run);
    forall id | 0 <= id < |proposals|
      ensures ApprovedAsRequested(proposals[id], Proposing(calls)[id])
    {
      assert Matching(proposals, calls, id) && ProposalOk(proposals[id]);
    }
  }

  // ---------------------------------------------------------------- how a proposal ended, and where a name came from

  /** The call that executed or rejected a proposal, or the late one that marked it expired. */
  predicate Ended(p: Proposal, id: ProposalId, past: Run) {
    && (p.status == Executed ==>
          p.executedBy.Some? && p.executedAt.Some? && (Execute(id, p.executedBy.value), p.executedAt.value) in past)
    && (p.status == Rejected ==>
          exists c <- past :: c.0.Reject? && c.0.id == id && p.rejectionReason == Some(c.0.why))
    && (p.status == Expired ==>
          exists c <- past :: (c.0.Approve? || c.0.Execute?) && c.0.id == id && c.1 > p.expiresAt)
  }

  /** The call gave the account its name and email, itself or through the proposal it executed. */
  predicate Names(c: Call, proposals: seq<Proposal>, a: Address, account: Account) {
    match c.0
    case Add(b, name, email, _, _, _) => b == a && account.name == name && account.email == email
    case Execute(id, _) =>
      && id < |proposals| && proposals[id].kind == AddAdmin && proposals[id].target == a
      && account.email == proposals[id].changes.email
      && account.name == (match proposals[id].changes.name case Some(name) => name case None => "Unknown")
    case _ => false
  }

  predicate Named(s: State, past: Run, a: Address)
    requires a in s.accounts
  {
    exists c <- past :: Names(c, s.proposals, a, s.accounts[a])
  }

  predicate Traced(s: State, past: Run) {
    && (forall id :: 0 <= id < |s.proposals| ==> Ended(s.proposals[id], id, past))
    && (forall a <- s.accounts :: Named(s, past, a))
  }

  lemma EndedNext(s: State, past: Run, op: Op, now: int, id: ProposalId)
    requires id < |Do(s, op, now).state.proposals|
    requires id < |s.proposals| ==> Ended(s.proposals[id], id, past)
    ensures Ended(Do(s, op, now).state.proposals[id], id, past + [(op, now)])
  {
    assert (past + [(op, now)])[|past|] == (op, now);
    assert forall c <- past :: c in past + [(op, now)];
    if op.Execute? && op.id < |s.proposals| {
      CarryOutKeepsProposals(s, s.proposals[op.id], op.id, op.actor, now);
    }
  }

  /** What a call may do to the name and email of an account: nothing, unless it adds it. */
  lemma NamesNext(s: State, op: Op, now: int, a: Address)
    requires a in Do(s, op, now).state.accounts
    ensures var account := Do(s, op, now).state.accounts[a];
      if a in s.accounts then account.name == s.accounts[a].name && account.email == s.accounts[a].email
      else Names((op, now), s.proposals, a, account)
  {
  }

  lemma NamesStay(s: State, op: Op, now: int, c: Call, a: Address, was: Account, account: Account)
    requires Names(c, s.proposals, a, was) && account.name == was.name && account.email == was.email
    ensures Names(c, Do(s, op, now).state.proposals, a, account)
  {
    if c.0.Execute? { StepEvolves(s, op, now, c.0.id); }
  }

  lemma NamedNext(s: State, past: Run, op: Op, now: int, a: Address)
    requires a in Do(s, op, now).state.accounts && (a in s.accounts ==> Named(s, past, a))
    ensures Named(Do(s, op, now).state, past + [(op, now)], a)
  {
    var account := Do(s, op, now).state.accounts[a];
    assert (past + [(op, now)])[|past|] == (op, now);
    NamesNext(s, op, now, a);
    if a in s.accounts {
      var c :| c in past && Names(c, s.proposals, a, s.accounts[a]);
      NamesStay(s, op, now, c, a, s.accounts[a], account);
      assert c in past + [(op, now)];
    } else {
      NamesStay(s, op, now, (op, now), a, account, account);
    }
  }

  lemma TracedNext(s: State, past: Run, op: Op, now: int)
    requires Traced(s, past)
    ensures Traced(Do(s, op, now).state, past + [(op, now)])
  {
    var s' := Do(s, op, now).state;
    forall id | 0 <= id < |s'.proposals|
      ensures Ended(s'.proposals[id], id, past + [(op, now)])
    {
      EndedNext(s, past, op, now, id);
    }
    forall a | a in s'.accounts
      ensures Named(s', past + [(op, now)], a)
    {
      NamedNext(s, past, op, now, a);
    }
  }

  lemma {:induction false} RunTraced(s: State, past: Run, run: Run)
    requires Traced(s, past)
    ensures Traced(After(s, run), past + run)
    decreases |run|
  {
    if run == [] {
      assert past + [] == past;
    } else {
      TracedNext(s, past, run[0].0, run[0].1);
      RunTraced(Do(s, run[0].0, run[0].1).state, past + [run[0]], run[1..]);
      assert past + [run[0]] + run[1..] == past + run;
    }
  }

  /** After any run from empty tables every ending of a proposal and every name of an account goes back to a call. */
  lemma EveryRunTraced(run: Run)
    ensures Traced(After(EMPTY, run), run)
  {
    RunTraced(EMPTY, [], run);
    assert [] + run == run;
  }
}
