/** What every run of admin operations keeps. */
module AdminRotationRuns {
  import opened Common
  import opened AdminRotation

  // ---------------------------------------------------------------- the event log explains the accounts

  /** All of an account row but its name and email. */
  datatype View = View(
    roles: seq<string>, isActive: bool, addedBy: Address, activatedAt: Option<int>, deactivatedAt: Option<int>,
    deactivatedBy: Option<Address>, createdAt: int, updatedAt: int)

  function RowView(a: Account): View {
    View(a.roles, a.isActive, a.addedBy, a.activatedAt, a.deactivatedAt, a.deactivatedBy, a.createdAt, a.updatedAt)
  }

  function ViewOf(accounts: map<Address, Account>): map<Address, View> {
    map a | a in accounts :: RowView(accounts[a])
  }

  /** One event laid over what was known of its address: its after state, its actor and its time. */
  function Overlay(known: map<Address, View>, e: Event): map<Address, View> {
    var v := if e.address in known then known[e.address] else View([], false, "", None, None, None, 0, 0);
    var roles := if e.after.Some? && e.after.value.roles.Some? then e.after.value.roles.value else v.roles;
    var isActive := if e.after.Some? && e.after.value.isActive.Some? then e.after.value.isActive.value else v.isActive;
    known[e.address :=
      match e.eventType
      case Added => View(roles, isActive, e.actor, Some(e.createdAt), None, None, e.createdAt, e.createdAt)
      case Removed => v.(roles := roles, isActive := isActive, deactivatedAt := Some(e.createdAt),
                         deactivatedBy := Some(e.actor), updatedAt := e.createdAt)
      case Activated => v.(roles := roles, isActive := isActive, activatedAt := Some(e.createdAt),
                           deactivatedAt := None, deactivatedBy := None, updatedAt := e.createdAt)
      case RoleChanged => v.(roles := roles, isActive := isActive, updatedAt := e.createdAt)]
  }

  function Replay(events: seq<Event>): map<Address, View> {
    if events == [] then map[] else Overlay(Replay(events[..|events| - 1]), events[|events| - 1])
  }

  /** The before state of an event says what the events so far replay to. */
  predicate BeforeAgrees(known: map<Address, View>, e: Event) {
    && (e.before.None? <==> e.address !in known)
    && (e.before.Some? ==>
          && (e.before.value.roles.Some? ==> e.before.value.roles.value == known[e.address].roles)
          && (e.before.value.isActive.Some? ==> e.before.value.isActive.value == known[e.address].isActive))
  }

  predicate Chained(events: seq<Event>) {
    events == [] || (Chained(events[..|events| - 1])
        && BeforeAgrees(Replay(events[..|events| - 1]), events[|events| - 1]))
  }

  predicate Explained(s: State) {
    Replay(s.events) == ViewOf(s.accounts) && Chained(s.events)
  }

  /** The roles of a row are valid, and it carries deactivation data exactly while it is inactive. */
  predicate RowOk(a: Account) {
    ValidateRoles(a.roles).None? && a.activatedAt.Some?
    && (a.isActive <==> a.deactivatedAt.None?) && (a.isActive <==> a.deactivatedBy.None?)
  }

  predicate RowsOk(accounts: map<Address, Account>) {
    forall a <- accounts :: RowOk(accounts[a])
  }

  lemma AddExplains(s: State, address: Address, name: string, email: Option<string>, roles: seq<string>, actor: Address,
                    reason: Option<string>, cause: Option<ProposalId>, now: int)
    requires Explained(s)
    ensures Explained(AddStep(s, address, name, email, roles, actor, reason, cause, now).state)
  {
  }

  lemma RemoveExplains(s: State, address: Address, actor: Address, reason: Option<string>, cause: Option<ProposalId>,
                       now: int)
    requires Explained(s)
    ensures Explained(RemoveStep(s, address, actor, reason, cause, now).state)
  {
  }

  lemma ChangeExplains(s: State, address: Address, roles: seq<string>, actor: Address, reason: Option<string>,
                       cause: Option<ProposalId>, now: int)
    requires Explained(s)
    ensures Explained(ChangeStep(s, address, roles, actor, reason, cause, now).state)
  {
  }

  lemma ActivateExplains(s: State, address: Address, actor: Address, now: int)
    requires Explained(s)
    ensures Explained(ActivateStep(s, address, actor, now).state)
  {
  }

  lemma CarryOutExplains(s: State, p: Proposal, id: ProposalId, actor: Address, now: int)
    requires Explained(s)
    ensures Explained(CarryOut(s, p, id, actor, now).state)
  {
    var reason := Some(EXECUTION_REASON);
    match p.kind {
      case AddAdmin =>
        var name := if p.changes.name.Some? then p.changes.name.value else "Unknown";
        AddExplains(s, p.target, name, p.changes.email, ProposedRoles(p), actor, reason, Some(id), now);
      case RemoveAdmin => RemoveExplains(s, p.target, actor, reason, Some(id), now);
      case ChangeRoles => ChangeExplains(s, p.target, ProposedRoles(p), actor, reason, Some(id), now);
      case Other(_) =>
    }
  }

  lemma DoExplains(s: State, op: Op, now: int)
    requires Explained(s)
    ensures Explained(Do(s, op, now).state)
  {
    match op {
      case Add(address, name, email, roles, actor, reason) =>
        AddExplains(s, address, name, email, roles, actor, reason, None, now);
      case Remove(address, actor, reason) => RemoveExplains(s, address, actor, reason, None, now);
      case Change(address, roles, actor, reason) => ChangeExplains(s, address, roles, actor, reason, None, now);
      case Activate(address, actor) => ActivateExplains(s, address, actor, now);
      case Propose(_, _, _, _, _, _) =>
      case Approve(_, _) =>
      case Execute(id, actor) => if id < |s.proposals| { CarryOutExplains(s, s.proposals[id], id, actor, now); }
      case Reject(_, _, _) =>
    }
  }

  // ---------------------------------------------------------------- the number of active admins

  /** +1 for an event that activates, -1 for one that removes. */
  function Balance(events: seq<Event>): int {
    if events == [] then 0
    else
      Balance(events[..|events| - 1])
      + match events[|events| - 1].eventType {
          case Added => 1 case Activated => 1 case Removed => -1 case RoleChanged => 0
        }
  }

  predicate Balanced(s: State) { |Active(s.accounts)| == Balance(s.events) }

  lemma ActiveUpdate(accounts: map<Address, Account>, a: Address, account: Account)
    ensures var was := a in accounts && accounts[a].isActive;
      |Active(accounts[a := account])| == |Active(accounts)|
        + (if account.isActive then 1 else 0) - if was then 1 else 0
  {
    var before, here := Active(accounts), Active(accounts[a := account]);
    if account.isActive {
      assert here == before + {a};
    } else {
      assert here == before - {a};
    }
  }

  /** How a call may move the table: nothing, or one account row with one event. */
  ghost predicate Moves(s: State, s': State) {
    (s'.accounts == s.accounts && s'.events == s.events)
    || exists a, account, e :: WroteRow(s, s', a, account, e)
  }

  ghost predicate WroteRow(s: State, s': State, a: Address, account: Account, e: Event) {
    && s'.accounts == s.accounts[a := account] && s'.events == s.events + [e]
    && RowOk(account)
    && match e.eventType
       case Added => a !in s.accounts && account.isActive
       case Activated => a in s.accounts && !s.accounts[a].isActive && account.isActive
       case Removed => |Active(s.accounts)| > MINIMUM_ADMIN_COUNT && a in s.accounts
                        && s.accounts[a].isActive && !account.isActive
       case RoleChanged => a in s.accounts && account.isActive == s.accounts[a].isActive
  }

  lemma WriteMoves(s: State, a: Address, account: Account, e: Event)
    requires WroteRow(s, Write(s, a, account, e).state, a, account, e)
    ensures Moves(s, Write(s, a, account, e).state)
  {
  }

  lemma AddMoves(s: State, address: Address, name: string, email: Option<string>, roles: seq<string>, actor: Address,
                 reason: Option<string>, cause: Option<ProposalId>, now: int)
    ensures Moves(s, AddStep(s, address, name, email, roles, actor, reason, cause, now).state)
  {
    if address !in s.accounts && ValidateRoles(roles).None? {
      WriteMoves(s, address, Account(name, email, roles, true, actor, Some(now), None, None, now, now),
                 Event(Added, address, actor, None, Some(Snapshot(Some(roles), Some(true))), reason, now, cause));
    }
  }

  lemma RemoveMoves(s: State, address: Address, actor: Address, reason: Option<string>, cause: Option<ProposalId>,
                    now: int)
    requires RowsOk(s.accounts)
    ensures Moves(s, RemoveStep(s, address, actor, reason, cause, now).state)
  {
    if |Active(s.accounts)| > MINIMUM_ADMIN_COUNT && address in s.accounts && s.accounts[address].isActive {
      var admin := s.accounts[address];
      WriteMoves(s, address,
                 admin.(isActive := false, deactivatedAt := Some(now), deactivatedBy := Some(actor), updatedAt := now),
                 Event(Removed, address, actor, Some(Snapshot(Some(admin.roles), Some(admin.isActive))),
                       Some(Snapshot(Some(admin.roles), Some(false))), reason, now, cause));
    }
  }

  lemma ChangeMoves(s: State, address: Address, roles: seq<string>, actor: Address, reason: Option<string>,
                    cause: Option<ProposalId>, now: int)
    requires RowsOk(s.accounts)
    ensures Moves(s, ChangeStep(s, address, roles, actor, reason, cause, now).state)
  {
    if address in s.accounts && ValidateRoles(roles).None? {
      var admin := s.accounts[address];
      WriteMoves(s, address, admin.(roles := roles, updatedAt := now),
                 Event(RoleChanged, address, actor, Some(Snapshot(Some(admin.roles), None)),
                       Some(Snapshot(Some(roles), None)), reason, now, cause));
    }
  }

  lemma ActivateMoves(s: State, address: Address, actor: Address, now: int)
    requires RowsOk(s.accounts)
    ensures Moves(s, ActivateStep(s, address, actor, now).state)
  {
    if address in s.accounts && !s.accounts[address].isActive {
      var admin := s.accounts[address];
      WriteMoves(s, address,
                 admin.(isActive := true, activatedAt := Some(now), deactivatedAt := None,
                        deactivatedBy := None, updatedAt := now),
                 Event(Activated, address, actor, Some(Snapshot(None, Some(false))), Some(Snapshot(None, Some(true))),
                       None, now, None));
    }
  }

  lemma CarryOutMoves(s: State, p: Proposal, id: ProposalId, actor: Address, now: int)
    requires RowsOk(s.accounts)
    ensures Moves(s, CarryOut(s, p, id, actor, now).state)
  {
    var reason := Some(EXECUTION_REASON);
    match p.kind {
      case AddAdmin =>
        var name := if p.changes.name.Some? then p.changes.name.value else "Unknown";
        AddMoves(s, p.target, name, p.changes.email, ProposedRoles(p), actor, reason, Some(id), now);
      case RemoveAdmin => RemoveMoves(s, p.target, actor, reason, Some(id), now);
      case ChangeRoles => ChangeMoves(s, p.target, ProposedRoles(p), actor, reason, Some(id), now);
      case Other(_) =>
    }
  }

  lemma SameTables(s: State, mid: State, s': State)
    requires Moves(s, mid) && s'.accounts == mid.accounts && s'.events == mid.events
    ensures Moves(s, s')
  {
    if s'.accounts != s.accounts || s'.events != s.events {
      var a, account, e :| WroteRow(s, mid, a, account, e);
      assert WroteRow(s, s', a, account, e);
    }
  }

  lemma ExecuteMoves(s: State, id: ProposalId, actor: Address, now: int)
    requires RowsOk(s.accounts)
    ensures Moves(s, ExecuteStep(s, id, actor, now).state)
  {
    if id < |s.proposals| && s.proposals[id].status == Approved && now <= s.proposals[id].expiresAt {
      var p := s.proposals[id];
      CarryOutMoves(s, p, id, actor, now);
      SameTables(s, CarryOut(s, p, id, actor, now).state, ExecuteStep(s, id, actor, now).state);
    }
  }

  lemma DoMoves(s: State, op: Op, now: int)
    requires RowsOk(s.accounts)
    ensures Moves(s, Do(s, op, now).state)
  {
    match op {
      case Add(address, name, email, roles, actor, reason) =>
        AddMoves(s, address, name, email, roles, actor, reason, None, now);
      case Remove(address, actor, reason) => RemoveMoves(s, address, actor, reason, None, now);
      case Change(address, roles, actor, reason) => ChangeMoves(s, address, roles, actor, reason, None, now);
      case Activate(address, actor) => ActivateMoves(s, address, actor, now);
      case Propose(_, _, _, _, _, _) =>
      case Approve(_, _) =>
      case Execute(id, actor) => ExecuteMoves(s, id, actor, now);
      case Reject(_, _, _) =>
    }
  }

  /**
   * A move changes the number of active admins by what its event says, and never takes it from two
   * or more below two.
   */
  lemma MoveCounts(s: State, s': State)
    requires Moves(s, s') && Balanced(s) && RowsOk(s.accounts)
    ensures Balanced(s') && RowsOk(s'.accounts)
    ensures |Active(s.accounts)| >= MINIMUM_ADMIN_COUNT ==> |Active(s'.accounts)| >= MINIMUM_ADMIN_COUNT
  {
    if s'.accounts != s.accounts || s'.events != s.events {
      var a, account, e :| WroteRow(s, s', a, account, e);
      ActiveUpdate(s.accounts, a, account);
    }
  }

  // ---------------------------------------------------------------- proposals

  function Quorum(p: Proposal): int { Max(2, p.required) }

  predicate ProposalOk(p: Proposal) {
    && p.approvals != [] && p.approvals[0] == p.proposedBy
    && (forall i, j :: 0 <= i < j < |p.approvals| ==> p.approvals[i] != p.approvals[j])
    && (p.status == Pending || p.status == Rejected ==> |p.approvals| < Quorum(p))
    && (p.status == Approved || p.status == Executed ==> |p.approvals| == Quorum(p))
    && |p.approvals| <= Quorum(p)
    && (p.status == Executed <==> p.executedAt.Some?) && (p.status == Executed <==> p.executedBy.Some?)
    && (p.status == Executed ==> p.executedAt.value <= p.expiresAt)
    && (p.status == Rejected <==> p.rejectionReason.Some?)
  }

  predicate ProposalsOk(proposals: seq<Proposal>) {
    forall id :: 0 <= id < |proposals| ==> ProposalOk(proposals[id])
  }

  /** Executed, rejected and expired are final; an approved proposal leaves only by execution or expiry. */
  predicate Evolves(p: Proposal, q: Proposal) {
    && q.kind == p.kind && q.target == p.target && q.proposedBy == p.proposedBy && q.changes == p.changes
    && q.required == p.required && q.expiresAt == p.expiresAt
    && p.approvals <= q.approvals
    && (p.status == Executed || p.status == Rejected || p.status == Expired ==> q == p)
    && (p.status == Approved ==>
          q.approvals == p.approvals && (q.status == Approved || q.status == Executed || q.status == Expired))
  }

  lemma CarryOutKeepsProposals(s: State, p: Proposal, id: ProposalId, actor: Address, now: int)
    ensures CarryOut(s, p, id, actor, now).state.proposals == s.proposals
  {
  }

  lemma ApproveKeeps(s: State, id: ProposalId, actor: Address, now: int)
    requires ProposalsOk(s.proposals)
    ensures ProposalsOk(ApproveStep(s, id, actor, now).state.proposals)
  {
  }

  lemma ExecuteKeeps(s: State, id: ProposalId, actor: Address, now: int)
    requires ProposalsOk(s.proposals)
    ensures ProposalsOk(ExecuteStep(s, id, actor, now).state.proposals)
  {
    if id < |s.proposals| {
      CarryOutKeepsProposals(s, s.proposals[id], id, actor, now);
      assert ProposalOk(s.proposals[id]);
    }
  }

  lemma ProposalsKeep(s: State, op: Op, now: int)
    requires ProposalsOk(s.proposals)
    ensures ProposalsOk(Do(s, op, now).state.proposals)
  {
    match op {
      case Add(_, _, _, _, _, _) =>
      case Remove(_, _, _) =>
      case Change(_, _, _, _) =>
      case Activate(_, _) =>
      case Propose(_, _, _, _, _, _) =>
      case Approve(id, actor) => ApproveKeeps(s, id, actor, now);
      case Execute(id, actor) => ExecuteKeeps(s, id, actor, now);
      case Reject(id, _, _) => assert id < |s.proposals| ==> ProposalOk(s.proposals[id]);
    }
  }

  lemma StepEvolves(s: State, op: Op, now: int, id: ProposalId)
    requires id < |s.proposals|
    ensures id < |Do(s, op, now).state.proposals| && Evolves(s.proposals[id], Do(s, op, now).state.proposals[id])
  {
    if op.Execute? && op.id < |s.proposals| {
      CarryOutKeepsProposals(s, s.proposals[op.id], op.id, op.actor, now);
    }
  }

  /** A proposal only moves forward, over any run. */
  lemma {:induction false} RunEvolves(s: State, run: Run, id: ProposalId)
    requires id < |s.proposals|
    ensures id < |After(s, run).proposals| && Evolves(s.proposals[id], After(s, run).proposals[id])
    decreases |run|
  {
    if run != [] {
      StepEvolves(s, run[0].0, run[0].1, id);
      RunEvolves(Do(s, run[0].0, run[0].1).state, run[1..], id);
    }
  }

  // ---------------------------------------------------------------- each executed proposal took effect exactly once

  function Caused(events: seq<Event>, id: ProposalId): seq<Event> {
    if events == [] then []
    else
      var e := events[|events| - 1];
      Caused(events[..|events| - 1], id) + if e.cause == Some(id) then [e] else []
  }

  /** The event is the proposed change, done by the executor. */
  predicate Fulfils(p: Proposal, e: Event) {
    && e.address == p.target && p.executedBy == Some(e.actor) && p.executedAt == Some(e.createdAt)
    && e.reason == Some(EXECUTION_REASON)
    && var roles := match p.changes.roles case Some(listed) => listed case None => ["viewer"];
       match p.kind
       case AddAdmin => e.eventType == Added && e.after == Some(Snapshot(Some(roles), Some(true)))
       case RemoveAdmin => e.eventType == Removed && e.after.Some? && e.after.value.isActive == Some(false)
       case ChangeRoles => e.eventType == RoleChanged && e.after == Some(Snapshot(Some(roles), None))
       case Other(_) => false
  }

  predicate OnceOk(s: State, id: ProposalId)
    requires id < |s.proposals|
  {
    var effects := Caused(s.events, id);
    if s.proposals[id].status == Executed then |effects| == 1 && Fulfils(s.proposals[id], effects[0]) else effects == []
  }

  predicate Once(s: State) {
    && (forall id :: 0 <= id < |s.proposals| ==> OnceOk(s, id))
    && (forall k :: 0 <= k < |s.events| && s.events[k].cause.Some? ==> s.events[k].cause.value < |s.proposals|)
  }

  lemma {:induction false} NoneCaused(events: seq<Event>, id: ProposalId)
    requires forall k :: 0 <= k < |events| ==> events[k].cause != Some(id)
    ensures Caused(events, id) == []
  {
    if events != [] { NoneCaused(events[..|events| - 1], id); }
  }

  /** A step outside executions, and a failing execution: no caused event is written. */
  ghost predicate Quiet(s: State, s': State) {
    && (s'.events == s.events || (|s'.events| == |s.events| + 1 && s'.events == s.events + [s'.events[|s.events|]]
                                  && s'.events[|s.events|].cause.None?))
    && |s.proposals| <= |s'.proposals| <= |s.proposals| + 1
    && (forall id :: 0 <= id < |s.proposals| ==>
          (s'.proposals[id].status == Executed <==> s.proposals[id].status == Executed)
          && (s.proposals[id].status == Executed ==> s'.proposals[id] == s.proposals[id]))
    && (|s'.proposals| > |s.proposals| ==> s'.proposals[|s.proposals|].status == Pending && s'.events == s.events)
  }

  lemma QuietOnce(s: State, s': State)
    requires Once(s) && Quiet(s, s')
    ensures Once(s')
  {
    forall id | 0 <= id < |s'.proposals|
      ensures OnceOk(s', id)
    {
      if id < |s.proposals| {
        assert OnceOk(s, id);
      } else {
        NoneCaused(s.events, id);
      }
    }
  }

  lemma ExecuteOnce(s: State, id: ProposalId, actor: Address, now: int)
    requires Once(s) && id < |s.proposals| && ExecuteStep(s, id, actor, now).error.None?
    ensures Once(ExecuteStep(s, id, actor, now).state)
  {
    var p, s' := s.proposals[id], ExecuteStep(s, id, actor, now).state;
    var e := s'.events[|s.events|];
    assert OnceOk(s, id);
    forall k | 0 <= k < |s'.proposals|
      ensures OnceOk(s', k)
    {
      assert OnceOk(s, k);
      assert Fulfils(s'.proposals[id], e) by {
        assert Fulfils(p.(executedBy := Some(actor), executedAt := Some(now)), e);
      }
    }
  }

  lemma DoOnce(s: State, op: Op, now: int)
    requires Once(s)
    ensures Once(Do(s, op, now).state)
  {
    var s' := Do(s, op, now).state;
    if op.Execute? {
      if Do(s, op, now).error.None? {
        ExecuteOnce(s, op.id, op.actor, now);
      } else {
        QuietOnce(s, s');
      }
    } else {
      QuietOnce(s, s');
    }
  }

  // ---------------------------------------------------------------- runs

  predicate Inv(s: State) {
    Explained(s) && RowsOk(s.accounts) && Balanced(s) && ProposalsOk(s.proposals) && Once(s)
  }

  lemma InvDo(s: State, op: Op, now: int)
    requires Inv(s)
    ensures Inv(Do(s, op, now).state)
    ensures |Active(s.accounts)| >= MINIMUM_ADMIN_COUNT ==>
      |Active(Do(s, op, now).state.accounts)| >= MINIMUM_ADMIN_COUNT
  {
    DoExplains(s, op, now);
    DoMoves(s, op, now);
    MoveCounts(s, Do(s, op, now).state);
    ProposalsKeep(s, op, now);
    DoOnce(s, op, now);
  }

  /** Every run keeps the invariant, and two active admins stay at least two. */
  lemma {:induction false} RunKeeps(s: State, run: Run)
    requires Inv(s)
    ensures Inv(After(s, run))
    ensures |Active(s.accounts)| >= MINIMUM_ADMIN_COUNT ==> |Active(After(s, run).accounts)| >= MINIMUM_ADMIN_COUNT
    decreases |run|
  {
    if run != [] {
      InvDo(s, run[0].0, run[0].1);
      RunKeeps(Do(s, run[0].0, run[0].1).state, run[1..]);
    }
  }

  /**
   * In any run from empty tables: replaying the events gives the roles, the active flag and all
   * else but name and email of every account, each before state agrees with the events before
   * it, the number of active admins is additions and activations less removals, and every
   * proposal is accounted for.
   */
  lemma EveryRun(run: Run)
    ensures var s := After(EMPTY, run);
      && Replay(s.events) == ViewOf(s.accounts) && Chained(s.events)
      && |Active(s.accounts)| == Balance(s.events)
      && ProposalsOk(s.proposals) && Once(s)
  {
    assert ViewOf(EMPTY.accounts) == map[];
    assert Active(EMPTY.accounts) == {};
    RunKeeps(EMPTY, run);
  }

  /** A call that throws leaves every table as it was, except that it may mark an overdue proposal expired. */
  lemma FailureChangesNothing(s: State, op: Op, now: int)
    requires Do(s, op, now).error.Some?
    ensures var r := Do(s, op, now);
      r.state == s
      || (r.error == Some(HasExpired) && (op.Approve? || op.Execute?) && op.id < |s.proposals|
          && now > s.proposals[op.id].expiresAt && r.state == Put(s, op.id, s.proposals[op.id].(status := Expired)))
  {
  }

  /** Exactly when an approved proposal can be executed now. */
  lemma ExecutesIff(s: State, id: ProposalId, actor: Address, now: int)
    ensures ExecuteStep(s, id, actor, now).error.None? <==>
      && id < |s.proposals|
      && var p := s.proposals[id];
        && p.status == Approved && now <= p.expiresAt
        && (p.kind == AddAdmin || p.kind == ChangeRoles ==> ValidateRoles(ProposedRoles(p)).None?)
        && (p.kind == AddAdmin ==> p.target !in s.accounts)
        && (p.kind == ChangeRoles ==> p.target in s.accounts)
        && (p.kind == RemoveAdmin ==> |Active(s.accounts)| > 2 && p.target in Active(s.accounts))
        && !p.kind.Other?
  {
  }

  /** Roles are accepted exactly when there is one and all are known. */
  lemma {:induction false} ValidRolesIff(roles: seq<string>)
    ensures ValidateRoles(roles).None? <==> roles != [] && forall k :: 0 <= k < |roles| ==> roles[k] in VALID_ROLES
  {
    AllKnown(roles);
  }

  lemma {:induction false} AllKnown(roles: seq<string>)
    ensures FirstInvalid(roles).None? <==> forall k :: 0 <= k < |roles| ==> roles[k] in VALID_ROLES
  {
    if roles != [] {
      AllKnown(roles[1..]);
      assert roles == [roles[0]] + roles[1..];
    }
  }
}
