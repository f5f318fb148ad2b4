/**
 * backend/src/services/adminRotation.service.ts: admin accounts, their rotation events
 * and the multi-signature proposals. Each call is one step at a given time; proposal ids
 * are positions in the table, in place of UUIDs.
 */
module AdminRotation {
  import opened Common

  type Address = string
  type ProposalId = nat

  datatype Account = Account(
    name: string, email: Option<string>, roles: seq<string>, isActive: bool, addedBy: Address,
    activatedAt: Option<int>, deactivatedAt: Option<int>, deactivatedBy: Option<Address>,
    createdAt: int, updatedAt: int)

  datatype EventType = Added | Removed | Activated | RoleChanged

  /** The JSON of a before or after state: only the fields the event mentions. */
  datatype Snapshot = Snapshot(roles: Option<seq<string>>, isActive: Option<bool>)

  /** `cause` is history, not a column: the proposal whose execution wrote the event. */
  datatype Event = Event(
    eventType: EventType, address: Address, actor: Address, before: Option<Snapshot>, after: Option<Snapshot>,
    reason: Option<string>, createdAt: int, cause: Option<ProposalId>)

  datatype ProposalType = AddAdmin | RemoveAdmin | ChangeRoles | Other(name: string)

  datatype Status = Pending | Approved | Rejected | Executed | Expired

  datatype Changes = Changes(name: Option<string>, email: Option<string>, roles: Option<seq<string>>)

  datatype Proposal = Proposal(
    kind: ProposalType, target: Address, proposedBy: Address, changes: Changes, status: Status, approvals: seq<Address>,
    required: int, expiresAt: int, executedAt: Option<int>, executedBy: Option<Address>,
    rejectionReason: Option<string>)

  datatype State = State(accounts: map<Address, Account>, events: seq<Event>, proposals: seq<Proposal>)

  datatype Error =
    | AlreadyExists(address: Address)
    | InvalidRole(role: string)
    | NoRoles
    | TooFewAdmins(active: nat)
    | NotFound(address: Address)
    | AlreadyInactive(address: Address)
    | AlreadyActive(address: Address)
    | ProposalNotFound(id: ProposalId)
    | NotPending(status: Status)
    | NotApproved(status: Status)
    | HasExpired
    | AlreadyApproved
    | UnknownType(name: string)
    | NotRejectable

  datatype Outcome = Outcome(state: State, error: Option<Error>)

  datatype Op =
    | Add(address: Address, name: string, email: Option<string>, roles: seq<string>, actor: Address,
          reason: Option<string>)
    | Remove(address: Address, actor: Address, reason: Option<string>)
    | Change(address: Address, roles: seq<string>, actor: Address, reason: Option<string>)
    | Activate(address: Address, actor: Address)
    | Propose(kind: ProposalType, target: Address, actor: Address, changes: Changes, required: Option<int>,
              hours: Option<int>)
    | Approve(id: ProposalId, actor: Address)
    | Execute(id: ProposalId, actor: Address)
    | Reject(id: ProposalId, actor: Address, why: string)

  const MINIMUM_ADMIN_COUNT := 2
  const DEFAULT_REQUIRED_APPROVALS := 2
  const DEFAULT_PROPOSAL_EXPIRY_HOURS := 72
  const HOUR_MS := 60 * 60 * 1000
  const EXECUTION_REASON := "Executed from approved proposal"

  const VALID_ROLES: seq<string> := ["super_admin", "operator", "auditor", "viewer"]

  const EMPTY := State(map[], [], [])

  function FirstInvalid(roles: seq<string>): Option<string> {
    if roles == [] then None
    else if roles[0] !in VALID_ROLES then Some(roles[0])
    else FirstInvalid(roles[1..])
  }

  function ValidateRoles(roles: seq<string>): Option<Error> {
    if FirstInvalid(roles).Some? then Some(InvalidRole(FirstInvalid(roles).value))
    else if roles == [] then Some(NoRoles)
    else None
  }

  function Active(accounts: map<Address, Account>): set<Address> {
    set a | a in accounts && accounts[a].isActive
  }

  function Fail(s: State, e: Error): Outcome { Outcome(s, Some(e)) }

  /** The account row and its event, written together. */
  function Write(s: State, address: Address, account: Account, event: Event): Outcome {
    Outcome(s.(accounts := s.accounts[address := account], events := s.events + [event]), None)
  }

  function AddStep(s: State, address: Address, name: string, email: Option<string>, roles: seq<string>, actor: Address,
                   reason: Option<string>, cause: Option<ProposalId>, now: int): Outcome
  {
    if address in s.accounts then Fail(s, AlreadyExists(address))
    else if ValidateRoles(roles).Some? then Fail(s, ValidateRoles(roles).value)
    else
      Write(s, address, Account(name, email, roles, true, actor, Some(now), None, None, now, now),
            Event(Added, address, actor, None, Some(Snapshot(Some(roles), Some(true))), reason, now, cause))
  }

  function RemoveStep(s: State, address: Address, actor: Address, reason: Option<string>, cause: Option<ProposalId>,
                      now: int): Outcome {
    if |Active(s.accounts)| <= MINIMUM_ADMIN_COUNT then Fail(s, TooFewAdmins(|Active(s.accounts)|))
    else if address !in s.accounts then Fail(s, NotFound(address))
    else
      var admin := s.accounts[address];
      if !admin.isActive then Fail(s, AlreadyInactive(address))
      else
        Write(s, address,
              admin.(isActive := false, deactivatedAt := Some(now), deactivatedBy := Some(actor), updatedAt := now),
              Event(Removed, address, actor, Some(Snapshot(Some(admin.roles), Some(admin.isActive))),
                    Some(Snapshot(Some(admin.roles), Some(false))), reason, now, cause))
  }

  function ChangeStep(s: State, address: Address, roles: seq<string>, actor: Address, reason: Option<string>,
                      cause: Option<ProposalId>, now: int): Outcome
  {
    if ValidateRoles(roles).Some? then Fail(s, ValidateRoles(roles).value)
    else if address !in s.accounts then Fail(s, NotFound(address))
    else
      var admin := s.accounts[address];
      Write(s, address, admin.(roles := roles, updatedAt := now),
            Event(RoleChanged, address, actor, Some(Snapshot(Some(admin.roles), None)),
                  Some(Snapshot(Some(roles), None)),
                  reason, now, cause))
  }

  function ActivateStep(s: State, address: Address, actor: Address, now: int): Outcome {
    if address !in s.accounts then Fail(s, NotFound(address))
    else
      var admin := s.accounts[address];
      if admin.isActive then Fail(s, AlreadyActive(address))
      else
        Write(s, address,
              admin.(isActive := true, activatedAt := Some(now), deactivatedAt := None,
                     deactivatedBy := None, updatedAt := now),
              Event(Activated, address, actor, Some(Snapshot(None, Some(false))), Some(Snapshot(None, Some(true))),
                    None, now, None))
  }

  function ProposeStep(s: State, kind: ProposalType, target: Address, actor: Address, changes: Changes,
                       required: Option<int>,
                       hours: Option<int>, now: int): Outcome
  {
    var needed := if required.Some? then required.value else DEFAULT_REQUIRED_APPROVALS;
    var length := if hours.Some? then hours.value else DEFAULT_PROPOSAL_EXPIRY_HOURS;
    var p := Proposal(kind, target, actor, changes, Pending, [actor], needed, now + length * HOUR_MS, None, None, None);
    Outcome(s.(proposals := s.proposals + [p]), None)
  }

  function Put(s: State, id: ProposalId, p: Proposal): State
    requires id < |s.proposals|
  {
    s.(proposals := s.proposals[id := p])
  }

  function ApproveStep(s: State, id: ProposalId, actor: Address, now: int): Outcome {
    if id >= |s.proposals| then Fail(s, ProposalNotFound(id))
    else
      var p := s.proposals[id];
      if p.status != Pending then Fail(s, NotPending(p.status))
      else if now > p.expiresAt then Fail(Put(s, id, p.(status := Expired)), HasExpired)
      else if actor in p.approvals then Fail(s, AlreadyApproved)
      else
        var approvals := p.approvals + [actor];
        Outcome(Put(s, id, p.(approvals := approvals,
                             status := if |approvals| >= p.required then Approved else Pending)), None)
  }

  /** The roles an execution applies: those proposed, or `viewer`. */
  function ProposedRoles(p: Proposal): seq<string> {
    if p.changes.roles.Some? then p.changes.roles.value else ["viewer"]
  }

  function CarryOut(s: State, p: Proposal, id: ProposalId, actor: Address, now: int): Outcome {
    match p.kind
    case AddAdmin =>
      var name := if p.changes.name.Some? then p.changes.name.value else "Unknown";
      AddStep(s, p.target, name, p.changes.email, ProposedRoles(p), actor, Some(EXECUTION_REASON), Some(id), now)
    case RemoveAdmin => RemoveStep(s, p.target, actor, Some(EXECUTION_REASON), Some(id), now)
    case ChangeRoles => ChangeStep(s, p.target, ProposedRoles(p), actor, Some(EXECUTION_REASON), Some(id), now)
    case Other(name) => Fail(s, UnknownType(name))
  }

  function ExecuteStep(s: State, id: ProposalId, actor: Address, now: int): Outcome {
    if id >= |s.proposals| then Fail(s, ProposalNotFound(id))
    else
      var p := s.proposals[id];
      if p.status != Approved then Fail(s, NotApproved(p.status))
      else if now > p.expiresAt then Fail(Put(s, id, p.(status := Expired)), HasExpired)
      else
        var carried := CarryOut(s, p, id, actor, now);
        if carried.error.Some? then carried
        else Outcome(Put(carried.state, id,
                         p.(status := Executed, executedAt := Some(now), executedBy := Some(actor))), None)
  }

  function RejectStep(s: State, id: ProposalId, why: string): Outcome {
    if id >= |s.proposals| || s.proposals[id].status != Pending then Fail(s, NotRejectable)
    else Outcome(Put(s, id, s.proposals[id].(status := Rejected, rejectionReason := Some(why))), None)
  }

  function Do(s: State, op: Op, now: int): Outcome {
    match op
    case Add(address, name, email, roles, actor, reason) =>
      AddStep(s, address, name, email, roles, actor, reason, None, now)
    case Remove(address, actor, reason) => RemoveStep(s, address, actor, reason, None, now)
    case Change(address, roles, actor, reason) => ChangeStep(s, address, roles, actor, reason, None, now)
    case Activate(address, actor) => ActivateStep(s, address, actor, now)
    case Propose(kind, target, actor, changes, required, hours) =>
      ProposeStep(s, kind, target, actor, changes, required, hours, now)
    case Approve(id, actor) => ApproveStep(s, id, actor, now)
    case Execute(id, actor) => ExecuteStep(s, id, actor, now)
    case Reject(id, _, why) => RejectStep(s, id, why)
  }

  type Run = seq<(Op, int)>

  function After(s: State, run: Run): State
    decreases |run|
  {
    if run == [] then s else After(Do(s, run[0].0, run[0].1).state, run[1..])
  }
}
