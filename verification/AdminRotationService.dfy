/** The rotation service as imperative code over its three tables. */
module AdminRotationService {
  import opened Common
  import opened AdminRotation
  import opened AdminRotationHistory

  class Service {
    var accounts: map<Address, Account>
    var events: seq<Event>
    var proposals: seq<Proposal>

    ghost function Now(): State
      reads this
    {
      State(accounts, events, proposals)
    }

    constructor ()
      ensures Now() == EMPTY
    {
      accounts, events, proposals := map[], [], [];
    }

    // ---- safeguards

    method EnforceMinimumAdminCount() returns (error: Option<Error>)
      ensures error == if |Active(accounts)| <= 2 then Some(TooFewAdmins(|Active(accounts)|)) else None
    {
      var activeCount := |Active(accounts)|;
      if activeCount <= MINIMUM_ADMIN_COUNT { return Some(TooFewAdmins(activeCount)); }
      return None;
    }

    method CheckRoles(roles: seq<string>) returns (error: Option<Error>)
      ensures error == ValidateRoles(roles)
    {
      var i := 0;
      while i < |roles|
        invariant i <= |roles| && FirstInvalid(roles[i..]) == FirstInvalid(roles)
      {
        if roles[i] !in VALID_ROLES { return Some(InvalidRole(roles[i])); }
        i := i + 1;
      }
      if |roles| == 0 { return Some(NoRoles); }
      return None;
    }

    method LogRotationEvent(eventType: EventType, address: Address, actor: Address, before: Option<Snapshot>,
                            after: Option<Snapshot>, reason: Option<string>, now: int, cause: Option<ProposalId>)
      modifies this`events
      ensures events == old(events) + [Event(eventType, address, actor, before, after, reason, now, cause)]
    {
      events := events + [Event(eventType, address, actor, before, after, reason, now, cause)];
    }

    // ---- accounts

    method AddAdmin(address: Address, name: string, email: Option<string>, roles: seq<string>, actor: Address,
                    reason: Option<string>, cause: Option<ProposalId>, now: int) returns (error: Option<Error>)
      modifies this
      ensures Outcome(Now(), error) == AddStep(old(Now()), address, name, email, roles, actor, reason, cause, now)
    {
      if address in accounts { return Some(AlreadyExists(address)); }
      error := CheckRoles(roles);
      if error.Some? { return; }
      var row := Account(name, email, roles, true, actor, Some(now), None, None, now, now);
      accounts := accounts[address := row];
      LogRotationEvent(Added, address, actor, None, Some(Snapshot(Some(row.roles), Some(row.isActive))), reason, now,
                       cause);
    }

    method RemoveAdmin(address: Address, actor: Address, reason: Option<string>, cause: Option<ProposalId>, now: int)
      returns (error: Option<Error>)
      modifies this
      ensures Outcome(Now(), error) == RemoveStep(old(Now()), address, actor, reason, cause, now)
    {
      error := EnforceMinimumAdminCount();
      if error.Some? { return; }
      if address !in accounts { return Some(NotFound(address)); }
      var admin := accounts[address];
      if !admin.isActive { return Some(AlreadyInactive(address)); }
      var updated := admin.(isActive := false, deactivatedAt := Some(now),
                            deactivatedBy := Some(actor), updatedAt := now);
      accounts := accounts[address := updated];
      LogRotationEvent(Removed, address, actor, Some(Snapshot(Some(admin.roles), Some(admin.isActive))),
                       Some(Snapshot(Some(updated.roles), Some(updated.isActive))), reason, now, cause);
    }

    method ChangeAdminRoles(address: Address, roles: seq<string>, actor: Address, reason: Option<string>,
                            cause: Option<ProposalId>, now: int) returns (error: Option<Error>)
      modifies this
      ensures Outcome(Now(), error) == ChangeStep(old(Now()), address, roles, actor, reason, cause, now)
    {
      error := CheckRoles(roles);
      if error.Some? { return; }
      if address !in accounts { return Some(NotFound(address)); }
      var admin := accounts[address];
      accounts := accounts[address := admin.(roles := roles, updatedAt := now)];
      LogRotationEvent(RoleChanged, address, actor, Some(Snapshot(Some(admin.roles), None)),
                       Some(Snapshot(Some(accounts[address].roles), None)), reason, now, cause);
    }

    method ActivateAdmin(address: Address, actor: Address, now: int) returns (error: Option<Error>)
      modifies this
      ensures Outcome(Now(), error) == Do(old(Now()), Activate(address, actor), now)
    {
      if address !in accounts { return Some(NotFound(address)); }
      var admin := accounts[address];
      if admin.isActive { return Some(AlreadyActive(address)); }
      accounts := accounts[address := admin.(isActive := true, activatedAt := Some(now), deactivatedAt := None,
                                             deactivatedBy := None, updatedAt := now)];
      LogRotationEvent(Activated, address, actor, Some(Snapshot(None, Some(false))), Some(Snapshot(None, Some(true))),
                       None, now, None);
      return None;
    }

    // ---- proposals

    method CreateProposal(kind: ProposalType, target: Address, actor: Address, changes: Changes, required: Option<int>,
                          hours: Option<int>, now: int) returns (id: ProposalId)
      modifies this`proposals
      ensures Outcome(Now(), None) == Do(old(Now()), Propose(kind, target, actor, changes, required, hours), now)
      ensures id == |old(proposals)| && proposals == old(proposals) + [proposals[id]]
      ensures Requested(proposals[id], (Propose(kind, target, actor, changes, required, hours), now))
      ensures proposals[id].status == Pending && proposals[id].approvals == [actor]
    {
      NewRequest(Now(), Propose(kind, target, actor, changes, required, hours), now);
      var expiresInHours := DEFAULT_PROPOSAL_EXPIRY_HOURS;
      if hours.Some? { expiresInHours := hours.value; }
      var requiredApprovals := DEFAULT_REQUIRED_APPROVALS;
      if required.Some? { requiredApprovals := required.value; }
      id := |proposals|;
      proposals := proposals + [Proposal(kind, target, actor, changes, Pending, [actor], requiredApprovals,
                                         now + expiresInHours * HOUR_MS, None, None, None)];
    }

    method ExpireProposal(id: ProposalId)
      requires id < |proposals|
      modifies this`proposals
      ensures proposals == old(proposals)[id := old(proposals)[id].(status := Expired)]
    {
      proposals := proposals[id := proposals[id].(status := Expired)];
    }

    method ApproveProposal(id: ProposalId, approver: Address, now: int) returns (error: Option<Error>)
      modifies this`proposals
      ensures Outcome(Now(), error) == Do(old(Now()), Approve(id, approver), now)
    {
      if id >= |proposals| { return Some(ProposalNotFound(id)); }
      var proposal := proposals[id];
      if proposal.status != Pending { return Some(NotPending(proposal.status)); }
      if now > proposal.expiresAt {
        ExpireProposal(id);
        return Some(HasExpired);
      }
      if approver in proposal.approvals { return Some(AlreadyApproved); }
      var approvals := proposal.approvals + [approver];
      var isApproved := |approvals| >= proposal.required;
      proposals := proposals[id := proposal.(approvals := approvals,
                                             status := if isApproved then Approved else Pending)];
      return None;
    }

    method ExecuteProposal(id: ProposalId, executor: Address, now: int) returns (error: Option<Error>)
      modifies this
      ensures Outcome(Now(), error) == Do(old(Now()), Execute(id, executor), now)
    {
      if id >= |proposals| { return Some(ProposalNotFound(id)); }
      var proposal := proposals[id];
      if proposal.status != Approved { return Some(NotApproved(proposal.status)); }
      if now > proposal.expiresAt {
        ExpireProposal(id);
        return Some(HasExpired);
      }
      var roles := if proposal.changes.roles.Some? then proposal.changes.roles.value else ["viewer"];
      match proposal.kind {
        case AddAdmin =>
          var name := if proposal.changes.name.Some? then proposal.changes.name.value else "Unknown";
          error := AddAdmin(proposal.target, name, proposal.changes.email, roles, executor,
                            Some(EXECUTION_REASON), Some(id), now);
        case RemoveAdmin =>
          error := RemoveAdmin(proposal.target, executor, Some(EXECUTION_REASON), Some(id), now);
        case ChangeRoles =>
          error := ChangeAdminRoles(proposal.target, roles, executor, Some(EXECUTION_REASON), Some(id), now);
        case Other(name) =>
          error := Some(UnknownType(name));
      }
      if error.Some? { return; }
      proposals := proposals[id := proposal.(status := Executed, executedAt := Some(now),
                                             executedBy := Some(executor))];
    }

    method RejectProposal(id: ProposalId, rejector: Address, why: string, now: int) returns (error: Option<Error>)
      modifies this`proposals
      ensures Outcome(Now(), error) == Do(old(Now()), Reject(id, rejector, why), now)
    {
      if id >= |proposals| || proposals[id].status != Pending { return Some(NotRejectable); }
      proposals := proposals[id := proposals[id].(status := Rejected, rejectionReason := Some(why))];
      return None;
    }
  }
}
