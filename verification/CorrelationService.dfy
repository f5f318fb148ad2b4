/** The service as imperative code over its three tables. */
module CorrelationService {
  import opened Common
  import opened Correlation

  class Service {
    var groups: map<GroupId, string>
    var members: set<Member>
    var audits: seq<Audit>

    ghost function Now(): State
      reads this
    {
      State(groups, members, audits)
    }

    constructor ()
      ensures Now() == EMPTY && Inv(Now())
    {
      groups, members, audits := map[], {}, [];
    }

    method InsertMember(row: Member)
      modifies this`members
      ensures members == InsertIgnore(old(members), row)
    {
      var conflicts := set m | m in members && m.incident == row.incident;
      if conflicts == {} {
        assert forall m :: m in members ==> m.incident == row.incident ==> m in conflicts;
        members := members + {row};
      } else {
        assert exists m :: m in conflicts;
      }
    }

    /** `drawn` is the id the database gives a new group. */
    method LinkIncidents(incident: Incident, target: Incident, actor: string, drawn: GroupId) returns (groupId: GroupId)
      requires drawn !in groups
      modifies this
      ensures Enabled(old(Now()), Link(incident, target, actor, groupId))
      ensures Now() == Next(old(Now()), Link(incident, target, actor, groupId))
    {
      var found := set m | m in members && m.group in groups
                             && (m.incident == incident || m.incident == target) :: m.group;
      assert found == GroupsOfEither(Now(), incident, target);
      if found != {} {
        groupId :| groupId in found;
      } else {
        groupId := drawn;
        groups := groups[groupId := actor];
      }
      InsertMember(Member(groupId, incident, actor));
      InsertMember(Member(groupId, target, actor));
      audits := audits + [Audit(Linked, Some(groupId), incident, target, actor)];
    }

    method ApproveSuggestion(incident: Incident, target: Incident, actor: string,
                             drawn: GroupId) returns (groupId: GroupId)
      requires drawn !in groups
      modifies this
      ensures Enabled(old(Now()), Correlation.ApproveSuggestion(incident, target, actor, groupId))
      ensures Now() == Next(old(Now()), Correlation.ApproveSuggestion(incident, target, actor, groupId))
    {
      groupId := LinkIncidents(incident, target, actor, drawn);
      audits := audits + [Audit(Approved, Some(groupId), incident, target, actor)];
    }

    method UnlinkIncidents(incident: Incident, target: Incident, actor: string) returns (ok: bool,
                                                                                         ghost groupId: GroupId)
      modifies this
      ensures ok <==> GroupsOfBoth(old(Now()), incident, target) != {}
      ensures Enabled(old(Now()), Unlink(incident, target, actor, groupId))
      ensures Now() == Next(old(Now()), Unlink(incident, target, actor, groupId))
    {
      var common := set m1, m2 | m1 in members && m2 in members && m1.group == m2.group
                                 && m1.incident == incident && m2.incident == target :: m1.group;
      assert common == GroupsOfBoth(Now(), incident, target);
      groupId := 0;
      if common == {} { return false, groupId; }
      var id :| id in common;
      groupId := id;
      members := set m | m in members && !(m.group == id && m.incident == target);
      audits := audits + [Audit(Unlinked, Some(id), incident, target, actor)];
      if |MembersOf(members, id)| < 2 {
        members := members - MembersOf(members, id);
        groups := groups - {id};
        audits := ClearGroup(audits, id);
      }
      ok := true;
    }
  }
}
