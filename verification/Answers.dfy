/** What the group and role operations answer, case by case: the refusals of the server that it passes on,
    its own, and the answers of one that finds nothing to do. */
module Answers {
  import opened Wrappers
  import opened Text
  import opened Directory
  import opened Invariants
  import opened Wire
  import opened Protocol
  import opened Reading
  import opened Meaning
  import opened Agreement
  import opened Retry

  /** The principal is in the group's row and is spelled as its ID is printed. */
  predicate IsListed(s: Snapshot, group: string, user: string)
  {
    && GroupOf(s, group).Some?
    && exists k :: k in Row(s.members, GroupOf(s, group).value.uuid) && k in s.users && Itoa(s.users[k].id) == user
  }

  lemma ListedMeans(s: Snapshot, group: string, user: string)
    requires Inv(s)
    ensures Listed(s, group, user) <==> IsListed(s, group, user)
  {
    hide Inv, UserByID, GroupOf, Atoi, Itoa;
    UserOfFound(s, user);
    if IsListed(s, group, user) {
      var k :| k in Row(s.members, GroupOf(s, group).value.uuid) && k in s.users && Itoa(s.users[k].id) == user;
      PrintedIdFinds(s, k);
    }
  }

  /** Both membership requests are refused for an ID that is no number, for a fixed group, and for a missing
      group or user, in this order. */
  lemma MembershipReplies(s: Snapshot, group: string, user: string)
    ensures PostGroupMember(s, group, user).1 == DeleteGroupMember(s, group, user).1 ==
      if Atoi(group).None? || Atoi(user).None? then Err(Refused(BadRequest))
      else if GroupOf(s, group).Some? && GroupOf(s, group).value.membershipFixed then Err(Refused(Forbidden))
      else if GroupOf(s, group).None? || UserOf(s, user).None? then Err(Refused(NotFound))
      else Ok(())
  {
    hide Atoi, MemberCounts, CreateUser, UpdateUser, DeleteUser, SetUserEnabled, SetUserRoles, UpdatePermission;
  }

  lemma GroupAnswers(e: bool, s: Snapshot, user: string, group: string)
    requires Inv(s)
    ensures Complete(e, GroupGrant(user, group), s).1 ==
      if Atoi(group).None? then Failed(Refused(BadRequest))
      else if GroupOf(s, group).None? then Failed(Refused(NotFound))
      else if IsListed(s, group, user) then AlreadyExists
      else if Atoi(user).None? then Failed(Refused(BadRequest))
      else if GroupOf(s, group).value.membershipFixed then Failed(Refused(Forbidden))
      else if UserOf(s, user).None? then Failed(Refused(NotFound))
      else Applied
    ensures Complete(e, GroupRevoke(user, group), s).1 ==
      if Atoi(group).None? then Failed(Refused(BadRequest))
      else if GroupOf(s, group).None? then Failed(Refused(NotFound))
      else if !IsListed(s, group, user) then AlreadyRevoked
      else if GroupOf(s, group).value.membershipFixed then Failed(Refused(Forbidden))
      else Applied
  {
    hide Inv, Complete, Effect, UserByID, GroupByID, Atoi, Itoa, Listed, IsListed;
    ListedMeans(s, group, user);
    CompleteMeans(e, GroupGrant(user, group), s);
    CompleteMeans(e, GroupRevoke(user, group), s);
  }

  lemma {:induction false} FallbackIsFloor(roles: seq<Role>) returns (i: nat)
    ensures i <= |roles| && Floor(roles) == if i == |roles| then None else Some(roles[i].uuid)
    ensures i < |roles| ==> roles[i].typ == "STANDARD" && roles[i].name == "Basic"
    ensures forall j :: 0 <= j < i ==> roles[j].typ != "STANDARD" || roles[j].name != "Basic"
  {
    i := 0;
    if roles != [] && !(roles[0].typ == "STANDARD" && roles[0].name == "Basic") {
      i := FallbackIsFloor(roles[1..]);
      assert forall j :: 1 <= j < |roles| ==> roles[j] == roles[1..][j - 1];
      i := i + 1;
    }
  }

  predicate HoldsIt(s: Snapshot, u: User, role: string)
  {
    u.uuid in s.userRoles && role in s.userRoles[u.uuid]
  }

  lemma RoleGrantAnswers(e: bool, s: Snapshot, user: string, role: string)
    requires Inv(s)
    ensures Complete(e, RoleGrant(user, role), s).1 ==
      if Atoi(user).None? then Failed(Refused(BadRequest))
      else if UserOf(s, user).None? then Failed(Refused(NotFound))
      else if HoldsIt(s, UserOf(s, user).value, role) then AlreadyExists
      else if role !in s.catalog.roles then Failed(Refused(NotFound))
      else Applied
  {
    hide Inv, Complete, Effect, UserByID, Atoi;
    CompleteMeans(e, RoleGrant(user, role), s);
  }

  /** The fallback is the first STANDARD role named Basic in the server's list, if there is one. */
  lemma RoleRevokeAnswers(e: bool, s: Snapshot, user: string, role: string) returns (fallback: nat)
    requires Inv(s)
    ensures var roles := s.catalog.roleList;
      && fallback <= |roles|
      && (fallback < |roles| ==> roles[fallback].typ == "STANDARD" && roles[fallback].name == "Basic")
      && forall j :: 0 <= j < fallback ==> roles[j].typ != "STANDARD" || roles[j].name != "Basic"
    ensures Complete(e, RoleRevoke(user, role), s).1 ==
      if Atoi(user).None? then Failed(Refused(BadRequest))
      else if UserOf(s, user).None? then Failed(Refused(NotFound))
      else if !HoldsIt(s, UserOf(s, user).value, role) then AlreadyRevoked
      else if fallback == |s.catalog.roleList| then Failed(NoBasicRole)
      else if s.catalog.roleList[fallback].uuid == role then Failed(BasicRoleIsFloor)
      else Applied
  {
    hide Inv, Complete, Effect, UserByID, Atoi, Floor;
    CompleteMeans(e, RoleRevoke(user, role), s);
    fallback := FallbackIsFloor(s.catalog.roleList);
  }
}
