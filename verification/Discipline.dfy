/** The single-role discipline of the connector's role operations. */
module Discipline {
  import opened Wrappers
  import opened Text
  import opened Uuids
  import opened Directory
  import opened Invariants
  import opened Protocol
  import opened Reading
  import opened Meaning
  import opened Linearisation
  import opened Repetition
  import opened Interference
  import opened Retry

  predicate IsBasic(r: Role) { r.typ == "STANDARD" && r.name == "Basic" }

  /** The fallback is the first STANDARD role named Basic in the server's list, and there is none
      exactly when no role is one. */
  lemma {:induction false} FloorIsFirst(roles: seq<Role>)
    ensures Floor(roles).None? <==> forall i :: 0 <= i < |roles| ==> !IsBasic(roles[i])
    ensures Floor(roles).Some? ==>
      exists i :: 0 <= i < |roles| && IsBasic(roles[i]) && Floor(roles) == Some(roles[i].uuid)
                  && forall j :: 0 <= j < i ==> !IsBasic(roles[j])
  {
    if roles != [] {
      FloorIsFirst(roles[1..]);
      var rest := roles[1..];
      assert forall i :: 0 <= i < |rest| ==> rest[i] == roles[i + 1];
      if IsBasic(roles[0]) {
        assert Floor(roles) == Some(roles[0].uuid);
      } else if Floor(rest).Some? {
        var i :| 0 <= i < |rest| && IsBasic(rest[i]) && Floor(rest) == Some(rest[i].uuid)
                 && forall j :: 0 <= j < i ==> !IsBasic(rest[j]);
        assert forall j :: 0 <= j < i + 1 ==> !IsBasic(roles[j]) by {
          assert forall j :: 1 <= j < i + 1 ==> roles[j] == rest[j - 1];
        }
        assert IsBasic(roles[i + 1]) && Floor(roles) == Some(roles[i + 1].uuid);
      } else {
        forall i | 0 <= i < |roles|
          ensures !IsBasic(roles[i])
        {
          if i > 0 { assert rest[i - 1] == roles[i]; }
        }
      }
    }
  }

  /** The roles are those of before except that this user now holds exactly this one. */
  ghost predicate OnlyAssigned(s: Snapshot, s': Snapshot, uuid: string, role: string)
  {
    && Row(s'.userRoles, uuid) == [role]
    && (forall k :: k != uuid ==> Row(s'.userRoles, k) == Row(s.userRoles, k))
    && s'.members == s.members && s'.permissions == s.permissions && s'.catalog == s.catalog
  }

  lemma AssignOnlyAssigns(s: Snapshot, user: string, role: string)
    requires Inv(s) && UserOf(s, user).Some? && role in s.catalog.roles
    ensures OnlyAssigned(s, Assign(s, user, role), UserOf(s, user).value.uuid, role)
  {
    hide CatalogOk, IndexesAgree, IdsIssued, MembersAgree, RolesAgree, AllUsersComplete, PermissionsIndexed, UserOf,
      RoleRefs;
    AssignedRole(s, user, role);
    RolesChangeOneRow(s, UserOf(s, user).value.uuid, [role]);
    AssignKeepsUuid(s, user, role);
  }

  /** A revoke changes the server exactly when it answers that it applied. Then the user held the
      role, and is left with exactly the fallback, which is another role; everybody else's roles and
      every membership and permission are as before. A revoke that is refused, or finds nothing to
      revoke, writes nothing. */
  lemma RevokeDiscipline(e: bool, s: Snapshot, user: string, role: string)
    requires Inv(s)
    ensures var (s', answer) := Complete(e, RoleRevoke(user, role), s);
      && (s' != s <==> answer == Applied)
      && (answer == Applied <==>
            HoldsRole(s, user, role) && Floor(s.catalog.roleList).Some? && Floor(s.catalog.roleList).value != role)
      && (answer == Applied ==> OnlyAssigned(s, s', UserOf(s, user).value.uuid, Floor(s.catalog.roleList).value))
  {
    hide Inv, Complete, UserOf, Floor, Assign, Atoi, EnableUsers, OnlyAssigned;
    var op := RoleRevoke(user, role);
    CompleteMeans(e, op, s);
    EnableNone(Write(op, s));
    if Answer(op, s) == Applied {
      FloorKnown(s);
      AssignOnlyAssigns(s, user, Floor(s.catalog.roleList).value);
      ChangedRow(s, Write(op, s), UserOf(s, user).value.uuid, Floor(s.catalog.roleList).value, role);
    }
  }

  lemma ChangedRow(s: Snapshot, s': Snapshot, uuid: string, basic: string, role: string)
    requires OnlyAssigned(s, s', uuid, basic) && role in Row(s.userRoles, uuid) && role != basic
    ensures s' != s
  {}

  /** A grant that applies leaves the user with exactly the granted role, whatever it held before; a
      grant that finds the role already there changes no roles at all. */
  lemma GrantDiscipline(e: bool, s: Snapshot, user: string, role: string)
    requires Inv(s)
    ensures var (s', answer) := Complete(e, RoleGrant(user, role), s);
      && (answer == Applied <==> UserOf(s, user).Some? && !HoldsRole(s, user, role) && role in s.catalog.roles)
      && (answer == Applied ==> OnlyAssigned(s, s', UserOf(s, user).value.uuid, role))
      && (answer != Applied ==> s'.userRoles == s.userRoles)
  {
    hide Inv, Complete, UserOf, Assign, Atoi, OnlyAssigned, EnabledUsers;
    var op := RoleGrant(user, role);
    CompleteMeans(e, op, s);
    if Answer(op, s) == Applied {
      AssignOnlyAssigns(s, user, role);
      AssignedStays(s, Write(op, s), UserOf(s, user).value.uuid, role, Target(e, op, Answer(op, s)));
    }
  }

  lemma AssignedStays(s: Snapshot, s': Snapshot, uuid: string, role: string, ids: set<int>)
    requires OnlyAssigned(s, s', uuid, role)
    ensures OnlyAssigned(s, EnableUsers(s', ids), uuid, role)
  {}

  // ----- Exactly one role -----------------------------------------------------------------

  predicate HoldsOneRole(s: Snapshot, uuid: string)
  {
    |Row(s.userRoles, uuid)| == 1
  }

  /** An account is opened without any role, although every user is meant to hold exactly one. */
  lemma NewAccountHasNoRole(s: Snapshot, username: string, email: string, name: string, permissions: int)
    requires Inv(s) && s.nextUserID + 1 < CAPACITY
    ensures var s' := CreateUser(s, username, email, name, permissions);
      var uuid := FormatUuid(s.nextUserID + 1);
      uuid in s'.users && Row(s'.userRoles, uuid) == []
  {
    hide CatalogOk, IndexesAgree, IdsIssued, MembersAgree, AllUsersComplete, PermissionsIndexed, FormatUuid,
      MemberCounts, RefsAgree;
    NextUuidIsFresh(s.users, s.nextUserID, GroupUuids(s.catalog));
  }

  /** When role operations leave a user who holds at most one role with exactly one: a grant does if
      the user had one already or the role exists, and a revoke only if the user had one already. */
  lemma ExactlyOneRole(e: bool, s: Snapshot, user: string, role: string)
    requires Inv(s) && UserOf(s, user).Some? && |Row(s.userRoles, UserOf(s, user).value.uuid)| <= 1
    ensures var uuid := UserOf(s, user).value.uuid;
      && (HoldsOneRole(Complete(e, RoleGrant(user, role), s).0, uuid) <==>
            HoldsOneRole(s, uuid) || role in s.catalog.roles)
      && (HoldsOneRole(Complete(e, RoleRevoke(user, role), s).0, uuid) <==> HoldsOneRole(s, uuid))
  {
    hide Inv, Complete, UserOf, Floor;
    GrantDiscipline(e, s, user, role);
    RevokeDiscipline(e, s, user, role);
  }
}
