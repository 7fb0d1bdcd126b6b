/** What operations mean for the directory: memberships as edges, enabled flags, accounts. */
module Effects {
  import opened Wrappers
  import opened Text
  import opened Uuids
  import opened Directory
  import opened Invariants
  import opened ServerRuns
  import opened Wire
  import opened Protocol
  import opened Reading
  import opened Meaning
  import opened Linearisation
  import opened Commutation
  import opened Interference
  import opened Repetition
  import opened Retry

  // ----- Memberships ----------------------------------------------------------------------

  ghost function Edge(s: Snapshot, group: string, user: string): (string, string)
    requires GroupOf(s, group).Some? && UserOf(s, user).Some?
  {
    (GroupOf(s, group).value.uuid, UserOf(s, user).value.uuid)
  }

  lemma PostAddsEdge(s: Snapshot, group: string, user: string)
    requires Inv(s) && GroupOf(s, group).Some? && UserOf(s, user).Some?
    ensures Edges(PostGroupMember(s, group, user).0.members) ==
            if IsFixed(s, group) then Edges(s.members) else Edges(s.members) + {Edge(s, group, user)}
    ensures Edges(DeleteGroupMember(s, group, user).0.members) ==
            if IsFixed(s, group) then Edges(s.members) else Edges(s.members) - {Edge(s, group, user)}
  {
    hide Inv, Edges, CreateUser, UpdateUser, DeleteUser, SetUserEnabled, SetUserRoles, UpdatePermission,
      AddGroupMember, RemoveGroupMember, Atoi, UserByID, GroupByID;
    MembershipWritesAreEdgeWrites(s, Atoi(group).value, Atoi(user).value);
  }

  /** A membership grant that succeeds leaves exactly the old memberships and this one; one that fails
      leaves the server as it was. It fails exactly when the group or the user is missing, or the group
      is fixed and the user is not listed in it already. */
  lemma GroupGrantEffect(e: bool, s: Snapshot, user: string, group: string)
    requires Inv(s)
    ensures var (s', answer) := Complete(e, GroupGrant(user, group), s);
      && (answer.Failed? <==>
            GroupOf(s, group).None? || UserOf(s, user).None? || (IsFixed(s, group) && !Listed(s, group, user)))
      && (answer.Failed? ==> s' == s)
      && (!answer.Failed? ==>
            IsMember(s', group, user) && Edges(s'.members) == Edges(s.members) + {Edge(s, group, user)})
  {
    hide Inv, Complete, UserOf, GroupOf, PostGroupMember, DeleteGroupMember, EnabledUsers, Edges, Atoi, Itoa;
    var op := GroupGrant(user, group);
    CompleteMeans(e, op, s);
    UserHasAtoi(s, user);
    MembershipWriteIdle(s, group, user);
    PostIdleUnlessApplied(s, group, user);
    var answer := Answer(op, s);
    if answer.Failed? {
      EnableNone(Write(op, s));
    } else {
      PostAddsEdge(s, group, user);
      MemberAfterGrant(s, group, user);
      MemberUnderEnabling(Write(op, s), Target(e, op, answer), group, user);
      if IsMember(s, group, user) { EdgeThere(s, group, user); }
    }
  }

  lemma EdgeThere(s: Snapshot, group: string, user: string)
    requires IsMember(s, group, user)
    ensures Edges(s.members) + {Edge(s, group, user)} == Edges(s.members)
  {
    hide UserOf, GroupOf;
  }

  lemma MemberAfterGrant(s: Snapshot, group: string, user: string)
    requires Inv(s) && GroupOf(s, group).Some? && UserOf(s, user).Some?
    requires !IsFixed(s, group) || IsMember(s, group, user)
    ensures IsMember(PostGroupMember(s, group, user).0, group, user)
  {
    hide Inv, UserOf, GroupOf, PostGroupMember, DeleteGroupMember, IsMember;
    MembershipWriteIdle(s, group, user);
    if !IsFixed(s, group) { MembershipAfter(s, group, user); }
  }

  lemma MemberUnderEnabling(s: Snapshot, ids: set<int>, group: string, user: string)
    ensures IsMember(EnableUsers(s, ids), group, user) == IsMember(s, group, user)
    ensures EnableUsers(s, ids).members == s.members
  {
    hide UserOf, Atoi;
    EnabledUserOf(s, ids, user);
  }

  /** A membership revoke that applies leaves exactly the old memberships without this one; any other
      answer leaves the server as it was. It applies exactly to listed members of groups that are not fixed. */
  lemma GroupRevokeEffect(e: bool, s: Snapshot, user: string, group: string)
    requires Inv(s)
    ensures var (s', answer) := Complete(e, GroupRevoke(user, group), s);
      && (answer == Applied <==> Listed(s, group, user) && !IsFixed(s, group))
      && (answer != Applied ==> s' == s)
      && (answer == Applied ==>
            !IsMember(s', group, user) && Edges(s'.members) == Edges(s.members) - {Edge(s, group, user)})
  {
    hide Inv, Complete, UserOf, GroupOf, PostGroupMember, DeleteGroupMember, EnableUsers, Edges, Atoi, Itoa;
    var op := GroupRevoke(user, group);
    CompleteMeans(e, op, s);
    MembershipWriteIdle(s, group, user);
    PostIdleUnlessApplied(s, group, user);
    EnableNone(Write(op, s));
    if Answer(op, s) == Applied {
      PostAddsEdge(s, group, user);
      MembershipAfter(s, group, user);
    }
  }

  // ----- Enabled flags --------------------------------------------------------------------

  /** The user is still there, with its ID and its flag. */
  predicate SameFlag(s: Snapshot, s': Snapshot, k: string)
    requires k in s.users
  {
    k in s'.users && s'.users[k].enabled == s.users[k].enabled && s'.users[k].id == s.users[k].id
  }

  lemma MembershipKeepsFlags(s: Snapshot, groupID: int, userID: int, k: string)
    requires IndexesAgree(s.users, s.byID, s.order) && k in s.users
    ensures SameFlag(s, AddGroupMember(s, groupID, userID).0, k)
        && SameFlag(s, RemoveGroupMember(s, groupID, userID).0, k)
  {
    hide MemberCounts;
    UserByIDFound(s, userID);
  }

  lemma RolesKeepFlags(s: Snapshot, uuid: string, row: seq<string>, k: string)
    requires IndexesAgree(s.users, s.byID, s.order) && k in s.users
    ensures SameFlag(s, SetUserRoles(s, uuid, row).0, k)
  {
    hide RoleRefs;
  }

  lemma PermissionKeepsFlags(s: Snapshot, p: ClientPermission, k: string)
    requires k in s.users
    ensures SameFlag(s, PutPermission(s, p).0, k)
  {
    hide Render, RewriteTags, EncodeObjects, CreateUser, UpdateUser, DeleteUser, SetUserEnabled, AddGroupMember,
      RemoveGroupMember, SetUserRoles;
  }

  lemma GroupWriteKeepsFlags(s: Snapshot, group: string, user: string, k: string)
    requires Inv(s) && k in s.users
    ensures SameFlag(s, PostGroupMember(s, group, user).0, k) && SameFlag(s, DeleteGroupMember(s, group, user).0, k)
  {
    hide CatalogOk, IndexesAgree, IdsIssued, MembersAgree, RolesAgree, AllUsersComplete, PermissionsIndexed, Atoi,
      CreateUser, UpdateUser, DeleteUser, SetUserEnabled, AddGroupMember, RemoveGroupMember, SetUserRoles,
      UpdatePermission;
    if Atoi(group).Some? && Atoi(user).Some? {
      MembershipKeepsFlags(s, Atoi(group).value, Atoi(user).value, k);
    }
  }

  lemma WriteKeepsFlags(op: Op, s: Snapshot, k: string)
    requires Inv(s) && IsProvisioning(op) && k in s.users
    ensures SameFlag(s, Write(op, s), k)
  {
    hide CatalogOk, IndexesAgree, IdsIssued, MembersAgree, RolesAgree, AllUsersComplete, PermissionsIndexed, UserOf,
      Atoi, Itoa, Floor, HasSubject, DropSubject, Parse, PutPermission, SetUserRoles, PostGroupMember,
      DeleteGroupMember, DecodePermission;
    if ForGroup(op) {
      GroupWriteKeepsFlags(s, op.group, op.user, k);
    } else if ForRole(op) {
      if UserOf(s, op.user).Some? {
        var role := if op.RoleGrant? then op.role else if Floor(s.catalog.roleList).Some? then
          Floor(s.catalog.roleList).value else "";
        RolesKeepFlags(s, UserOf(s, op.user).value.uuid, [role], k);
      }
    } else if PermissionAnswer(op, s) == Applied && Parse(UserOf(s, op.user).value.uuid).Some? {
      var u := UserOf(s, op.user).value;
      PermissionKeepsFlags(s, Revised(op, SubjectsOf(s, op.permission).value, Parse(u.uuid).value, u.name), k);
    }
  }

  /** Provisioning disables nobody, and enables exactly the principal of a grant that did not fail,
      if the connector is set to. */
  lemma GrantEnablesPrincipal(e: bool, op: Op, s: Snapshot, k: string)
    requires Inv(s) && IsProvisioning(op) && k in s.users
    ensures var (s', answer) := Complete(e, op, s);
      && k in s'.users
      && (s'.users[k].enabled <==>
            s.users[k].enabled || (e && IsGrant(op) && !answer.Failed? && Atoi(op.user) == Some(s.users[k].id)))
  {
    hide Inv, Complete, Write, Answer, Atoi;
    CompleteMeans(e, op, s);
    WriteKeepsFlags(op, s, k);
  }

  // ----- Accounts -------------------------------------------------------------------------

  /** Switching an account answers that it applied exactly when the user exists, and changes exactly
      that user's flag, to what was asked for; it passes on the server's refusal otherwise. */
  lemma AccountSwitched(e: bool, s: Snapshot, user: string, enabled: bool)
    requires Inv(s)
    ensures var (s', answer) := Complete(e, SetAccountEnabled(user, enabled), s);
      && answer == (if Atoi(user).None? then Failed(Refused(BadRequest))
                    else if UserOf(s, user).None? then Failed(Refused(NotFound)) else Applied)
      && (answer != Applied ==> s' == s)
      && (answer == Applied ==>
            var u := UserOf(s, user).value; s' == s.(users := s.users[u.uuid := u.(enabled := enabled)]))
  {
    hide CatalogOk, IndexesAgree, IdsIssued, MembersAgree, RolesAgree, AllUsersComplete, PermissionsIndexed, Atoi,
      DecodeUser, UserByID;
    var op := SetAccountEnabled(user, enabled);
    if UserOf(s, user).Some? { SwitchedDecodes(s, Atoi(user).value, enabled); }
    var (s', pc') := Step(e, op, Start, s);
    assert Complete(e, op, s) == Resume(e, op, pc', s');
  }

  lemma SwitchedDecodes(s: Snapshot, id: int, enabled: bool)
    requires Inv(s) && UserByID(s, id).Some?
    ensures var u := UserByID(s, id).value;
      DecodeUser(u.(enabled := enabled)).Some? && DecodeUser(u.(enabled := enabled)).value.enabled == enabled
  {
    hide CatalogOk, IdsIssued, MembersAgree, RolesAgree, AllUsersComplete, PermissionsIndexed, DecodeAll;
    UserByIDFound(s, id);
    UserDecodes(s, UserByID(s, id).value.uuid);
  }

  /** Opening an account answers that it applied exactly when email and password are not empty, and
      adds one enabled user at the end of the user list: the next ID, the email as username, Basic
      permissions, a member of All Users and of no other group, without roles. */
  lemma AccountOpened(e: bool, s: Snapshot, email: string, name: string, password: string)
    requires Inv(s) && s.nextUserID + 1 < CAPACITY
    ensures var (s', answer) := Complete(e, CreateAccount(email, name, password), s);
      && (answer == Applied <==> email != "" && password != "")
      && (answer != Applied ==> s' == s)
      && (answer == Applied ==>
            && ListUsers(s') == ListUsers(s) + [User(FormatUuid(s.nextUserID + 1), s.nextUserID + 1, email, email,
                name, 16, true, 0,
                                                     CONTAINER_UUID, [ALL_USERS], [])]
            && Edges(s'.members) == Edges(s.members) + {(ALL_USERS, FormatUuid(s.nextUserID + 1))}
            && s'.userRoles == s.userRoles && s'.permissions == s.permissions)
  {
    hide CatalogOk, IndexesAgree, IdsIssued, MembersAgree, RolesAgree, AllUsersComplete, PermissionsIndexed,
      FormatUuid, MemberCounts, CreateUser, ListUsers, Edges;
    var op := CreateAccount(email, name, password);
    var (s', pc') := Step(e, op, Start, s);
    assert Complete(e, op, s) == Resume(e, op, pc', s');
    if email != "" && password != "" { CreatedAtEnd(s, email, name); }
  }

  lemma CreatedAtEnd(s: Snapshot, email: string, name: string)
    requires Inv(s) && s.nextUserID + 1 < CAPACITY
    ensures var s' := CreateUser(s, email, email, name, 16);
      && ListUsers(s') == ListUsers(s) + [NewUser(s.nextUserID + 1, email, email, name, 16)]
      && Edges(s'.members) == Edges(s.members) + {(ALL_USERS, FormatUuid(s.nextUserID + 1))}
      && s'.userRoles == s.userRoles && s'.permissions == s.permissions
  {
    hide CatalogOk, IdsIssued, MembersAgree, RolesAgree, AllUsersComplete, PermissionsIndexed, FormatUuid,
      MemberCounts, IndexesAgree;
    var uuid := FormatUuid(s.nextUserID + 1);
    NextUuidIsFresh(s.users, s.nextUserID, GroupUuids(s.catalog));
    OrderLive(s);
    var s' := CreateUser(s, email, email, name, 16);
    LiveUsersGrow(s.users, s'.users, s.order, uuid);
  }

  lemma OrderLive(s: Snapshot)
    requires Inv(s)
    ensures forall k :: k in s.order ==> k in s.users
  {
    hide CatalogOk, IdsIssued, MembersAgree, RolesAgree, AllUsersComplete, PermissionsIndexed;
  }

  lemma {:induction false} LiveUsersGrow(users: map<string, User>, users': map<string, User>, order: seq<string>,
      uuid: string)
    requires uuid !in order && uuid in users' && forall k :: k in order ==>
        k in users && k in users' && users'[k] == users[k]
    ensures LiveUsers(users', order + [uuid]) == LiveUsers(users, order) + [users'[uuid]]
  {
    if order == [] {
      assert [] + [uuid] == [uuid];
    } else {
      assert order[0] in order && (order + [uuid])[1..] == order[1..] + [uuid];
      LiveUsersGrow(users, users', order[1..], uuid);
    }
  }
}
