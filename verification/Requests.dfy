/** What each request that writes does to a server whose copies agree, field by field: when it
    succeeds, what it changes, and that nothing else changes. */
module Requests {
  import opened Wrappers
  import opened Sequences
  import opened Uuids
  import opened Directory
  import opened Invariants
  import opened ServerRuns

  /** The snapshots agree but for the users' records and those of their tables that the request is about. */
  predicate SameRest(s: Snapshot, s': Snapshot)
  {
    && s'.catalog == s.catalog && s'.nextUserID == s.nextUserID
    && s'.byID == s.byID && s'.order == s.order && s'.users.Keys == s.users.Keys
    && s'.permissions == s.permissions && s'.permissionOrder == s.permissionOrder
  }

  // ----- Users ----------------------------------------------------------------------------

  /** PUT /users/{id} succeeds exactly for the ID of a live user. Then each of the four fields is what was
      given, or as it was if that is empty or absent, and everything else is as it was. */
  lemma EditRequest(s: Snapshot, id: int, name: string, permissions: int, email: string, enabled: Option<bool>)
    requires Inv(s)
    ensures var (s', status) := Handle(s, UpdateUserRequest(id, name, permissions, email, enabled));
      && status == (if id in s.byID then Success else NotFound)
      && (id !in s.byID ==> s' == s)
      && (id in s.byID ==>
            var k := s.byID[id];
            && k in s.users && s.users[k].id == id && k in s'.users
            && s' == s.(users := s'.users) && s'.users.Keys == s.users.Keys
            && (forall other :: other in s.users && other != k ==> s'.users[other] == s.users[other])
            && var before, after := s.users[k], s'.users[k];
               && after.name == (if name == "" then before.name else name)
               && after.email == (if email == "" then before.email else email)
               && after.permissions == (if permissions == 0 then before.permissions else permissions)
               && after.enabled == (if enabled == None then before.enabled else enabled.value)
               && after.uuid == before.uuid && after.id == before.id && after.username == before.username
               && after.lastLogin == before.lastLogin && after.containerUUID == before.containerUUID
               && after.groupUUIDs == before.groupUUIDs && after.rbacRoles == before.rbacRoles
               && UpdateUser(s, id, name, permissions, email, enabled).1 == Some(after))
  {
    hide CatalogOk, IdsIssued, MembersAgree, RolesAgree, AllUsersComplete, PermissionsIndexed;
    UserByIDFound(s, id);
  }

  /** The enable and disable requests likewise set the one flag. */
  lemma SetEnabledRequests(s: Snapshot, id: int, enabled: bool)
    requires Inv(s)
    ensures var (s', status) := Handle(s, SetEnabledRequest(id, enabled));
      && status == (if id in s.byID then Success else NotFound)
      && (id !in s.byID ==> s' == s)
      && (id in s.byID ==>
            var k := s.byID[id];
            && k in s.users && s' == s.(users := s.users[k := s.users[k].(enabled := enabled)])
            && SetUserEnabled(s, id, enabled).1 == Some(s'.users[k]))
  {
    hide CatalogOk, IdsIssued, MembersAgree, RolesAgree, AllUsersComplete, PermissionsIndexed;
    UserByIDFound(s, id);
  }

  /** POST /users is refused exactly without a username or a password. Otherwise the user comes last, under
      the next ID and the UUID made from it: enabled, never logged in, a member of All Users and of no other
      group, without roles. An absent email is the username, and absent permissions are Basic. */
  lemma CreateRequest(s: Snapshot, username: string, password: string, email: string, name: string, permissions: int)
    requires Inv(s) && s.nextUserID + 1 < CAPACITY
    ensures var (s', status) := Handle(s, CreateUserRequest(username, password, email, name, permissions));
      var id := s.nextUserID + 1;
      var k := FormatUuid(id);
      && status == (if username == "" || password == "" then BadRequest else Success)
      && (status == BadRequest ==> s' == s)
      && (status == Success ==>
            && k !in s.users && id !in s.byID
            && s'.users == s.users[k := User(k, id, username, if email == "" then username else email, name,
                 if permissions == 0 then 16 else permissions, true, 0, "f8973c82-01a7-4aee-9754-4a61e3b3e70e",
                 ["00000000-0000-0000-0000-000000000000"], [])]
            && s'.byID == s.byID[id := k] && s'.order == s.order + [k] && s'.nextUserID == id
            && s'.members == s.members["00000000-0000-0000-0000-000000000000" :=
                 Row(s.members, "00000000-0000-0000-0000-000000000000") + [k]]
            && s'.userRoles == s.userRoles && Row(s'.userRoles, k) == []
            && s'.catalog == s.catalog && s'.permissions == s.permissions
            && s'.permissionOrder == s.permissionOrder)
  {
    hide CatalogOk, MembersAgree, AllUsersComplete, PermissionsIndexed, FormatUuid, MemberCounts, Issued;
    NextUuidIsFresh(s.users, s.nextUserID, GroupUuids(s.catalog));
    IdsAreIssued(s.users, s.byID, s.order, s.nextUserID, GroupUuids(s.catalog));
  }

  /** DELETE /users/{id} succeeds exactly for the ID of a live user, and takes that user out of every table. */
  lemma DeleteRequest(s: Snapshot, id: int)
    requires Inv(s)
    ensures var (s', status) := Handle(s, DeleteUserRequest(id));
      && status == (if id in s.byID then Success else NotFound)
      && (id !in s.byID ==> s' == s)
      && (id in s.byID ==>
            var k := s.byID[id];
            && s'.users == s.users - {k} && s'.byID == s.byID - {id} && s'.userRoles == s.userRoles - {k}
            && (exists before, after :: s.order == before + [k] + after && s'.order == before + after)
            && (forall g, u :: u in Row(s'.members, g) <==> u in Row(s.members, g) && u != k)
            && s'.catalog == s.catalog && s'.nextUserID == s.nextUserID
            && s'.permissions == s.permissions && s'.permissionOrder == s.permissionOrder)
  {
    hide Inv, MemberCounts, DropFromRows, Without;
    UserByIDHolds(s, id);
    if id in s.byID {
      DeleteUserKeepsOrder(s, id);
      RowsAfterDelete(s, id);
    }
  }

  lemma RowsAfterDelete(s: Snapshot, id: int)
    requires UserByID(s, id).Some? && UserByID(s, id).value.uuid == s.byID[id]
    ensures forall g, u ::
      u in Row(DeleteUser(s, id).0.members, g) <==> u in Row(s.members, g) && u != s.byID[id]
  {
    hide MemberCounts;
    forall g
      ensures forall u ::
        u in Row(DeleteUser(s, id).0.members, g) <==> u in Row(s.members, g) && u != s.byID[id]
    {
      WithoutMembers(Row(s.members, g), s.byID[id]);
    }
  }

  lemma UserByIDHolds(s: Snapshot, id: int)
    requires Inv(s)
    ensures UserByID(s, id).Some? <==> id in s.byID
    ensures id in s.byID ==> s.byID[id] in s.users && UserByID(s, id) == Some(s.users[s.byID[id]])
    ensures id in s.byID ==> s.users[s.byID[id]].uuid == s.byID[id]
  {
    hide CatalogOk, IdsIssued, MembersAgree, RolesAgree, AllUsersComplete, PermissionsIndexed;
    UserByIDFound(s, id);
  }

  // ----- Memberships ----------------------------------------------------------------------

  /** When a membership request succeeds, and how it is refused otherwise. */
  function MembershipStatus(s: Snapshot, groupID: int, userID: int): Status
  {
    if groupID in s.catalog.groupsByID && s.catalog.groupsByID[groupID].membershipFixed then Forbidden
    else if groupID in s.catalog.groupsByID && userID in s.byID then Success
    else NotFound
  }

  /** Of all records at most this user's has changed, and of it at most the list of its groups. */
  predicate OnlyGroupsOf(s: Snapshot, s': Snapshot, k: string)
  {
    && SameRest(s, s') && s'.userRoles == s.userRoles && k in s.users
    && (forall other :: other in s.users && other != k ==> s'.users[other] == s.users[other])
    && s'.users[k] == s.users[k].(groupUUIDs := s'.users[k].groupUUIDs)
  }

  /** Adding a member appends it to the group's row and the group to the user's list, unless it is there. */
  lemma AddMemberRequests(s: Snapshot, groupID: int, userID: int)
    requires Inv(s)
    ensures var (s', status) := Handle(s, AddMemberRequest(groupID, userID));
      && status == MembershipStatus(s, groupID, userID)
      && (status != Success ==> s' == s)
      && (status == Success ==>
            var g, k := s.catalog.groupsByID[groupID].uuid, s.byID[userID];
            && OnlyGroupsOf(s, s', k)
            && Row(s'.members, g) == (if k in Row(s.members, g) then Row(s.members, g) else Row(s.members, g) + [k])
            && (forall h :: h != g ==> Row(s'.members, h) == Row(s.members, h))
            && s'.users[k].groupUUIDs ==
               (if g in s.users[k].groupUUIDs then s.users[k].groupUUIDs else s.users[k].groupUUIDs + [g])
            && AddGroupMember(s, groupID, userID).1 == (k in Row(s.members, g)))
  {
    hide Inv, MemberCounts;
    UserByIDHolds(s, userID);
    if userID in s.byID && groupID in s.catalog.groupsByID {
      MirrorOf(s, s.catalog.groupsByID[groupID].uuid, s.byID[userID]);
    }
  }

  lemma MirrorOf(s: Snapshot, g: string, k: string)
    requires Inv(s) && k in s.users
    ensures k in Row(s.members, g) <==> g in s.users[k].groupUUIDs
  {
    hide CatalogOk, IndexesAgree, IdsIssued, RolesAgree, AllUsersComplete, PermissionsIndexed;
  }

  /** Removing a member takes it out of the group's row and the group out of the user's list. */
  lemma RemoveMemberRequests(s: Snapshot, groupID: int, userID: int)
    requires Inv(s)
    ensures var (s', status) := Handle(s, RemoveMemberRequest(groupID, userID));
      && status == MembershipStatus(s, groupID, userID)
      && (status != Success ==> s' == s)
      && (status == Success ==>
            var g, k := s.catalog.groupsByID[groupID].uuid, s.byID[userID];
            && OnlyGroupsOf(s, s', k)
            && (forall u :: u in Row(s'.members, g) <==> u in Row(s.members, g) && u != k)
            && (forall h :: h != g ==> Row(s'.members, h) == Row(s.members, h))
            && (forall h :: h in s'.users[k].groupUUIDs <==> h in s.users[k].groupUUIDs && h != g)
            && RemoveGroupMember(s, groupID, userID).1 == (k !in Row(s.members, g)))
  {
    hide Inv, MemberCounts, Without;
    UserByIDHolds(s, userID);
    if userID in s.byID && groupID in s.catalog.groupsByID {
      var g, k := s.catalog.groupsByID[groupID].uuid, s.byID[userID];
      MirrorOf(s, g, k);
      WithoutMembers(Row(s.members, g), k);
      WithoutMembers(s.users[k].groupUUIDs, g);
    }
  }

  // ----- Roles and permissions ------------------------------------------------------------

  /** PUT of a user's roles succeeds exactly if the user and all the roles exist. Then the user's row is the
      list that was sent, and its record names the roles in that order, each by its own name. */
  lemma SetRolesRequests(s: Snapshot, k: string, roles: seq<string>)
    requires Inv(s)
    ensures var (s', status) := Handle(s, SetRolesRequest(k, roles));
      && status == (if k in s.users && (forall r :: r in roles ==> r in s.catalog.roles) then Success else NotFound)
      && (status != Success ==> s' == s)
      && (status == Success ==>
            && SameRest(s, s') && s'.members == s.members && s'.counts == s.counts
            && s'.userRoles == s.userRoles[k := roles]
            && (forall other :: other in s.users && other != k ==> s'.users[other] == s.users[other])
            && s'.users[k] == s.users[k].(rbacRoles := s'.users[k].rbacRoles)
            && |s'.users[k].rbacRoles| == |roles|
            && forall i :: 0 <= i < |roles| ==>
                 s'.users[k].rbacRoles[i] == RbacRole(roles[i], s.catalog.roles[roles[i]].name))
  {
    hide IndexesAgree, IdsIssued, MembersAgree, RolesAgree, AllUsersComplete, PermissionsIndexed, Canonical;
  }

  /** PUT of a permission succeeds exactly if it exists, and replaces its name, actions, objects and subjects. */
  lemma UpdatePermissionRequests(s: Snapshot, p: string, name: string, actions: seq<string>, objects: seq<Subject>,
      subjects: seq<Subject>)
    ensures var (s', status) := Handle(s, UpdatePermissionRequest(p, name, actions, objects, subjects));
      && status == (if p in s.permissions then Success else NotFound)
      && (p !in s.permissions ==> s' == s)
      && (p in s.permissions ==>
            && s' == s.(permissions := s'.permissions) && s'.permissions.Keys == s.permissions.Keys
            && (forall q :: q in s.permissions && q != p ==> s'.permissions[q] == s.permissions[q])
            && var before, after := s.permissions[p], s'.permissions[p];
               && after.name == name && after.actions == actions && after.objects == objects
               && after.subjects == subjects && after.uuid == before.uuid && after.createdAt == before.createdAt
               && after.createdBy == before.createdBy && after.updatedAt == before.updatedAt
               && after.updatedBy == before.updatedBy)
  {}

  // ----- Runs -----------------------------------------------------------------------------

  /** A run makes its requests one after another, each on the server that the one before it left. */
  lemma {:induction false} RunIsOneByOne(s: Snapshot, requests: seq<Request>, last: Request)
    ensures Run(s, []) == s
    ensures Run(s, requests + [last]) == Handle(Run(s, requests), last).0
    decreases |requests|
  {
    hide Handle;
    if requests == [] {
      assert [] + [last] == [last];
      assert Run(s, [last]) == Run(Handle(s, last).0, []);
    } else {
      assert (requests + [last])[1..] == requests[1..] + [last];
      RunIsOneByOne(Handle(s, requests[0]).0, requests[1..], last);
    }
  }
}
