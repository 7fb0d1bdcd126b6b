/** What the client's reads tell it about a server whose copies agree. */
module Reading {
  import opened Wrappers
  import opened Text
  import opened Uuids
  import opened Directory
  import opened Invariants
  import opened Wire
  import opened Protocol

  // ----- Looking things up by resource ID -------------------------------------------------

  function UserOf(s: Snapshot, user: string): Option<User>
  {
    match Atoi(user) case None => None case Some(id) => UserByID(s, id)
  }

  function GroupOf(s: Snapshot, group: string): Option<Group>
  {
    match Atoi(group) case None => None case Some(id) => GroupByID(s, id)
  }

  predicate IsMember(s: Snapshot, group: string, user: string)
  {
    && UserOf(s, user).Some? && GroupOf(s, group).Some?
    && UserOf(s, user).value.uuid in Row(s.members, GroupOf(s, group).value.uuid)
  }

  /** A resource ID exactly as the connector prints it: "7", but neither "07" nor "+7". */
  predicate IsDecimal(user: string)
  {
    Atoi(user).Some? && Itoa(Atoi(user).value) == user
  }

  predicate IsFixed(s: Snapshot, group: string)
  {
    GroupOf(s, group).Some? && GroupOf(s, group).value.membershipFixed
  }

  // ----- Everything decodes ---------------------------------------------------------------

  lemma CanonicalParses(uuid: string)
    requires Canonical(uuid)
    ensures Parse(uuid).Some? && Render(Parse(uuid).value) == uuid
  {
    RenderOfParse(uuid);
  }

  lemma RoleKeysCanonical(c: Catalog, r: string)
    requires CatalogOk(c) && r in c.roles
    ensures Canonical(r)
  {}

  lemma RefsNameRoles(roles: map<string, Role>, users: map<string, User>, userRoles: map<string, seq<string>>,
                      k: string, i: nat)
    requires RolesAgree(roles, users, userRoles) && k in users && i < |users[k].rbacRoles|
    ensures users[k].rbacRoles[i].uuid in roles
    ensures |Row(userRoles, k)| == |users[k].rbacRoles| && Row(userRoles, k)[i] == users[k].rbacRoles[i].uuid
  {
    assert RefsAgree(roles, users[k].rbacRoles, Row(userRoles, k));
    assert users[k].rbacRoles[i] in users[k].rbacRoles;
    assert RoleUuids(users[k].rbacRoles)[i] == users[k].rbacRoles[i].uuid;
  }

  lemma UserDecodes(s: Snapshot, k: string)
    requires Inv(s) && k in s.users
    ensures DecodeUser(s.users[k]).Some?
  {
    hide Canonical, CatalogOk, RolesAgree, IndexesAgree, IdsIssued, MembersAgree, AllUsersComplete,
      PermissionsIndexed;
    var refs := s.users[k].rbacRoles;
    if DecodeAll(refs, DecodeRoleRef).None? {
      var i :| 0 <= i < |refs| && DecodeRoleRef(refs[i]).None?;
      RefsNameRoles(s.catalog.roles, s.users, s.userRoles, k, i);
      RoleKeysCanonical(s.catalog, refs[i].uuid);
      CanonicalParses(refs[i].uuid);
      assert false;
    }
  }

  lemma RoleListCanonical(c: Catalog, i: nat)
    requires CatalogOk(c) && i < |c.roleList|
    ensures Canonical(c.roleList[i].uuid)
  {
    assert c.roleList[i] in c.roleList;
  }

  // ----- Reading one user -----------------------------------------------------------------

  lemma UserOfFound(s: Snapshot, user: string)
    requires Inv(s)
    ensures UserOf(s, user).Some? ==>
      var u := UserOf(s, user).value;
      && u.uuid in s.users && s.users[u.uuid] == u && Atoi(user) == Some(u.id) && u.id in s.byID
          && s.byID[u.id] == u.uuid
      && Canonical(u.uuid) && MIN_INT <= u.id <= MAX_INT
  {
    hide Canonical, CatalogOk, RolesAgree, MembersAgree, AllUsersComplete, PermissionsIndexed, FormatUuid;
    if UserOf(s, user).Some? {
      UserByIDFound(s, Atoi(user).value);
      var u := UserOf(s, user).value;
      assert Issued(u.uuid, u.id, s.nextUserID);
    }
  }

  /** GET /users/{id} answers exactly when the path names a user, with that user's record. */
  lemma UserDetailsRead(s: Snapshot, user: string)
    requires Inv(s)
    ensures GetUserDetails(s, user).Ok? <==> UserOf(s, user).Some?
    ensures UserOf(s, user).Some? ==> Some(GetUserDetails(s, user).value) == DecodeUser(UserOf(s, user).value)
    ensures UserOf(s, user).None? ==>
      GetUserDetails(s, user) == Err(Refused(if Atoi(user).None? then BadRequest else NotFound))
  {
    UserOfFound(s, user);
    if UserOf(s, user).Some? { UserDecodes(s, UserOf(s, user).value.uuid); }
  }

  // ----- Reading the members of a group ---------------------------------------------------

  /** The listed members decode, and the search by printed ID finds the row's users of that ID. */
  lemma {:induction false} FindAmong(s: Snapshot, row: seq<string>, user: string)
    requires Inv(s)
    ensures DecodeUsers(LiveUsers(s.users, row)).Some?
    ensures var found := FindMember(DecodeUsers(LiveUsers(s.users, row)).value, user);
      if found.Some? then exists k ::
          k in row && k in s.users && Itoa(s.users[k].id) == user && DecodeUser(s.users[k]) == found
      else forall k :: k in row && k in s.users ==> Itoa(s.users[k].id) != user
  {
    hide Inv, Itoa;
    if row != [] {
      FindAmong(s, row[1..], user);
      var rest := LiveUsers(s.users, row[1..]);
      if row[0] in s.users {
        UserDecodes(s, row[0]);
        var live := LiveUsers(s.users, row);
        assert live == [s.users[row[0]]] + rest;
        assert live[1..] == rest;
        var m := DecodeUser(s.users[row[0]]).value;
        var ms := DecodeUsers(rest).value;
        assert DecodeUsers(live).value == [m] + ms;
        assert ([m] + ms)[1..] == ms;
      } else {
        assert LiveUsers(s.users, row) == rest;
      }
    }
  }

  lemma KeyedByPrintedId(s: Snapshot, k: string, user: string)
    requires Inv(s) && k in s.users && Itoa(s.users[k].id) == user
    ensures IsDecimal(user) && UserOf(s, user) == Some(s.users[k]) && s.users[k].uuid == k
  {
    hide Canonical, CatalogOk, RolesAgree, MembersAgree, AllUsersComplete, PermissionsIndexed, FormatUuid, Itoa, Atoi;
    assert Issued(k, s.users[k].id, s.nextUserID);
    AtoiOfItoa(s.users[k].id);
  }

  /** Searching the member list finds the principal exactly when it is a member and its resource ID
      is spelled as the connector spells it. */
  lemma MemberListRead(s: Snapshot, group: string, user: string)
    requires Inv(s)
    ensures GetGroupMembers(s, group).Ok? <==> GroupOf(s, group).Some?
    ensures GroupOf(s, group).None? ==>
      GetGroupMembers(s, group) == Err(Refused(if Atoi(group).None? then BadRequest else NotFound))
    ensures GroupOf(s, group).Some? ==>
      var found := FindMember(GetGroupMembers(s, group).value, user);
      && (found.Some? <==> IsMember(s, group, user) && IsDecimal(user))
      && (found.Some? ==> found == DecodeUser(UserOf(s, user).value))
  {
    UserOfFound(s, user);
    hide Inv, Itoa, Atoi, DecodeUsers, DecodeUser, FindMember, Canonical;
    if GroupOf(s, group).Some? {
      var row := Row(s.members, GroupOf(s, group).value.uuid);
      FindAmong(s, row, user);
      var found := FindMember(GetGroupMembers(s, group).value, user);
      if found.Some? {
        var k :| k in row && k in s.users && Itoa(s.users[k].id) == user && DecodeUser(s.users[k]) == found;
        KeyedByPrintedId(s, k, user);
      }
    }
  }
}
