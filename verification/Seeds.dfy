/** The state the test server starts from. */
module Seeds {
  import opened Sequences
  import opened Uuids
  import opened Directory
  import opened Invariants
  import opened SeedUuids
  import opened Tables

  const ADMIN := Role(ROLE_ADMIN, "Administrator", "Full administrative access to all features.",
                      ["TIO_BACKEND.ACCESS_CONTROL.MANAGE", "TIO_BACKEND.SCAN.MANAGE"], "STANDARD", "ENABLED")
  const SCAN_MANAGER := Role(ROLE_SCAN_MANAGER, "Scan Manager", "Manage scans and view vulnerabilities.",
                             ["TIO_BACKEND.SCAN.MANAGE", "TIO_BACKEND.VULNERABILITY.READ"], "STANDARD", "ENABLED")
  const BASIC := Role(ROLE_BASIC, "Basic", "Read-only basic access.",
                      ["TIO_BACKEND.VULNERABILITY.READ"], "STANDARD", "ENABLED")
  const ANALYST := Role(ROLE_CUSTOM, "Security Analyst", "Custom role for security analysts.",
                        ["TIO_BACKEND.VULNERABILITY.READ", "TIO_BACKEND.ASSET.READ"], "CUSTOM", "ENABLED")

  const EVERYONE := Group(ALL_USERS, 0, "All Users", CONTAINER_UUID, true, true)
  const ENGINEERING := Group(GROUP_ENG, 101, "Engineering", CONTAINER_UUID, false, false)
  const PRODUCT := Group(GROUP_PRODUCT, 102, "Product", CONTAINER_UUID, false, false)
  const OPERATIONS := Group(GROUP_OPS, 103, "Operations", CONTAINER_UUID, false, false)
  const CONTRACTORS := Group(GROUP_CONTRACTORS, 104, "Contractors", CONTAINER_UUID, false, false)

  function Ref(r: Role): RbacRole { RbacRole(r.uuid, r.name) }

  const ALICE_USER := User(ALICE, 1001, "alice@example.com", "alice@example.com", "Alice Admin", 64, true,
                           1787000000000, CONTAINER_UUID, [ALL_USERS, GROUP_ENG], [Ref(ADMIN)])
  const BOB_USER := User(BOB, 1002, "bob@example.com", "bob@example.com", "Bob Builder", 40, true,
                         1786500000000, CONTAINER_UUID, [ALL_USERS, GROUP_ENG, GROUP_PRODUCT], [Ref(SCAN_MANAGER)])
  const CAROL_USER := User(CAROL, 1003, "carol@example.com", "carol@example.com", "Carol Disabled", 16, false,
                           1780000000000, CONTAINER_UUID, [ALL_USERS, GROUP_PRODUCT], [Ref(BASIC)])
  const DAVE_USER := User(DAVE, 1004, "dave@example.com", "dave@example.com", "Dave Lonely", 16, true,
                          0, CONTAINER_UUID, [ALL_USERS], [Ref(BASIC)])
  const EVE_USER := User(EVE, 1005, "eve@example.com", "eve@example.com", "Eve Operator", 32, true,
                         1786900000000, CONTAINER_UUID, [ALL_USERS, GROUP_OPS], [Ref(ANALYST)])
  const FRANK_USER := User(FRANK, 1006, "frank@example.com", "frank@example.com", "Frank Noroles", 16, true,
                           1786100000000, CONTAINER_UUID, [ALL_USERS], [])

  const PERMISSIONS: seq<Permission> := [
    Permission(PERM_ASSETS, "All Assets [CanScan, CanView]", ["CanView", "CanScan"], [Subject("AllAssets", "", "")],
               [Subject("User", ALICE, "alice@example.com"), Subject("UserGroup", GROUP_ENG, "Engineering")],
               1648122396493, "System", 0, ""),
    Permission(PERM_TAG, "Tag 'Location:Headquarters' owner permissions", ["CanUse", "CanEdit"],
               [Subject("Tag", TAG_LOCATION, "Location:Headquarters")],
               [Subject("User", EVE, "eve@example.com")],
               1706909726620, "eve@example.com", 0, ""),
    Permission(PERM_ALL_USERS, "All Assets [CanView] for everyone", ["CanView"], [Subject("AllAssets", "", "")],
               [Subject("AllUsers", "", "")],
               1706909726620, "System", 0, ""),
    Permission(PERM_ALL_ADMINS, "Administrative baseline", ["CanView", "CanEdit"], [Subject("AllAssets", "", "")],
               [Subject("AllAdmins", "", ""), Subject("User", BOB, "bob@example.com")],
               1706909726620, "System", 0, "")]

  const USER_LIST: seq<User> := [ALICE_USER, BOB_USER, CAROL_USER, DAVE_USER, EVE_USER, FRANK_USER]
  const GROUP_LIST: seq<Group> := [EVERYONE, ENGINEERING, PRODUCT, OPERATIONS, CONTRACTORS]
  const ROLE_LIST: seq<Role> := [ADMIN, SCAN_MANAGER, BASIC, ANALYST]

  const CATALOG := CatalogOf(GROUP_LIST, ROLE_LIST)

  const MEMBERS: map<string, seq<string>> := map[
    ALL_USERS := [ALICE, BOB, CAROL, DAVE, EVE, FRANK],
    GROUP_ENG := [ALICE, BOB],
    GROUP_PRODUCT := [BOB, CAROL],
    GROUP_OPS := [EVE]]

  /** What seed leaves behind. */
  function Seed(): Snapshot
  {
    Snapshot(
      CATALOG, 1006, UsersOf(USER_LIST), IdsOf(USER_LIST), OrderOf(USER_LIST), MEMBERS, MemberCounts(CATALOG, MEMBERS),
      RoleRowsOf(USER_LIST), IndexBy(PERMISSIONS, UuidOfPermission),
      PermissionOrderOf(PERMISSIONS))
  }

  // ----- The seed satisfies every invariant -----------------------------------------------

  lemma UserKeysDistinct()
    ensures KeysDistinct(USER_LIST, UuidOfUser) && KeysDistinct(USER_LIST, IdOfUser)
  {
    assert ALICE[0] == '1' && BOB[0] == '2' && CAROL[0] == '3' && DAVE[0] == '4' && EVE[0] == '5' && FRANK[0] == '6';
  }

  lemma GroupKeysDistinct()
    ensures KeysDistinct(GROUP_LIST, IdOfGroup) && KeysDistinct(GROUP_LIST, UuidOfGroup)
  {
    assert ALL_USERS[0] == '0' && GROUP_ENG[0] == 'a' && GROUP_PRODUCT[0] == 'b' && GROUP_OPS[0] == 'c'
      && GROUP_CONTRACTORS[0] == 'd';
  }

  lemma RoleKeysDistinct()
    ensures KeysDistinct(ROLE_LIST, UuidOfRole)
  {
    assert ROLE_ADMIN[0] == 'a' && ROLE_SCAN_MANAGER[0] == 'b' && ROLE_BASIC[0] == 'c' && ROLE_CUSTOM[0] == 'd';
  }

  lemma PermissionKeysDistinct()
    ensures KeysDistinct(PERMISSIONS, UuidOfPermission)
  {
    assert PERM_ASSETS[0] == 'e' && PERM_TAG[0] == 'f' && PERM_ALL_USERS[0] == 'a' && PERM_ALL_ADMINS[0] == 'b';
  }

  lemma OtherFirstLetter(uuid: string)
    requires uuid != "" && uuid[0] != '0'
    ensures !(UUID_PREFIX <= uuid) && uuid != ALL_USERS
  {
    assert UUID_PREFIX[0] == '0' && ALL_USERS[0] == '0';
  }

  // ----- The seed satisfies the invariant -------------------------------------------------

  lemma UsersCanonical()
    ensures forall u :: u in USER_LIST ==> Canonical(u.uuid)
  {
    hide Canonical;
    AliceCanonical();
    BobCanonical();
    CarolCanonical();
    DaveCanonical();
    EveCanonical();
    FrankCanonical();
  }

  lemma EveryoneOk()
    ensures GroupOk(EVERYONE)
  {
    hide Canonical;
    AllUsersIsNil();
    assert UUID_PREFIX[14] == '4' && ALL_USERS[14] == '0';
  }

  lemma EngineeringOk()
    ensures GroupOk(ENGINEERING)
  {
    hide Canonical, UUID_PREFIX, ALL_USERS;
    GroupEngCanonical();
    OtherFirstLetter(GROUP_ENG);
  }

  lemma ProductOk()
    ensures GroupOk(PRODUCT)
  {
    hide Canonical, UUID_PREFIX, ALL_USERS;
    GroupProductCanonical();
    OtherFirstLetter(GROUP_PRODUCT);
  }

  lemma OperationsOk()
    ensures GroupOk(OPERATIONS)
  {
    hide Canonical, UUID_PREFIX, ALL_USERS;
    GroupOpsCanonical();
    OtherFirstLetter(GROUP_OPS);
  }

  lemma ContractorsOk()
    ensures GroupOk(CONTRACTORS)
  {
    hide Canonical, UUID_PREFIX, ALL_USERS;
    GroupContractorsCanonical();
    OtherFirstLetter(GROUP_CONTRACTORS);
  }

  lemma GroupsOk()
    ensures forall g :: g in GROUP_LIST ==> GroupOk(g)
  {
    hide GroupOk, EVERYONE, ENGINEERING, PRODUCT, OPERATIONS, CONTRACTORS;
    EveryoneOk();
    EngineeringOk();
    ProductOk();
    OperationsOk();
    ContractorsOk();
  }

  lemma RolesCanonical()
    ensures forall r :: r in ROLE_LIST ==> Canonical(r.uuid)
  {
    hide Canonical;
    RoleAdminCanonical();
    RoleScanManagerCanonical();
    RoleBasicCanonical();
    RoleCustomCanonical();
  }

  lemma PermissionsCanonical()
    ensures forall p :: p in PERMISSIONS ==> Canonical(p.uuid)
  {
    hide Canonical;
    PermAssetsCanonical();
    PermTagCanonical();
    PermAllUsersCanonical();
    PermAllAdminsCanonical();
  }

  lemma SeedCatalogOk()
    ensures CatalogOk(CATALOG)
  {
    GroupKeysDistinct();
    RoleKeysDistinct();
    RolesCanonical();
    GroupsOk();
    assert GROUP_LIST[0].uuid == ALL_USERS;
    hide CatalogOk, GroupOk, Canonical, GROUP_LIST, ROLE_LIST;
    FiledCatalogOk(GROUP_LIST, ROLE_LIST);
  }

  lemma UserLetter(u: User)
    requires u in USER_LIST
    ensures u.uuid != "" && '1' <= u.uuid[0] <= '6'
  {
    assert ALICE[0] == '1' && BOB[0] == '2' && CAROL[0] == '3' && DAVE[0] == '4' && EVE[0] == '5' && FRANK[0] == '6';
  }

  lemma GroupLetter(g: Group)
    requires g in GROUP_LIST
    ensures g.uuid != "" && !('1' <= g.uuid[0] <= '6')
  {
    assert ALL_USERS[0] == '0' && GROUP_ENG[0] == 'a' && GROUP_PRODUCT[0] == 'b' && GROUP_OPS[0] == 'c'
      && GROUP_CONTRACTORS[0] == 'd';
  }

  lemma UsersAreNoGroups()
    ensures forall u, g :: u in USER_LIST && g in GROUP_LIST ==> u.uuid != g.uuid
  {
    hide USER_LIST, GROUP_LIST;
    forall u, g | u in USER_LIST && g in GROUP_LIST
      ensures u.uuid != g.uuid
    {
      UserLetter(u);
      GroupLetter(g);
    }
  }

  lemma SeedIndexesAgree()
    ensures IndexesAgree(UsersOf(USER_LIST), IdsOf(USER_LIST), OrderOf(USER_LIST))
  {
    UserKeysDistinct();
    hide USER_LIST;
    FiledUsersAgree(USER_LIST);
  }

  lemma SeedUserIssued(u: User)
    requires u in USER_LIST
    ensures Issued(u.uuid, u.id, 1006)
  {
    hide Canonical, FormatUuid, UUID_PREFIX, ALL_USERS, ALICE, BOB, CAROL, DAVE, EVE, FRANK;
    UsersCanonical();
    UserLetter(u);
    OtherFirstLetter(u.uuid);
  }

  lemma SeedUsersIssued()
    ensures forall u :: u in USER_LIST ==> Issued(u.uuid, u.id, 1006)
  {
    hide Issued, USER_LIST;
    forall u | u in USER_LIST
      ensures Issued(u.uuid, u.id, 1006)
    {
      SeedUserIssued(u);
    }
  }

  lemma SeedUsersAreNoGroups()
    ensures forall u :: u in USER_LIST ==> u.uuid !in GroupUuids(CATALOG)
  {
    UsersAreNoGroups();
    hide USER_LIST, GROUP_LIST;
  }

  lemma SeedIdsIssued()
    ensures IdsIssued(UsersOf(USER_LIST), 1006, GroupUuids(CATALOG))
  {
    UserKeysDistinct();
    SeedUsersIssued();
    SeedUsersAreNoGroups();
    hide Issued, IdsIssued, USER_LIST, GROUP_LIST, CATALOG;
    FiledIdsIssued(USER_LIST, 1006, GroupUuids(CATALOG));
  }

  lemma RoleIsNamed(r: Role)
    requires r in ROLE_LIST
    ensures r.uuid in CATALOG.roles && CATALOG.roles[r.uuid].name == r.name
  {
    hide ROLE_LIST, GROUP_LIST;
    RoleKeysDistinct();
    IndexByLookup(ROLE_LIST, UuidOfRole);
    var i :| 0 <= i < |ROLE_LIST| && ROLE_LIST[i] == r;
    assert UuidOfRole(ROLE_LIST[i]) == r.uuid;
  }

  lemma RefsAreNamed(u: User)
    requires u in USER_LIST
    ensures forall r :: r in u.rbacRoles ==> r.uuid in CATALOG.roles && CATALOG.roles[r.uuid].name == r.name
  {
    hide CATALOG, ADMIN, SCAN_MANAGER, BASIC, ANALYST;
    assert ROLE_LIST[0] == ADMIN && ROLE_LIST[1] == SCAN_MANAGER && ROLE_LIST[2] == BASIC && ROLE_LIST[3] == ANALYST;
    RoleIsNamed(ADMIN);
    RoleIsNamed(SCAN_MANAGER);
    RoleIsNamed(BASIC);
    RoleIsNamed(ANALYST);
  }

  lemma SeedRolesAgree()
    ensures RolesAgree(CATALOG.roles, UsersOf(USER_LIST), RoleRowsOf(USER_LIST))
  {
    hide USER_LIST, CATALOG, RolesAgree;
    UserKeysDistinct();
    forall u | u in USER_LIST
      ensures forall r :: r in u.rbacRoles ==> r.uuid in CATALOG.roles && CATALOG.roles[r.uuid].name == r.name
    {
      RefsAreNamed(u);
    }
    FiledRolesAgree(USER_LIST, CATALOG.roles);
  }

  lemma MembersAreListed()
    ensures forall g, k :: g in MEMBERS && k in MEMBERS[g] ==> k in OrderOf(USER_LIST)
  {
    hide ALICE, BOB, CAROL, DAVE, EVE, FRANK, ALL_USERS, GROUP_ENG, GROUP_PRODUCT, GROUP_OPS, GROUP_CONTRACTORS;
    assert OrderOf(USER_LIST) == [ALICE, BOB, CAROL, DAVE, EVE, FRANK];
  }

  lemma MemberRows(g: string)
    ensures Row(MEMBERS, g) ==
      if g == ALL_USERS then [ALICE, BOB, CAROL, DAVE, EVE, FRANK]
      else if g == GROUP_ENG then [ALICE, BOB]
      else if g == GROUP_PRODUCT then [BOB, CAROL]
      else if g == GROUP_OPS then [EVE] else []
  {
    NamesDistinct();
    hide ALICE, BOB, CAROL, DAVE, EVE, FRANK, ALL_USERS, GROUP_ENG, GROUP_PRODUCT, GROUP_OPS, GROUP_CONTRACTORS;
  }

  lemma MembersHaveGroups()
    ensures forall g :: g in MEMBERS ==> g in GroupUuids(CATALOG)
  {
    hide ALICE, BOB, CAROL, DAVE, EVE, FRANK, ALL_USERS, GROUP_ENG, GROUP_PRODUCT, GROUP_OPS, GROUP_CONTRACTORS;
    assert EVERYONE in GROUP_LIST && ENGINEERING in GROUP_LIST && PRODUCT in GROUP_LIST && OPERATIONS in GROUP_LIST;
  }

  lemma MemberRowOk(g: string)
    ensures NoDuplicates(Row(MEMBERS, g))
  {
    NamesDistinct();
    MemberRows(g);
    hide ALICE, BOB, CAROL, DAVE, EVE, FRANK, ALL_USERS, GROUP_ENG, GROUP_PRODUCT, GROUP_OPS, GROUP_CONTRACTORS,
      MEMBERS;
  }

  lemma MemberRowsOk()
    ensures forall g :: g in MEMBERS ==> g in GroupUuids(CATALOG) && NoDuplicates(MEMBERS[g])
  {
    hide MEMBERS, CATALOG, NoDuplicates;
    MembersHaveGroups();
    forall g | g in MEMBERS
      ensures NoDuplicates(MEMBERS[g])
    {
      MemberRowOk(g);
    }
  }

  lemma MembershipsListedOnce()
    ensures forall u :: u in USER_LIST ==> NoDuplicates(u.groupUUIDs)
  {
    NamesDistinct();
    hide ALICE, BOB, CAROL, DAVE, EVE, FRANK, ALL_USERS, GROUP_ENG, GROUP_PRODUCT, GROUP_OPS, GROUP_CONTRACTORS;
  }

  lemma FirstMirrorRow(u: User, g: string)
    requires u == ALICE_USER || u == BOB_USER || u == CAROL_USER
    ensures g in u.groupUUIDs <==> u.uuid in Row(MEMBERS, g)
  {
    NamesDistinct();
    MemberRows(g);
    hide ALICE, BOB, CAROL, DAVE, EVE, FRANK, ALL_USERS, GROUP_ENG, GROUP_PRODUCT, GROUP_OPS, GROUP_CONTRACTORS,
      MEMBERS;
  }

  lemma LastMirrorRow(u: User, g: string)
    requires u == DAVE_USER || u == EVE_USER || u == FRANK_USER
    ensures g in u.groupUUIDs <==> u.uuid in Row(MEMBERS, g)
  {
    NamesDistinct();
    MemberRows(g);
    hide ALICE, BOB, CAROL, DAVE, EVE, FRANK, ALL_USERS, GROUP_ENG, GROUP_PRODUCT, GROUP_OPS, GROUP_CONTRACTORS,
      MEMBERS;
  }

  lemma MembershipsMirrorRow(u: User, g: string)
    requires u in USER_LIST
    ensures g in u.groupUUIDs <==> u.uuid in Row(MEMBERS, g)
  {
    hide ALICE_USER, BOB_USER, CAROL_USER, DAVE_USER, EVE_USER, FRANK_USER, MEMBERS;
    if u == ALICE_USER || u == BOB_USER || u == CAROL_USER { FirstMirrorRow(u, g); } else { LastMirrorRow(u, g); }
  }

  lemma SeedMembersAgree()
    ensures MembersAgree(GroupUuids(CATALOG), UsersOf(USER_LIST), MEMBERS)
  {
    UserKeysDistinct();
    MembersAreListed();
    MemberRowsOk();
    MembershipsListedOnce();
    forall u, g | u in USER_LIST
      ensures g in u.groupUUIDs <==> u.uuid in Row(MEMBERS, g)
    {
      MembershipsMirrorRow(u, g);
    }
    hide USER_LIST, MEMBERS, CATALOG, MembersAgree;
    FiledMembersAgree(USER_LIST, MEMBERS, GroupUuids(CATALOG));
  }

  lemma SeedAllUsersComplete()
    ensures AllUsersComplete(UsersOf(USER_LIST), MEMBERS)
  {
    SeedIndexesAgree();
    NamesDistinct();
    hide ALICE, BOB, CAROL, DAVE, EVE, FRANK, ALL_USERS, GROUP_ENG, GROUP_PRODUCT, GROUP_OPS, GROUP_CONTRACTORS;
    assert OrderOf(USER_LIST) == [ALICE, BOB, CAROL, DAVE, EVE, FRANK];
    assert Row(MEMBERS, ALL_USERS) == OrderOf(USER_LIST);
  }

  lemma SeedPermissionsIndexed()
    ensures PermissionsIndexed(IndexBy(PERMISSIONS, UuidOfPermission), PermissionOrderOf(PERMISSIONS))
  {
    PermissionKeysDistinct();
    PermissionsCanonical();
    hide PERMISSIONS, Canonical;
    FiledPermissionsIndexed(PERMISSIONS);
  }

  /** The state that seed leaves behind satisfies the whole invariant. */
  lemma SeedSatisfiesInv()
    ensures Inv(Seed())
  {
    hide CatalogOk, IndexesAgree, IdsIssued, MembersAgree, RolesAgree, AllUsersComplete, PermissionsIndexed,
      USER_LIST, PERMISSIONS, MEMBERS, CATALOG;
    SeedCatalogOk();
    SeedIndexesAgree();
    SeedIdsIssued();
    SeedMembersAgree();
    SeedRolesAgree();
    SeedAllUsersComplete();
    SeedPermissionsIndexed();
  }

  lemma NamesDistinct()
    ensures ALICE != BOB && ALICE != CAROL && ALICE != DAVE && ALICE != EVE && ALICE != FRANK
    ensures BOB != CAROL && BOB != DAVE && BOB != EVE && BOB != FRANK
    ensures CAROL != DAVE && CAROL != EVE && CAROL != FRANK
    ensures DAVE != EVE && DAVE != FRANK
    ensures EVE != FRANK
    ensures ALL_USERS != GROUP_ENG && ALL_USERS != GROUP_PRODUCT && ALL_USERS != GROUP_OPS
        && ALL_USERS != GROUP_CONTRACTORS
    ensures GROUP_ENG != GROUP_PRODUCT && GROUP_ENG != GROUP_OPS && GROUP_ENG != GROUP_CONTRACTORS
    ensures GROUP_PRODUCT != GROUP_OPS && GROUP_PRODUCT != GROUP_CONTRACTORS
    ensures GROUP_OPS != GROUP_CONTRACTORS
  {
    assert ALICE[0] == '1' && BOB[0] == '2' && CAROL[0] == '3' && DAVE[0] == '4' && EVE[0] == '5' && FRANK[0] == '6';
    assert ALL_USERS[0] == '0' && GROUP_ENG[0] == 'a' && GROUP_PRODUCT[0] == 'b' && GROUP_OPS[0] == 'c'
      && GROUP_CONTRACTORS[0] == 'd';
  }
}
