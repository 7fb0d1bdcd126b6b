/** The clashes happen on the seeded server: a pair of operations of each kind that meets the premises. */
module SeedClashes {
  import opened Wrappers
  import opened Text
  import opened Uuids
  import opened Directory
  import opened Invariants
  import opened Wire
  import opened Protocol
  import opened Reading
  import opened Meaning
  import opened Interference
  import opened Subjects
  import opened Typing
  import opened Clashes
  import opened Reachable
  import opened SeedUuids
  import opened Tables
  import opened Seeds

  function IdOf(u: User): string { Itoa(u.id) }

  /** A seed user is found under its printed ID, with its roles. */
  lemma SeedUserFound(u: User)
    requires u in USER_LIST
    ensures Atoi(IdOf(u)) == Some(u.id) && UserOf(Seed(), IdOf(u)) == Some(u)
    ensures Row(Seed().userRoles, u.uuid) == RoleUuids(u.rbacRoles)
  {
    hide MEMBERS, CATALOG, PERMISSIONS, Atoi, Itoa, USER_LIST;
    UserKeysDistinct();
    IndexByLookup(USER_LIST, UuidOfUser);
    IndexByLookup(USER_LIST, IdOfUser);
    SeedIdRange(u);
    AtoiOfItoa(u.id);
    var i :| 0 <= i < |USER_LIST| && USER_LIST[i] == u;
    assert UuidOfUser(USER_LIST[i]) == u.uuid && IdOfUser(USER_LIST[i]) == u.id;
  }

  lemma SeedIdRange(u: User)
    requires u in USER_LIST
    ensures MIN_INT <= u.id <= MAX_INT
  {
    hide ALICE, BOB, CAROL, DAVE, EVE, FRANK;
  }

  /** The All Assets permission: Alice is its one User subject. */
  lemma AssetsStored()
    ensures PERM_ASSETS in Seed().permissions && Seed().permissions[PERM_ASSETS] == PERMISSIONS[0]
    ensures SubjectsOf(Seed(), PERM_ASSETS).Some?
  {
    hide MEMBERS, CATALOG, USER_LIST, PermissionTyped, DecodePermission;
    PermissionKeysDistinct();
    IndexByLookup(PERMISSIONS, UuidOfPermission);
    assert UuidOfPermission(PERMISSIONS[0]) == PERM_ASSETS;
    SeedSatisfiesInv();
    SeedPermissionsTyped();
    TypedDecodes(Seed(), PERM_ASSETS);
  }

  /** Alice and nobody else among the users is a subject of it. */
  lemma AssetsSubjects(u: User)
    requires u in USER_LIST
    ensures UserOf(Seed(), IdOf(u)) == Some(u)
    ensures HasPermission(Seed(), IdOf(u), PERM_ASSETS) == (u.uuid == ALICE)
  {
    hide Seed, Canonical, Normal, UserOf, SubjectsOf, HasPermission, DecodeAll, Itoa, ALICE, GROUP_ENG, USER_LIST;
    SeedUserFound(u);
    AssetsStored();
    HasPermissionMeans(Seed(), IdOf(u), PERM_ASSETS);
    var p := PERMISSIONS[0];
    assert p.subjects == [Subject("User", ALICE, "alice@example.com"), Subject("UserGroup", GROUP_ENG, "Engineering")];
    AliceCanonical();
    GroupEngCanonical();
    NormalForm(p.subjects[0]);
    NormalForm(p.subjects[1]);
    EngineeringIsNoUser(u);
  }

  lemma EngineeringIsNoUser(u: User)
    requires u in USER_LIST
    ensures u.uuid != GROUP_ENG
  {
    hide USER_LIST;
    UserLetter(u);
    assert GROUP_ENG[0] == 'a';
  }

  lemma AnswerAtSeed(op: Op, u: User)
    requires ForPermission(op) && op.principalType == USER_TYPE && op.permission == PERM_ASSETS
    requires u in USER_LIST && op.user == IdOf(u)
    ensures PermissionAnswer(op, Seed()) ==
      if (u.uuid == ALICE) == op.PermissionRevoke? then Applied
      else if op.PermissionGrant? then AlreadyExists else AlreadyRevoked
  {
    hide Seed, UserOf, DecodePermission, HasPermission, USER_LIST, ALICE, Atoi, Itoa;
    AssetsSubjects(u);
    AssetsStored();
  }

  /** Carol and Dave are to be granted the All Assets permission; Alice has it. Grants for two users, a
      grant for one and a revoke for another, and a grant and a revoke for one clash, and both act. */
  lemma PermissionClashesAtSeed()
    ensures var carol, dave := PermissionGrant(USER_TYPE, IdOf(CAROL_USER), PERM_ASSETS),
                PermissionGrant(USER_TYPE, IdOf(DAVE_USER), PERM_ASSETS);
      BodyClash(carol, dave) && !SameUser(carol, dave) && BothAct(carol, dave, Seed())
    ensures var carol, alice := PermissionGrant(USER_TYPE, IdOf(CAROL_USER), PERM_ASSETS),
                PermissionRevoke(USER_TYPE, IdOf(ALICE_USER), PERM_ASSETS);
      BodyClash(carol, alice) && !SameUser(carol, alice) && BothAct(carol, alice, Seed())
    ensures var carol, back := PermissionGrant(USER_TYPE, IdOf(CAROL_USER), PERM_ASSETS),
                PermissionRevoke(USER_TYPE, IdOf(CAROL_USER), PERM_ASSETS);
      BodyClash(carol, back) && SameUser(carol, back) && BothAct(carol, back, Seed())
  {
    hide Seed, PermissionAnswer, Atoi, Itoa, ALICE, BOB, CAROL, DAVE, EVE, FRANK, PERM_ASSETS, UserOf;
    NamesDistinct();
    assert USER_LIST[0] == ALICE_USER && USER_LIST[2] == CAROL_USER && USER_LIST[3] == DAVE_USER;
    SeedUserFound(ALICE_USER);
    SeedUserFound(CAROL_USER);
    SeedUserFound(DAVE_USER);
    AnswerAtSeed(PermissionGrant(USER_TYPE, IdOf(CAROL_USER), PERM_ASSETS), CAROL_USER);
    AnswerAtSeed(PermissionGrant(USER_TYPE, IdOf(DAVE_USER), PERM_ASSETS), DAVE_USER);
    AnswerAtSeed(PermissionRevoke(USER_TYPE, IdOf(ALICE_USER), PERM_ASSETS), ALICE_USER);
  }

  lemma SeedFloor()
    ensures Floor(Seed().catalog.roleList) == Some(ROLE_BASIC)
    ensures ROLE_ADMIN in Seed().catalog.roles
  {
    hide ROLE_ADMIN, ROLE_SCAN_MANAGER, ROLE_BASIC, ROLE_CUSTOM;
    assert ROLE_LIST[1..][0] == SCAN_MANAGER && ROLE_LIST[1..][1..][0] == BASIC;
    RoleKeysDistinct();
    IndexByLookup(ROLE_LIST, UuidOfRole);
    assert UuidOfRole(ROLE_LIST[0]) == ROLE_ADMIN;
  }

  lemma RoleNamesDistinct()
    ensures ROLE_ADMIN != ROLE_SCAN_MANAGER && ROLE_ADMIN != ROLE_BASIC && ROLE_SCAN_MANAGER != ROLE_BASIC
  {
    assert ROLE_ADMIN[0] == 'a' && ROLE_SCAN_MANAGER[0] == 'b' && ROLE_BASIC[0] == 'c';
  }

  lemma RoleAnswersAtSeed(u: User, role: string)
    requires u in USER_LIST && RoleUuids(u.rbacRoles) == [role] && role != ROLE_ADMIN
    ensures RoleGrantAnswer(Seed(), IdOf(u), ROLE_ADMIN) == Applied && HoldsRole(Seed(), IdOf(u), role)
    ensures role != ROLE_BASIC ==> RoleRevokeAnswer(Seed(), IdOf(u), role) == Applied
    ensures role == ROLE_BASIC ==> RoleRevokeAnswer(Seed(), IdOf(u), role) == Failed(BasicRoleIsFloor)
  {
    hide Seed, UserOf, Floor, Atoi, Itoa, USER_LIST, ROLE_ADMIN, ROLE_BASIC;
    SeedUserFound(u);
    SeedFloor();
  }

  /** Bob is the one Scan Manager and Carol holds the Basic role: making either an administrator clashes
      with revoking that role, whether the revoke can fall back or not. */
  lemma RoleClashesAtSeed()
    ensures var grant, revoke := RoleGrant(IdOf(BOB_USER), ROLE_ADMIN), RoleRevoke(IdOf(BOB_USER), ROLE_SCAN_MANAGER);
      && FallbackClash(Seed().catalog, grant, revoke) && BothAct(grant, revoke, Seed())
      && RoleRevokeAnswer(Seed(), revoke.user, revoke.role) == Applied
    ensures var grant, revoke := RoleGrant(IdOf(CAROL_USER), ROLE_ADMIN), RoleRevoke(IdOf(CAROL_USER), ROLE_BASIC);
      && FallbackClash(Seed().catalog, grant, revoke) && BothAct(grant, revoke, Seed())
      && RoleRevokeAnswer(Seed(), revoke.user, revoke.role) == Failed(BasicRoleIsFloor)
  {
    hide Seed, RoleGrantAnswer, RoleRevokeAnswer, HoldsRole, Floor, Atoi, Itoa, ROLE_ADMIN, ROLE_SCAN_MANAGER,
      ROLE_BASIC, ROLE_CUSTOM;
    RoleNamesDistinct();
    SeedFloor();
    assert USER_LIST[1] == BOB_USER && USER_LIST[2] == CAROL_USER;
    SeedUserFound(BOB_USER);
    SeedUserFound(CAROL_USER);
    assert RoleUuids(BOB_USER.rbacRoles) == [ROLE_SCAN_MANAGER] && RoleUuids(CAROL_USER.rbacRoles) == [ROLE_BASIC];
    RoleAnswersAtSeed(BOB_USER, ROLE_SCAN_MANAGER);
    RoleAnswersAtSeed(CAROL_USER, ROLE_BASIC);
  }
}
