/** NewState: a fresh server, seeded. */
module Startup {
  import opened Invariants
  import opened Seeds
  import opened Server
  import opened Stored

  /** The server starts in the seed state, which satisfies every invariant. */
  method NewState() returns (s: State)
    ensures fresh(s) && fresh(s.Repr) && s.Valid()
    ensures s.Snap() == Seed() && Inv(s.Snap())
  {
    hide USER_LIST, GROUP_LIST, ROLE_LIST, PERMISSIONS, MEMBERS, Inv, State.Valid, UserValues, IdIndex, UuidList,
      GroupIndex, GroupsOf, PermissionValues, PermissionUuids;
    UserKeysDistinct();
    GroupKeysDistinct();
    PermissionKeysDistinct();
    SeedSatisfiesInv();
    s := new State();
    s.SeedTables(ROLE_LIST, GROUP_LIST, USER_LIST);
    s.SeedEdges(1006, MEMBERS, PERMISSIONS);
  }
}
