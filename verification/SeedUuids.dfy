/** The fixed UUIDs of the seed data. */
module SeedUuids {
  import opened Uuids

  const ROLE_ADMIN: string := "a1b2c3d4-e5f6-7890-abcd-ef1234567890"
  const ROLE_SCAN_MANAGER: string := "b2c3d4e5-f6a7-8901-bcde-f12345678901"
  const ROLE_BASIC: string := "c3d4e5f6-a7b8-9012-cdef-234567890abc"
  const ROLE_CUSTOM: string := "d4e5f6a7-b8c9-0123-def4-567890abcdef"

  const ALICE: string := "11111111-1111-4111-8111-111111111111"
  const BOB: string := "22222222-2222-4222-8222-222222222222"
  const CAROL: string := "33333333-3333-4333-8333-333333333333"
  const DAVE: string := "44444444-4444-4444-8444-444444444444"
  const EVE: string := "55555555-5555-4555-8555-555555555555"
  const FRANK: string := "66666666-6666-4666-8666-666666666666"

  const GROUP_ENG: string := "aaaaaaaa-aaaa-4aaa-8aaa-aaaaaaaaaaaa"
  const GROUP_PRODUCT: string := "bbbbbbbb-bbbb-4bbb-8bbb-bbbbbbbbbbbb"
  const GROUP_OPS: string := "cccccccc-cccc-4ccc-8ccc-cccccccccccc"
  const GROUP_CONTRACTORS: string := "dddddddd-dddd-4ddd-8ddd-dddddddddddd"

  const PERM_ASSETS: string := "eeeeeeee-eeee-4eee-8eee-eeeeeeeeeeee"
  const PERM_TAG: string := "ffffffff-ffff-4fff-8fff-ffffffffffff"
  const PERM_ALL_USERS: string := "a0a0a0a0-a0a0-4a0a-8a0a-a0a0a0a0a0a0"
  const PERM_ALL_ADMINS: string := "b0b0b0b0-b0b0-4b0b-8b0b-b0b0b0b0b0b0"

  const TAG_LOCATION: string := "e5f6a7b8-c9d0-1234-ef56-7890abcdef12"

  // ----- Canonical UUIDs ------------------------------------------------------------------

  lemma RoleAdminCanonical()
    ensures Canonical(ROLE_ADMIN)
  {}

  lemma RoleScanManagerCanonical()
    ensures Canonical(ROLE_SCAN_MANAGER)
  {}

  lemma RoleBasicCanonical()
    ensures Canonical(ROLE_BASIC)
  {}

  lemma RoleCustomCanonical()
    ensures Canonical(ROLE_CUSTOM)
  {}

  lemma AliceCanonical()
    ensures Canonical(ALICE)
  {}

  lemma BobCanonical()
    ensures Canonical(BOB)
  {}

  lemma CarolCanonical()
    ensures Canonical(CAROL)
  {}

  lemma DaveCanonical()
    ensures Canonical(DAVE)
  {}

  lemma EveCanonical()
    ensures Canonical(EVE)
  {}

  lemma FrankCanonical()
    ensures Canonical(FRANK)
  {}

  lemma GroupEngCanonical()
    ensures Canonical(GROUP_ENG)
  {}

  lemma GroupProductCanonical()
    ensures Canonical(GROUP_PRODUCT)
  {}

  lemma GroupOpsCanonical()
    ensures Canonical(GROUP_OPS)
  {}

  lemma GroupContractorsCanonical()
    ensures Canonical(GROUP_CONTRACTORS)
  {}

  lemma PermAssetsCanonical()
    ensures Canonical(PERM_ASSETS)
  {}

  lemma PermTagCanonical()
    ensures Canonical(PERM_TAG)
  {}

  lemma PermAllUsersCanonical()
    ensures Canonical(PERM_ALL_USERS)
  {}

  lemma PermAllAdminsCanonical()
    ensures Canonical(PERM_ALL_ADMINS)
  {}

  lemma TagLocationCanonical()
    ensures Canonical(TAG_LOCATION)
  {}
}
