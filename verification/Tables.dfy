/** Indexes filled by a loop over a list, as seed fills its maps. */
module Tables {
  import opened Sequences
  import opened Directory
  import opened Invariants
  import opened Uuids

  /** A map filled entry by entry; a later entry replaces an earlier one with the same key. */
  function IndexBy<K(==), V>(list: seq<V>, key: V -> K): map<K, V>
  {
    if list == [] then map[]
    else
      var last := list[|list| - 1];
      IndexBy(list[..|list| - 1], key)[key(last) := last]
  }

  ghost predicate KeysDistinct<K, V>(list: seq<V>, key: V -> K)
  {
    forall i, j :: 0 <= i < j < |list| ==> key(list[i]) != key(list[j])
  }

  lemma {:induction false} IndexByLookup<K, V>(list: seq<V>, key: V -> K)
    requires KeysDistinct(list, key)
    ensures forall i :: 0 <= i < |list| ==>
        key(list[i]) in IndexBy(list, key) && IndexBy(list, key)[key(list[i])] == list[i]
    ensures forall k :: k in IndexBy(list, key) ==> key(IndexBy(list, key)[k]) == k && IndexBy(list, key)[k] in list
  {
    if list != [] {
      IndexByLookup(list[..|list| - 1], key);
    }
  }

  lemma IndexByStep<K, V>(list: seq<V>, key: V -> K, i: nat)
    requires i < |list|
    ensures IndexBy(list[..i + 1], key) == IndexBy(list[..i], key)[key(list[i]) := list[i]]
  {
    assert list[..i + 1][..i] == list[..i];
  }

  lemma KeyIsFree<K, V>(list: seq<V>, key: V -> K, i: nat)
    requires i < |list| && KeysDistinct(list, key)
    ensures key(list[i]) !in IndexBy(list[..i], key)
  {
    IndexByLookup(list[..i], key);
  }

  const UuidOfUser: User -> string := (u: User) => u.uuid
  const IdOfUser: User -> int := (u: User) => u.id
  const IdOfGroup: Group -> int := (g: Group) => g.id
  const UuidOfRole: Role -> string := (r: Role) => r.uuid
  const UuidOfPermission: Permission -> string := (p: Permission) => p.uuid

  function UsersOf(list: seq<User>): map<string, User> { IndexBy(list, UuidOfUser) }

  function IdsOf(list: seq<User>): map<int, string>
  {
    var byID := IndexBy(list, IdOfUser);
    map i | i in byID :: byID[i].uuid
  }

  function OrderOf(list: seq<User>): (order: seq<string>)
    ensures |order| == |list|
  {
    seq(|list|, i requires 0 <= i < |list| => list[i].uuid)
  }

  function RoleRowsOf(list: seq<User>): map<string, seq<string>>
  {
    var users := UsersOf(list);
    map k | k in users :: RoleUuids(users[k].rbacRoles)
  }

  lemma FiledUserIsIndexed(list: seq<User>, k: string)
    requires KeysDistinct(list, UuidOfUser) && KeysDistinct(list, IdOfUser) && k in UsersOf(list)
    ensures var u := UsersOf(list)[k];
        u in list && u.uuid == k && u.id in IdsOf(list) && IdsOf(list)[u.id] == k && k in OrderOf(list)
  {
    IndexByLookup(list, UuidOfUser);
    IndexByLookup(list, IdOfUser);
    var i :| 0 <= i < |list| && list[i] == UsersOf(list)[k];
    assert OrderOf(list)[i] == k && IdOfUser(list[i]) == list[i].id;
  }

  lemma FiledIdIsUser(list: seq<User>, id: int)
    requires KeysDistinct(list, UuidOfUser) && KeysDistinct(list, IdOfUser) && id in IdsOf(list)
    ensures var k := IdsOf(list)[id]; k in UsersOf(list) && UsersOf(list)[k].id == id
  {
    IndexByLookup(list, UuidOfUser);
    IndexByLookup(list, IdOfUser);
    var j :| 0 <= j < |list| && list[j] == IndexBy(list, IdOfUser)[id];
    assert UuidOfUser(list[j]) == list[j].uuid;
  }

  lemma FiledOrder(list: seq<User>)
    requires KeysDistinct(list, UuidOfUser)
    ensures NoDuplicates(OrderOf(list))
    ensures forall k :: k in OrderOf(list) ==> k in UsersOf(list)
  {
    IndexByLookup(list, UuidOfUser);
    var order := OrderOf(list);
    forall i, j | 0 <= i < j < |order|
      ensures order[i] != order[j]
    {
      assert UuidOfUser(list[i]) != UuidOfUser(list[j]);
    }
    forall k | k in order
      ensures k in UsersOf(list)
    {
      var i :| 0 <= i < |list| && order[i] == k;
      assert UuidOfUser(list[i]) == k;
    }
  }

  lemma EmptyTables()
    ensures UsersOf([]) == map[] && IdsOf([]) == map[] && OrderOf([]) == [] && RoleRowsOf([]) == map[]
  {}

  lemma FiledKeysFree(list: seq<User>, i: nat)
    requires i < |list| && KeysDistinct(list, UuidOfUser) && KeysDistinct(list, IdOfUser)
    ensures list[i].uuid !in UsersOf(list[..i]) && list[i].id !in IdsOf(list[..i])
  {
    IndexByLookup(list[..i], UuidOfUser);
    IndexByLookup(list[..i], IdOfUser);
    assert forall j :: 0 <= j < i ==>
        UuidOfUser(list[j]) != UuidOfUser(list[i]) && IdOfUser(list[j]) != IdOfUser(list[i]);
  }

  /** One turn of the loop over the users: every index grows by one entry. */
  lemma FiledListStep(list: seq<User>, i: nat)
    requires i < |list|
    ensures UsersOf(list[..i + 1]) == UsersOf(list[..i])[list[i].uuid := list[i]]
    ensures IdsOf(list[..i + 1]) == IdsOf(list[..i])[list[i].id := list[i].uuid]
    ensures OrderOf(list[..i + 1]) == OrderOf(list[..i]) + [list[i].uuid]
    ensures RoleRowsOf(list[..i + 1]) == RoleRowsOf(list[..i])[list[i].uuid := RoleUuids(list[i].rbacRoles)]
  {
    IndexByStep(list, UuidOfUser, i);
    IndexByStep(list, IdOfUser, i);
    assert IdOfUser(list[i]) == list[i].id && UuidOfUser(list[i]) == list[i].uuid;
  }

  /** Users with distinct UUIDs and IDs, filed one after the other, leave the three indexes in agreement. */
  lemma FiledUsersAgree(list: seq<User>)
    requires KeysDistinct(list, UuidOfUser) && KeysDistinct(list, IdOfUser)
    ensures IndexesAgree(UsersOf(list), IdsOf(list), OrderOf(list))
  {
    FiledOrder(list);
    forall k | k in UsersOf(list)
      ensures var u := UsersOf(list)[k];
          u.uuid == k && u.id in IdsOf(list) && IdsOf(list)[u.id] == k && k in OrderOf(list)
    {
      FiledUserIsIndexed(list, k);
    }
    forall id | id in IdsOf(list)
      ensures IdsOf(list)[id] in UsersOf(list) && UsersOf(list)[IdsOf(list)[id]].id == id
    {
      FiledIdIsUser(list, id);
    }
  }

  // ----- The other parts of the invariant -------------------------------------------------

  const UuidOfGroup: Group -> string := (g: Group) => g.uuid

  function CatalogOf(groups: seq<Group>, roles: seq<Role>): Catalog
  {
    Catalog(IndexBy(groups, IdOfGroup), groups, IndexBy(roles, UuidOfRole), roles)
  }

  lemma FiledCatalogOk(groups: seq<Group>, roles: seq<Role>)
    requires KeysDistinct(groups, IdOfGroup) && KeysDistinct(groups, UuidOfGroup) && KeysDistinct(roles, UuidOfRole)
    requires forall g :: g in groups ==> GroupOk(g)
    requires forall r :: r in roles ==> Canonical(r.uuid)
    requires groups != [] && groups[0].uuid == ALL_USERS
    ensures CatalogOk(CatalogOf(groups, roles))
  {
    hide Canonical, GroupOk;
    IndexByLookup(groups, IdOfGroup);
    IndexByLookup(roles, UuidOfRole);
    forall i, j | 0 <= i < j < |groups|
      ensures groups[i].uuid != groups[j].uuid && groups[i] != groups[j]
    {
      assert UuidOfGroup(groups[i]) != UuidOfGroup(groups[j]);
    }
    forall i | 0 <= i < |groups|
      ensures groups[i].id in IndexBy(groups, IdOfGroup)
    {
      assert IdOfGroup(groups[i]) == groups[i].id;
    }
    forall i | 0 <= i < |roles|
      ensures roles[i].uuid in IndexBy(roles, UuidOfRole)
    {
      assert UuidOfRole(roles[i]) == roles[i].uuid;
    }
    assert groups[0] in groups;
  }

  lemma FiledIdsIssued(list: seq<User>, next: nat, groups: set<string>)
    requires KeysDistinct(list, UuidOfUser) && next < CAPACITY
    requires forall u :: u in list ==> Issued(u.uuid, u.id, next) && u.uuid !in groups
    ensures IdsIssued(UsersOf(list), next, groups)
  {
    hide Issued;
    IndexByLookup(list, UuidOfUser);
  }

  lemma FiledRolesAgree(list: seq<User>, roles: map<string, Role>)
    requires KeysDistinct(list, UuidOfUser)
    requires forall u :: u in list ==> forall r :: r in u.rbacRoles ==> r.uuid in roles && roles[r.uuid].name == r.name
    ensures RolesAgree(roles, UsersOf(list), RoleRowsOf(list))
  {
    IndexByLookup(list, UuidOfUser);
  }

  lemma FiledMembersAgree(list: seq<User>, members: map<string, seq<string>>, groups: set<string>)
    requires KeysDistinct(list, UuidOfUser)
    requires forall g :: g in members ==> g in groups && NoDuplicates(members[g])
    requires forall g, k :: g in members && k in members[g] ==> k in OrderOf(list)
    requires forall u :: u in list ==> NoDuplicates(u.groupUUIDs)
    requires forall u, g :: u in list ==> (g in u.groupUUIDs <==> u.uuid in Row(members, g))
    ensures MembersAgree(groups, UsersOf(list), members)
  {
    IndexByLookup(list, UuidOfUser);
    FiledOrder(list);
    forall g, k | g in members && k in members[g]
      ensures k in UsersOf(list) && g in UsersOf(list)[k].groupUUIDs
    {
      assert k in OrderOf(list);
      var i :| 0 <= i < |OrderOf(list)| && OrderOf(list)[i] == k;
      assert UuidOfUser(list[i]) == k && list[i] in list;
      assert k in Row(members, g);
    }
    forall k, g | k in UsersOf(list) && g in UsersOf(list)[k].groupUUIDs
      ensures g in members && k in members[g]
    {
      assert k in Row(members, g);
    }
  }

  lemma FiledPermissionsIndexed(list: seq<Permission>)
    requires KeysDistinct(list, UuidOfPermission)
    requires forall p :: p in list ==> Canonical(p.uuid)
    ensures PermissionsIndexed(IndexBy(list, UuidOfPermission), PermissionOrderOf(list))
  {
    hide Canonical;
    IndexByLookup(list, UuidOfPermission);
    var order := PermissionOrderOf(list);
    forall i | 0 <= i < |order|
      ensures order[i] in IndexBy(list, UuidOfPermission)
    {
      assert UuidOfPermission(list[i]) == order[i];
    }
    forall k | k in IndexBy(list, UuidOfPermission)
      ensures k in order
    {
      var i :| 0 <= i < |list| && list[i] == IndexBy(list, UuidOfPermission)[k];
      assert order[i] == k;
    }
    forall i, j | 0 <= i < j < |order|
      ensures order[i] != order[j]
    {
      assert UuidOfPermission(list[i]) != UuidOfPermission(list[j]);
    }
  }

  lemma PermissionOrderStep(list: seq<Permission>, i: nat)
    requires i < |list|
    ensures PermissionOrderOf(list[..i + 1]) == PermissionOrderOf(list[..i]) + [list[i].uuid]
  {}

  function PermissionOrderOf(list: seq<Permission>): (order: seq<string>)
    ensures |order| == |list|
  {
    seq(|list|, i requires 0 <= i < |list| => list[i].uuid)
  }
}
