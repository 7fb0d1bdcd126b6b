/** What the server keeps in memory: one object per user, group and permission, whose lists are Go
    slices over arrays of their own, and the copies of them that readers are handed. */
module Stored {
  import opened Wrappers
  import opened Sequences
  import opened Directory
  import opened Slices

  // ----- Copies ---------------------------------------------------------------------------

  /** A copied user: a struct by value, whose lists are slices. */
  datatype UserCopy = UserCopy(
    uuid: string, id: int, username: string, email: string, name: string, permissions: int,
    enabled: bool, lastLogin: int, containerUUID: string, groupUUIDs: Slice<string>, rbacRoles: Slice<RbacRole>)
  {
    predicate Whole() { Fits(groupUUIDs) && Fits(rbacRoles) }

    ghost function Arrays(): set<object> { {groupUUIDs.backing as object, rbacRoles.backing} }

    /** What a reader of the copy finds in it. */
    function Read(): User
      requires Whole()
      reads Arrays()
    {
      User(uuid, id, username, email, name, permissions, enabled, lastLogin, containerUUID, View(groupUUIDs),
           View(rbacRoles))
    }
  }

  datatype PermissionCopy = PermissionCopy(
    uuid: string, name: string, actions: Slice<string>, objects: Slice<Subject>, subjects: Slice<Subject>,
    createdAt: int, createdBy: string, updatedAt: int, updatedBy: string)
  {
    predicate Whole() { Fits(actions) && Fits(objects) && Fits(subjects) }

    ghost function Arrays(): set<object> { {actions.backing as object, objects.backing, subjects.backing} }

    function Read(): Permission
      requires Whole()
      reads Arrays()
    {
      Permission(uuid, name, View(actions), View(objects), View(subjects), createdAt, createdBy, updatedAt, updatedBy)
    }
  }

  predicate AllWhole(copies: seq<UserCopy>)
  {
    forall c :: c in copies ==> c.Whole()
  }

  ghost function UserArrays(copies: seq<UserCopy>): set<object>
  {
    set c, a | c in copies && a in c.Arrays() :: a
  }

  function ReadUsers(copies: seq<UserCopy>): (users: seq<User>)
    requires AllWhole(copies)
    reads UserArrays(copies)
  {
    if copies == [] then []
    else
      var last := copies[|copies| - 1];
      assert last in copies;
      ReadUsers(copies[..|copies| - 1]) + [last.Read()]
  }

  predicate AllPermissionsWhole(copies: seq<PermissionCopy>)
  {
    forall c :: c in copies ==> c.Whole()
  }

  ghost function PermissionArrays(copies: seq<PermissionCopy>): set<object>
  {
    set c, a | c in copies && a in c.Arrays() :: a
  }

  function ReadPermissions(copies: seq<PermissionCopy>): (permissions: seq<Permission>)
    requires AllPermissionsWhole(copies)
    reads PermissionArrays(copies)
  {
    if copies == [] then []
    else
      var last := copies[|copies| - 1];
      assert last in copies;
      ReadPermissions(copies[..|copies| - 1]) + [last.Read()]
  }

  lemma NothingRead()
    ensures AllWhole([]) && UserArrays([]) == {} && ReadUsers([]) == []
    ensures AllPermissionsWhole([]) && PermissionArrays([]) == {} && ReadPermissions([]) == []
  {}

  lemma ReadOneMore(copies: seq<UserCopy>, c: UserCopy)
    requires AllWhole(copies) && c.Whole()
    ensures AllWhole(copies + [c]) && UserArrays(copies + [c]) == UserArrays(copies) + c.Arrays()
    ensures ReadUsers(copies + [c]) == ReadUsers(copies) + [c.Read()]
  {
    assert (copies + [c])[..|copies|] == copies;
  }

  lemma ReadOnePermissionMore(copies: seq<PermissionCopy>, c: PermissionCopy)
    requires AllPermissionsWhole(copies) && c.Whole()
    ensures AllPermissionsWhole(copies + [c]) && PermissionArrays(copies + [c]) == PermissionArrays(copies) + c.Arrays()
    ensures ReadPermissions(copies + [c]) == ReadPermissions(copies) + [c.Read()]
  {
    assert (copies + [c])[..|copies|] == copies;
  }

  // ----- Stored objects -------------------------------------------------------------------

  /** A user. The ghost fields say what the slices hold. */
  class StoredUser {
    const uuid: string
    const id: int
    const username: string
    const lastLogin: int
    const containerUUID: string
    var email: string
    var name: string
    var permissions: int
    var enabled: bool
    var groupUUIDs: Slice<string>
    var rbacRoles: Slice<RbacRole>
    ghost var memberships: seq<string>
    ghost var held: seq<RbacRole>

    constructor (u: User)
      ensures Value() == u && SlicesHold()
      ensures fresh(Arrays())
    {
      var g := OfList(u.groupUUIDs);
      var r := OfList(u.rbacRoles);
      uuid, id, username, lastLogin, containerUUID := u.uuid, u.id, u.username, u.lastLogin, u.containerUUID;
      email, name, permissions, enabled := u.email, u.name, u.permissions, u.enabled;
      groupUUIDs, rbacRoles, memberships, held := g, r, u.groupUUIDs, u.rbacRoles;
    }

    ghost function Value(): User
      reads this
    {
      User(uuid, id, username, email, name, permissions, enabled, lastLogin, containerUUID, memberships, held)
    }

    ghost predicate SlicesHold()
      reads this, groupUUIDs.backing, rbacRoles.backing
    {
      Fits(groupUUIDs) && Fits(rbacRoles) && View(groupUUIDs) == memberships && View(rbacRoles) == held
    }

    ghost function Arrays(): set<object>
      reads this
    {
      {groupUUIDs.backing as object, rbacRoles.backing}
    }

    /** copyUserLocked: the struct is copied and both lists are cloned. */
    method Copy() returns (c: UserCopy)
      requires SlicesHold()
      ensures c.Whole() && c.Read() == Value()
      ensures fresh(c.Arrays())
    {
      var g := Clone(groupUUIDs);
      var r := Clone(rbacRoles);
      c := UserCopy(uuid, id, username, email, name, permissions, enabled, lastLogin, containerUUID, g, r);
    }

    /** The field updates of UpdateUser. */
    method Edit(name: string, permissions: int, email: string, enabled: Option<bool>)
      modifies this`name, this`email, this`permissions, this`enabled
      ensures Value() == Edited(old(Value()), name, permissions, email, enabled)
    {
      if name != "" {
        this.name := name;
      }
      if email != "" {
        this.email := email;
      }
      if permissions != 0 {
        this.permissions := permissions;
      }
      if enabled.Some? {
        this.enabled := enabled.value;
      }
    }
  }

  class StoredGroup {
    const group: Group
    var userCount: int

    constructor (g: Group)
      ensures group == g && userCount == 0
    {
      group, userCount := g, 0;
    }
  }

  /** A permission. The ghost fields say what the slices hold. */
  class StoredPermission {
    const uuid: string
    const createdAt: int
    const createdBy: string
    const updatedAt: int
    const updatedBy: string
    var name: string
    var actions: Slice<string>
    var objects: Slice<Subject>
    var subjects: Slice<Subject>
    ghost var allowed: seq<string>
    ghost var scope: seq<Subject>
    ghost var holders: seq<Subject>

    constructor (p: Permission)
      ensures Value() == p && SlicesHold()
      ensures fresh(Arrays())
      ensures objects.backing != subjects.backing
    {
      var a := OfList(p.actions);
      var o := OfList(p.objects);
      var s := OfList(p.subjects);
      uuid, createdAt, createdBy, updatedAt, updatedBy := p.uuid, p.createdAt, p.createdBy, p.updatedAt, p.updatedBy;
      name, actions, objects, subjects := p.name, a, o, s;
      allowed, scope, holders := p.actions, p.objects, p.subjects;
    }

    ghost function Value(): Permission
      reads this
    {
      Permission(uuid, name, allowed, scope, holders, createdAt, createdBy, updatedAt, updatedBy)
    }

    ghost predicate SlicesHold()
      reads this, actions.backing, objects.backing, subjects.backing
    {
      && Fits(actions) && Fits(objects) && Fits(subjects)
      && View(actions) == allowed && View(objects) == scope && View(subjects) == holders
    }

    ghost function Arrays(): set<object>
      reads this
    {
      {actions.backing as object, objects.backing, subjects.backing}
    }

    /** copyPermission: the struct is copied and the three lists are cloned. */
    method Copy() returns (c: PermissionCopy)
      requires SlicesHold()
      ensures c.Whole() && c.Read() == Value()
      ensures fresh(c.Arrays())
    {
      var a := Clone(actions);
      var o := Clone(objects);
      var s := Clone(subjects);
      c := PermissionCopy(uuid, name, a, o, s, createdAt, createdBy, updatedAt, updatedBy);
    }
  }

  // ----- Which array belongs where --------------------------------------------------------

  /** A place of the state that stores a slice. */
  datatype Slot =
    | GroupsSlot(user: StoredUser)
    | RolesSlot(user: StoredUser)
    | MemberSlot(group: string)
    | RoleSlot(userUUID: string)
    | ActionsSlot(permission: StoredPermission)
    | ObjectsSlot(permission: StoredPermission)
    | SubjectsSlot(permission: StoredPermission)

  ghost predicate ArraysOnly(owner: map<object, Slot>)
  {
    forall a :: a in owner ==> a is array<string> || a is array<RbacRole> || a is array<Subject>
  }

  /** The slice stored in this place holds this list, in an array that belongs to no other place. */
  ghost predicate Holds<T>(owner: map<object, Slot>, slot: Slot, s: Slice<T>, list: seq<T>)
    reads owner.Keys
  {
    s.backing in owner && owner[s.backing] == slot && Fits(s) && View(s) == list
  }

  ghost predicate UsersBacked(users: seq<StoredUser>, owner: map<object, Slot>)
    reads users`groupUUIDs, users`rbacRoles, users`memberships, users`held, owner.Keys
  {
    forall u :: u in users ==>
      Holds(owner, GroupsSlot(u), u.groupUUIDs, u.memberships) && Holds(owner, RolesSlot(u), u.rbacRoles, u.held)
  }

  /** The lists of all users but one. */
  ghost predicate OthersBacked(users: seq<StoredUser>, except: StoredUser, owner: map<object, Slot>)
    reads users`groupUUIDs, users`rbacRoles, users`memberships, users`held, owner.Keys
  {
    forall u :: u in users && u != except ==>
      Holds(owner, GroupsSlot(u), u.groupUUIDs, u.memberships) && Holds(owner, RolesSlot(u), u.rbacRoles, u.held)
  }

  ghost predicate MembersBacked(stored: map<string, Slice<string>>, rows: map<string, seq<string>>,
      owner: map<object, Slot>)
    reads owner.Keys
  {
    stored.Keys == rows.Keys && forall g :: g in stored ==> Holds(owner, MemberSlot(g), stored[g], rows[g])
  }

  ghost predicate RolesBacked(stored: map<string, Slice<string>>, rows: map<string, seq<string>>,
      owner: map<object, Slot>)
    reads owner.Keys
  {
    stored.Keys == rows.Keys && forall u :: u in stored ==> Holds(owner, RoleSlot(u), stored[u], rows[u])
  }

  ghost predicate PermissionsBacked(permissions: seq<StoredPermission>, owner: map<object, Slot>)
    reads permissions`actions, permissions`objects, permissions`subjects
    reads permissions`allowed, permissions`scope, permissions`holders, owner.Keys
  {
    forall p :: p in permissions ==>
      && Holds(owner, ActionsSlot(p), p.actions, p.allowed)
      && Holds(owner, ObjectsSlot(p), p.objects, p.scope)
      && Holds(owner, SubjectsSlot(p), p.subjects, p.holders)
  }

  /** The array of one row, if there is such a row. */
  ghost function ArrayOf(stored: map<string, Slice<string>>, key: string): set<object>
  {
    if key in stored then {stored[key].backing} else {}
  }

  /** An array that is about to be used for this place: it is there already, or has no place yet. */
  ghost predicate Assignable(owner: map<object, Slot>, a: object?, slot: Slot)
  {
    a in owner ==> owner[a] == slot
  }

  // ----- New arrays -----------------------------------------------------------------------

  /** More arrays are given a place; the others keep theirs. */
  ghost predicate Extends(owner: map<object, Slot>, places: map<object, Slot>)
  {
    ArraysOnly(places) && forall a :: a in owner ==> a in places && places[a] == owner[a]
  }

  lemma ExtendKeepsUsers(users: seq<StoredUser>, owner: map<object, Slot>, places: map<object, Slot>)
    requires UsersBacked(users, owner) && Extends(owner, places)
    ensures UsersBacked(users, places)
  {}

  lemma ExtendKeepsMembers(stored: map<string, Slice<string>>, rows: map<string, seq<string>>,
      owner: map<object, Slot>, places: map<object, Slot>)
    requires MembersBacked(stored, rows, owner) && Extends(owner, places)
    ensures MembersBacked(stored, rows, places)
  {}

  lemma ExtendKeepsRoles(stored: map<string, Slice<string>>, rows: map<string, seq<string>>,
      owner: map<object, Slot>, places: map<object, Slot>)
    requires RolesBacked(stored, rows, owner) && Extends(owner, places)
    ensures RolesBacked(stored, rows, places)
  {}

  lemma ExtendKeepsPermissions(permissions: seq<StoredPermission>, owner: map<object, Slot>,
      places: map<object, Slot>)
    requires PermissionsBacked(permissions, owner) && Extends(owner, places)
    ensures PermissionsBacked(permissions, places)
  {}

  lemma RoleRowFiled(stored: map<string, Slice<string>>, rows: map<string, seq<string>>, owner: map<object, Slot>,
      user: string, row: Slice<string>)
    requires RolesBacked(stored, rows, owner) && row.backing !in owner && Fits(row)
    ensures RolesBacked(stored[user := row], rows[user := View(row)], owner[row.backing := RoleSlot(user)])
  {}

  /** The places of the two arrays that a new user brings along. */
  ghost function WithUser(owner: map<object, Slot>, u: StoredUser): map<object, Slot>
    reads u
  {
    owner[u.groupUUIDs.backing := GroupsSlot(u)][u.rbacRoles.backing := RolesSlot(u)]
  }

  lemma EnterKeepsBacked(users: seq<StoredUser>, owner: map<object, Slot>, u: StoredUser)
    requires UsersBacked(users, owner) && ArraysOnly(owner) && u.SlicesHold()
    requires u.Arrays() !! owner.Keys
    ensures Extends(owner, WithUser(owner, u)) && UsersBacked(users + [u], WithUser(owner, u))
    ensures WithUser(owner, u).Keys == owner.Keys + u.Arrays()
  {}

  lemma DropKeepsBacked(users: seq<StoredUser>, owner: map<object, Slot>, uuid: string)
    requires UsersBacked(users, owner)
    ensures UsersBacked(WithoutUuid(users, uuid), owner)
  {
    var kept := WithoutUuid(users, uuid);
    forall i | 0 <= i < |kept|
      ensures kept[i] in users
    {
      WithoutUuidAt(users, uuid, i);
    }
  }

  /** The places of the three arrays of a permission. */
  ghost function WithPermission(owner: map<object, Slot>, p: StoredPermission, a: Slice<string>, o: Slice<Subject>,
      s: Slice<Subject>): map<object, Slot>
  {
    owner[a.backing := ActionsSlot(p)][o.backing := ObjectsSlot(p)][s.backing := SubjectsSlot(p)]
  }

  lemma NewPermissionArrays(owner: map<object, Slot>, p: StoredPermission, a: Slice<string>, o: Slice<Subject>,
      s: Slice<Subject>)
    requires ArraysOnly(owner) && a.backing !in owner && o.backing !in owner && s.backing !in owner
    requires Fits(a) && Fits(o) && Fits(s) && o.backing != s.backing
    ensures WithPermission(owner, p, a, o, s).Keys == owner.Keys + {a.backing as object, o.backing, s.backing}
    ensures var places := WithPermission(owner, p, a, o, s);
      && Extends(owner, places) && Holds(places, ActionsSlot(p), a, View(a))
      && Holds(places, ObjectsSlot(p), o, View(o)) && Holds(places, SubjectsSlot(p), s, View(s))
  {}

  lemma FileKeepsPermissionsBacked(permissions: seq<StoredPermission>, places: map<object, Slot>, p: StoredPermission)
    requires PermissionsBacked(permissions, places)
    requires Holds(places, ActionsSlot(p), p.actions, p.allowed) && Holds(places, ObjectsSlot(p), p.objects, p.scope)
    requires Holds(places, SubjectsSlot(p), p.subjects, p.holders)
    ensures PermissionsBacked(permissions + [p], places)
  {}

  // ----- Indexes as values ----------------------------------------------------------------

  ghost function UserValues(users: map<string, StoredUser>): (values: map<string, User>)
    reads users.Values
    ensures values.Keys == users.Keys
  {
    map k | k in users :: users[k].Value()
  }

  ghost function IdIndex(byID: map<int, StoredUser>): (index: map<int, string>)
    ensures index.Keys == byID.Keys
  {
    map i | i in byID :: byID[i].uuid
  }

  ghost function UuidList(list: seq<StoredUser>): (uuids: seq<string>)
    ensures |uuids| == |list|
  {
    seq(|list|, i requires 0 <= i < |list| => list[i].uuid)
  }

  ghost function GroupIndex(byID: map<int, StoredGroup>): map<int, Group>
  {
    map i | i in byID :: byID[i].group
  }

  ghost function GroupsOf(list: seq<StoredGroup>): (groups: seq<Group>)
    ensures |groups| == |list|
  {
    seq(|list|, i requires 0 <= i < |list| => list[i].group)
  }

  ghost function PermissionValues(index: map<string, StoredPermission>): map<string, Permission>
    reads index.Values
  {
    map k | k in index :: index[k].Value()
  }

  ghost function PermissionUuids(list: seq<StoredPermission>): (uuids: seq<string>)
    ensures |uuids| == |list|
  {
    seq(|list|, i requires 0 <= i < |list| => list[i].uuid)
  }

  ghost predicate SameGroups(groups: map<string, StoredGroup>, byID: map<int, StoredGroup>, list: seq<StoredGroup>)
  {
    && (forall g :: g in list ==> g.group.uuid in groups && groups[g.group.uuid] == g)
    && (forall k :: k in groups ==> groups[k].group.uuid == k && groups[k] in list)
    && (forall i :: i in byID ==> byID[i] in list)
  }

  ghost predicate SamePermissions(index: map<string, StoredPermission>, list: seq<StoredPermission>)
  {
    && (forall p :: p in list ==> p.uuid in index && index[p.uuid] == p)
    && (forall k :: k in index ==> index[k].uuid == k && index[k] in list)
  }

  lemma FileKeepsGroups(groups: map<string, StoredGroup>, byID: map<int, StoredGroup>, list: seq<StoredGroup>,
      g: StoredGroup)
    requires SameGroups(groups, byID, list) && g.group.uuid !in groups
    ensures SameGroups(groups[g.group.uuid := g], byID[g.group.id := g], list + [g])
    ensures GroupIndex(byID[g.group.id := g]) == GroupIndex(byID)[g.group.id := g.group]
    ensures GroupsOf(list + [g]) == GroupsOf(list) + [g.group]
  {}

  lemma FileKeepsPermissions(index: map<string, StoredPermission>, list: seq<StoredPermission>, p: StoredPermission)
    requires SamePermissions(index, list) && p.uuid !in index
    ensures SamePermissions(index[p.uuid := p], list + [p])
    ensures PermissionValues(index[p.uuid := p]) == PermissionValues(index)[p.uuid := p.Value()]
    ensures PermissionUuids(list + [p]) == PermissionUuids(list) + [p.uuid]
  {}

  ghost predicate SameObjects(users: map<string, StoredUser>, byID: map<int, StoredUser>, list: seq<StoredUser>)
  {
    && NoDuplicates(list)
    && (forall u :: u in list ==> u.uuid in users && users[u.uuid] == u && u.id in byID && byID[u.id] == u)
    && (forall k :: k in users ==> users[k].uuid == k && users[k] in list)
    && (forall i :: i in byID ==> byID[i].id == i && byID[i] in list)
  }

  /** Every object of the state belongs to its representation. */
  ghost predicate Owned(repr: set<object>, users: seq<StoredUser>, groups: seq<StoredGroup>,
      permissions: seq<StoredPermission>)
  {
    && (forall u :: u in users ==> u in repr)
    && (forall g :: g in groups ==> g in repr)
    && (forall p :: p in permissions ==> p in repr)
  }

  lemma OwnedGrows(repr: set<object>, more: set<object>, users: seq<StoredUser>, groups: seq<StoredGroup>,
      permissions: seq<StoredPermission>)
    requires Owned(repr, users, groups, permissions) && repr <= more
    ensures Owned(more, users, groups, permissions)
  {}

  lemma FileKeepsOwned(repr: set<object>, users: seq<StoredUser>, groups: seq<StoredGroup>,
                       permissions: seq<StoredPermission>, u: StoredUser)
    requires Owned(repr, users, groups, permissions)
    ensures Owned(repr + {u}, users + [u], groups, permissions)
    ensures u !in repr ==> u !in users
  {}

  lemma FileGroupKeepsOwned(repr: set<object>, users: seq<StoredUser>, groups: seq<StoredGroup>,
                            permissions: seq<StoredPermission>, g: StoredGroup)
    requires Owned(repr, users, groups, permissions)
    ensures Owned(repr + {g}, users, groups + [g], permissions)
  {}

  lemma FilePermissionKeepsOwned(repr: set<object>, users: seq<StoredUser>, groups: seq<StoredGroup>,
                                 permissions: seq<StoredPermission>, p: StoredPermission)
    requires Owned(repr, users, groups, permissions)
    ensures Owned(repr + {p}, users, groups, permissions + [p])
  {}

  lemma DropKeepsOwned(repr: set<object>, users: seq<StoredUser>, groups: seq<StoredGroup>,
                       permissions: seq<StoredPermission>, uuid: string)
    requires Owned(repr, users, groups, permissions)
    ensures Owned(repr, WithoutUuid(users, uuid), groups, permissions)
  {
    var kept := WithoutUuid(users, uuid);
    forall i | 0 <= i < |kept|
      ensures kept[i] in repr
    {
      WithoutUuidAt(users, uuid, i);
    }
  }

  lemma {:induction false} WithoutUuidAt(list: seq<StoredUser>, uuid: string, i: nat)
    requires i < |WithoutUuid(list, uuid)|
    ensures WithoutUuid(list, uuid)[i] in list
  {
    if list[0].uuid == uuid {
      WithoutUuidAt(list[1..], uuid, i);
    } else if i > 0 {
      WithoutUuidAt(list[1..], uuid, i - 1);
    }
    assert list == [list[0]] + list[1..];
  }

  /** Filing one more object keeps the indexes in agreement exactly when its UUID and its ID are free. */
  lemma FileKeepsObjects(users: map<string, StoredUser>, byID: map<int, StoredUser>, list: seq<StoredUser>,
      u: StoredUser)
    requires SameObjects(users, byID, list) && u !in list
    ensures SameObjects(users[u.uuid := u], byID[u.id := u], list + [u]) <==> u.uuid !in users && u.id !in byID
  {
    var list' := list + [u];
    assert forall x :: x in list' <==> x == u || x in list;
    if u.uuid in users {
      assert users[u.uuid] in list';
    } else if u.id in byID {
      assert byID[u.id] in list';
    } else {
      NoDuplicatesAppend(list, u);
    }
  }

  lemma DropKeepsObjects(users: map<string, StoredUser>, byID: map<int, StoredUser>, list: seq<StoredUser>,
      u: StoredUser)
    requires SameObjects(users, byID, list) && u in list
    ensures SameObjects(users - {u.uuid}, byID - {u.id}, WithoutUuid(list, u.uuid))
  {
    WithoutUuidMembers(list, u.uuid);
    forall i | i in byID - {u.id}
      ensures byID[i] in WithoutUuid(list, u.uuid)
    {
      assert byID[i] in list && byID[i] != u;
    }
    forall k | k in users - {u.uuid}
      ensures users[k] in WithoutUuid(list, u.uuid)
    {
      assert users[k] in list;
    }
  }

  lemma FileKeepsViews(users: map<string, StoredUser>, byID: map<int, StoredUser>, list: seq<StoredUser>, u: StoredUser)
    ensures UserValues(users[u.uuid := u]) == UserValues(users)[u.uuid := u.Value()]
    ensures IdIndex(byID[u.id := u]) == IdIndex(byID)[u.id := u.uuid]
    ensures UuidList(list + [u]) == UuidList(list) + [u.uuid]
  {}

  lemma EmptyViews(users: map<string, StoredUser>, byID: map<int, StoredUser>, list: seq<StoredUser>)
    requires users == map[] && byID == map[] && list == []
    ensures UserValues(users) == map[] && IdIndex(byID) == map[] && UuidList(list) == []
  {}

  lemma DropKeepsViews(users: map<string, StoredUser>, byID: map<int, StoredUser>, list: seq<StoredUser>, u: StoredUser)
    ensures UserValues(users - {u.uuid}) == UserValues(users) - {u.uuid}
    ensures IdIndex(byID - {u.id}) == IdIndex(byID) - {u.id}
    ensures UuidList(WithoutUuid(list, u.uuid)) == Without(UuidList(list), u.uuid)
  {
    WithoutUuidView(list, u.uuid);
    assert forall i :: i in byID - {u.id} <==> i in IdIndex(byID) - {u.id};
  }

  /** slices.DeleteFunc on the user list. */
  function WithoutUuid(list: seq<StoredUser>, uuid: string): seq<StoredUser>
  {
    if list == [] then []
    else if list[0].uuid == uuid then WithoutUuid(list[1..], uuid)
    else [list[0]] + WithoutUuid(list[1..], uuid)
  }

  lemma {:induction false} WithoutUuidMembers(list: seq<StoredUser>, uuid: string)
    requires NoDuplicates(list)
    ensures NoDuplicates(WithoutUuid(list, uuid))
    ensures var kept := WithoutUuid(list, uuid);
            && (forall i :: 0 <= i < |kept| ==> kept[i] in list && kept[i].uuid != uuid)
            && (forall i :: 0 <= i < |list| && list[i].uuid != uuid ==> list[i] in kept)
  {
    if list != [] {
      NoDuplicatesTail(list);
      WithoutUuidMembers(list[1..], uuid);
      var rest, kept := WithoutUuid(list[1..], uuid), WithoutUuid(list, uuid);
      assert forall i :: 0 <= i < |rest| ==> rest[i] in list[1..] && rest[i] in list;
      assert list[0] !in rest;
      assert forall i :: 1 <= i < |list| ==> list[i] == list[1..][i - 1];
    }
  }

  lemma {:induction false} WithoutUuidView(list: seq<StoredUser>, uuid: string)
    ensures UuidList(WithoutUuid(list, uuid)) == Without(UuidList(list), uuid)
  {
    if list != [] {
      WithoutUuidView(list[1..], uuid);
      assert UuidList(list)[1..] == UuidList(list[1..]);
      var rest := WithoutUuid(list[1..], uuid);
      assert UuidList([list[0]] + rest) == [list[0].uuid] + UuidList(rest);
    }
  }
}
