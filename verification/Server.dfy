/** The test server's state as it stands in memory: one object per user, group and permission, shared
    by every index that mentions it and updated in place, and one array per stored list, appended to
    and compacted in place. Each method is proved against the function of Directory that says what it
    does to the snapshot. */
module Server {
  import opened Wrappers
  import opened Sequences
  import opened Uuids
  import opened Directory
  import opened Invariants
  import opened Tables
  import opened Slices
  import opened Stored

  /** The counter's next ID and UUID are in no use. */
  ghost predicate CanCreate(s: Snapshot)
  {
    FormatUuid(s.nextUserID + 1) !in s.users && s.nextUserID + 1 !in s.byID
  }

  /** A group as GET /groups shows it. */
  datatype GroupRow = GroupRow(group: Group, userCount: int)

  class State {
    var nextUserID: nat
    var users: map<string, StoredUser>
    var usersByID: map<int, StoredUser>
    var userList: seq<StoredUser>
    var groups: map<string, StoredGroup>
    var groupsByID: map<int, StoredGroup>
    var groupList: seq<StoredGroup>
    var roles: map<string, Role>
    var roleList: seq<Role>
    var permissionIndex: map<string, StoredPermission>
    var permissionList: seq<StoredPermission>
    var groupMembers: map<string, Slice<string>>
    var userRoles: map<string, Slice<string>>

    /** What the slices of the two edge tables hold. */
    ghost var memberRows: map<string, seq<string>>
    ghost var roleRows: map<string, seq<string>>

    /** The one place to which each stored array belongs. */
    ghost var owner: map<object, Slot>
    ghost var Repr: set<object>

    // ----- Index agreement ---------------------------------------------------------------

    /** The three user indexes hold the same objects, each under its own UUID and its own ID. */
    ghost predicate UsersIndexed()
      reads this`users, this`usersByID, this`userList
    {
      SameObjects(users, usersByID, userList)
    }

    ghost predicate GroupsIndexed()
      reads this`groups, this`groupsByID, this`groupList
    {
      SameGroups(groups, groupsByID, groupList)
    }

    ghost predicate PermissionsIndexed()
      reads this`permissionIndex, this`permissionList
    {
      SamePermissions(permissionIndex, permissionList)
    }

    /** Everything in use belongs to the representation, and the groups and permissions are indexed. */
    ghost predicate Rooted()
      reads this
    {
      && this in Repr && Owned(Repr, userList, groupList, permissionList)
      && GroupsIndexed() && PermissionsIndexed()
      && owner.Keys <= Repr && ArraysOnly(owner)
    }

    /** Every stored slice holds what it should, each in an array of its own. */
    ghost predicate Backed()
      reads this`userList, this`permissionList, this`groupMembers, this`userRoles, this`memberRows, this`roleRows
      reads this`owner, owner.Keys
      reads userList`groupUUIDs, userList`rbacRoles, userList`memberships, userList`held
      reads permissionList`actions, permissionList`objects, permissionList`subjects
      reads permissionList`allowed, permissionList`scope, permissionList`holders
    {
      && UsersBacked(userList, owner)
      && MembersBacked(groupMembers, memberRows, owner)
      && RolesBacked(userRoles, roleRows, owner)
      && PermissionsBacked(permissionList, owner)
    }

    /** All that holds even while the user indexes disagree. */
    ghost predicate Sound()
      reads this, Repr
    {
      Rooted() && Backed()
    }

    ghost predicate Valid()
      reads this, Repr
    {
      Sound() && UsersIndexed()
    }

    // ----- Abstraction -------------------------------------------------------------------

    ghost function CatalogOf(): Catalog
      reads this`groupsByID, this`groupList, this`roles, this`roleList
    {
      Catalog(GroupIndex(groupsByID), GroupsOf(groupList), roles, roleList)
    }

    ghost function UsersView(): map<string, User>
      reads this`users, users.Values
    {
      UserValues(users)
    }

    ghost function ByIDView(): map<int, string>
      reads this`usersByID
    {
      IdIndex(usersByID)
    }

    ghost function OrderView(): seq<string>
      reads this`userList
    {
      UuidList(userList)
    }

    ghost function CountsView(): map<string, int>
      reads this`groups, groups.Values
    {
      map k | k in groups :: groups[k].userCount
    }

    ghost function PermissionsView(): map<string, Permission>
      reads this`permissionIndex, permissionIndex.Values
    {
      PermissionValues(permissionIndex)
    }

    ghost function PermissionOrderView(): seq<string>
      reads this`permissionList
    {
      PermissionUuids(permissionList)
    }

    /** The whole state with pointers and slices read off. */
    ghost function Snap(): Snapshot
      reads this, users.Values, groups.Values, permissionIndex.Values
    {
      Snapshot(CatalogOf(), nextUserID, UsersView(), ByIDView(), OrderView(), memberRows, CountsView(), roleRows,
               PermissionsView(), PermissionOrderView())
    }

    // ----- What the invariants give ------------------------------------------------------

    /** Lookup by ID through the index is lookup by ID in the snapshot. */
    lemma LookupByID(id: int)
      requires Valid()
      ensures UserByID(Snap(), id) == if id in usersByID then Some(usersByID[id].Value()) else None
      ensures id in usersByID ==> usersByID[id].id == id && usersByID[id] in userList && usersByID[id] in Repr
      ensures Sound()
    {
      hide Backed, SameGroups, SamePermissions;
    }

    lemma LookupByUuid(uuid: string)
      requires Valid()
      ensures uuid in Snap().users <==> uuid in users
      ensures uuid in users ==> Snap().users[uuid] == users[uuid].Value() && users[uuid].uuid == uuid
      ensures uuid in users ==> users[uuid] in userList && users[uuid] in Repr
      ensures Sound()
    {
      hide Backed, SameGroups, SamePermissions;
    }

    lemma ListedUser(u: StoredUser)
      requires Valid() && u in userList
      ensures u.SlicesHold() && u.uuid in UsersView() && UsersView()[u.uuid] == u.Value()
    {
      hide Backed, SameGroups, SamePermissions;
      UserListsHold(u);
    }

    lemma IndexedUser(uuid: string)
      requires Valid()
      ensures uuid in UsersView() <==> uuid in users
      ensures uuid in users ==> users[uuid].SlicesHold() && UsersView()[uuid] == users[uuid].Value()
    {
      hide Backed, SameGroups, SamePermissions;
      if uuid in users { UserListsHold(users[uuid]); }
    }

    lemma LookupGroup(id: int)
      ensures GroupByID(Snap(), id) == if id in groupsByID then Some(groupsByID[id].group) else None
    {}

    lemma LookupPermission(uuid: string)
      requires Valid()
      ensures uuid in Snap().permissions <==> uuid in permissionIndex
      ensures uuid in permissionIndex ==> permissionIndex[uuid].uuid == uuid
      ensures uuid in permissionIndex ==>
        permissionIndex[uuid] in permissionList && Snap().permissions[uuid] == permissionIndex[uuid].Value()
    {
      hide Backed, SameGroups, SameObjects;
    }

    lemma UserListsHold(u: StoredUser)
      requires Sound() && u in userList
      ensures u.SlicesHold() && u in Repr
      ensures u.groupUUIDs.backing in owner && owner[u.groupUUIDs.backing] == GroupsSlot(u)
      ensures u.groupUUIDs.backing in Repr
      ensures Holds(owner, RolesSlot(u), u.rbacRoles, u.held)
      ensures Holds(owner, GroupsSlot(u), u.groupUUIDs, u.memberships)
    {
      hide SameGroups, SamePermissions, MembersBacked, RolesBacked, PermissionsBacked;
    }

    lemma PermissionListsHold(p: StoredPermission)
      requires Valid() && p in permissionList
      ensures p.SlicesHold() && p in Repr && p.uuid in PermissionsView() && PermissionsView()[p.uuid] == p.Value()
    {
      hide SameGroups, UsersBacked, MembersBacked, RolesBacked;
    }

    lemma NextPermission(i: nat)
      requires Valid() && i < |permissionList|
      ensures var order := PermissionOrderView();
        && |order| == |permissionList|
        && LivePermissions(PermissionsView(), order[..i + 1])
        == LivePermissions(PermissionsView(), order[..i]) + [permissionList[i].Value()]
    {
      hide Valid, LivePermissions, PermissionsView;
      var order := PermissionOrderView();
      PermissionListsHold(permissionList[i]);
      LivePermissionsStep(PermissionsView(), order[..i], order[i]);
      assert order[..i + 1] == order[..i] + [order[i]];
    }

    lemma MemberRowHolds(g: string)
      requires Sound()
      ensures g in groupMembers <==> g in memberRows
      ensures g in groupMembers ==>
        var row := groupMembers[g];
        Fits(row) && View(row) == memberRows[g] && row.backing in owner && owner[row.backing] == MemberSlot(g)
      ensures ArrayOf(groupMembers, g) <= Repr
    {
      hide Owned, SameGroups, SamePermissions, UsersBacked, RolesBacked, PermissionsBacked;
    }

    lemma MembersKeyed()
      requires Sound()
      ensures groupMembers.Keys == memberRows.Keys
    {
      hide Rooted, UsersBacked, RolesBacked, PermissionsBacked;
    }

    lemma RoleRowHolds(u: string)
      requires Sound()
      ensures u in userRoles <==> u in roleRows
      ensures u in userRoles ==> Fits(userRoles[u]) && View(userRoles[u]) == roleRows[u]
    {
      hide Owned, SameGroups, SamePermissions, UsersBacked, MembersBacked, PermissionsBacked;
    }

    lemma PlacesOwned()
      requires Rooted()
      ensures owner.Keys <= Repr && ArraysOnly(owner)
    {}

    lemma SoundOwns()
      requires Sound()
      ensures this in Repr && owner.Keys <= Repr && forall g :: g in groupList ==> g in Repr
    {
      hide Backed, SameGroups, SamePermissions;
    }

    // ----- What a write leaves alone -----------------------------------------------------

    /** Of the arrays that have a place, at most this one has been written. */
    twostate predicate OnlyWritten(new w: object?)
      reads *
    {
      forall a :: a in old(owner) && a != w ==> unchanged(a)
    }

    /** The lists of the users survive a write for another kind of place. */
    twostate lemma UsersStay(new w: object?, new a: object, new slot: Slot)
      requires old(UsersBacked(userList, owner)) && OnlyWritten(w)
      requires Assignable(old(owner), w, slot) && Assignable(old(owner), a, slot)
      requires !slot.GroupsSlot? && !slot.RolesSlot?
      requires forall u :: u in old(userList) ==> unchanged(u`groupUUIDs, u`rbacRoles, u`memberships, u`held)
      ensures UsersBacked(old(userList), old(owner)[a := slot])
    {}

    twostate lemma MembersStay(new w: object?, new a: object, new slot: Slot)
      requires old(MembersBacked(groupMembers, memberRows, owner)) && OnlyWritten(w)
      requires Assignable(old(owner), w, slot) && Assignable(old(owner), a, slot) && !slot.MemberSlot?
      ensures MembersBacked(old(groupMembers), old(memberRows), old(owner)[a := slot])
    {}

    twostate lemma RolesStay(new w: object?, new a: object, new slot: Slot)
      requires old(RolesBacked(userRoles, roleRows, owner)) && OnlyWritten(w)
      requires Assignable(old(owner), w, slot) && Assignable(old(owner), a, slot) && !slot.RoleSlot?
      ensures RolesBacked(old(userRoles), old(roleRows), old(owner)[a := slot])
    {}

    twostate lemma PermissionsStay(new w: object?, new a: object, new slot: Slot)
      requires old(PermissionsBacked(permissionList, owner)) && OnlyWritten(w)
      requires Assignable(old(owner), w, slot) && Assignable(old(owner), a, slot)
      requires !slot.ActionsSlot? && !slot.ObjectsSlot? && !slot.SubjectsSlot?
      requires forall p :: p in old(permissionList) ==>
          unchanged(p`actions, p`objects, p`subjects, p`allowed, p`scope, p`holders)
      ensures PermissionsBacked(old(permissionList), old(owner)[a := slot])
    {}

    /** One row of the member table is stored anew, in its own array or in a new one. */
    twostate lemma MemberRowStored(new w: object?, new g: string, new row: Slice<string>, new list: seq<string>)
      requires old(MembersBacked(groupMembers, memberRows, owner)) && OnlyWritten(w)
      requires Assignable(old(owner), w, MemberSlot(g)) && Assignable(old(owner), row.backing, MemberSlot(g))
      requires Fits(row) && View(row) == list
      ensures MembersBacked(old(groupMembers)[g := row], old(memberRows)[g := list],
                            old(owner)[row.backing := MemberSlot(g)])
    {}

    /** One list of one user is stored anew: the other list and the other users are untouched. */
    twostate lemma OtherListsStay(new w: object?, new a: object, new slot: Slot)
      requires old(UsersBacked(userList, owner)) && OnlyWritten(w)
      requires slot.GroupsSlot? || slot.RolesSlot?
      requires Assignable(old(owner), w, slot) && Assignable(old(owner), a, slot)
      requires forall u :: u in old(userList) ==> unchanged(u`groupUUIDs, u`rbacRoles, u`memberships, u`held)
      ensures OthersBacked(old(userList), slot.user, old(owner)[a := slot])
      ensures slot.GroupsSlot? && slot.user in old(userList) ==>
          Holds(old(owner)[a := slot], RolesSlot(slot.user), slot.user.rbacRoles, slot.user.held)
      ensures slot.RolesSlot? && slot.user in old(userList) ==>
          Holds(old(owner)[a := slot], GroupsSlot(slot.user), slot.user.groupUUIDs, slot.user.memberships)
    {}

    /** No field of the state or of its objects has changed. */
    twostate predicate FieldsStay()
      reads *
    {
      && unchanged(this)
      && (forall u :: u in userList ==> unchanged(u))
      && (forall p :: p in permissionList ==> unchanged(p))
      && (forall k :: k in users ==> unchanged(users[k]))
      && (forall k :: k in groups ==> unchanged(groups[k]))
      && (forall k :: k in permissionIndex ==> unchanged(permissionIndex[k]))
    }

    twostate lemma ViewsStay()
      requires FieldsStay()
      ensures UsersView() == old(UsersView()) && CountsView() == old(CountsView())
      ensures PermissionsView() == old(PermissionsView())
    {}

    /** One object written through one index: every index sees it, and the view of the users
        changes in that user's record only. */
    twostate lemma UserWritten(new u: StoredUser)
      requires old(UsersIndexed()) && u in old(userList)
      requires users == old(users) && usersByID == old(usersByID) && userList == old(userList)
      requires forall k :: k in users && users[k] != u ==> unchanged(users[k])
      ensures UsersIndexed() && ByIDView() == old(ByIDView()) && OrderView() == old(OrderView())
      ensures UsersView() == old(UsersView())[u.uuid := u.Value()]
    {}

    twostate lemma PermissionWritten(new p: StoredPermission)
      requires old(PermissionsIndexed()) && p in old(permissionList)
      requires permissionIndex == old(permissionIndex)
      requires forall k :: k in permissionIndex && permissionIndex[k] != p ==> unchanged(permissionIndex[k])
      ensures PermissionsView() == old(PermissionsView())[p.uuid := p.Value()]
    {}

    /** Writing users leaves the other views alone. */
    twostate lemma OthersUnwritten()
      requires groups == old(groups) && permissionIndex == old(permissionIndex)
      requires forall k :: k in groups ==> unchanged(groups[k])
      requires forall k :: k in permissionIndex ==> unchanged(permissionIndex[k])
      ensures CountsView() == old(CountsView()) && PermissionsView() == old(PermissionsView())
    {}

    // ----- Writing one array -------------------------------------------------------------

    method GrowList(s: Slice<string>, x: string) returns (r: Slice<string>)
      requires Fits(s)
      modifies s.backing
      ensures Fits(r) && View(r) == old(View(s)) + [x] && (r.backing == s.backing || fresh(r.backing))
      ensures OnlyWritten(s.backing) && FieldsStay()
    {
      r := Append(s, x);
    }

    method ShrinkList(s: Slice<string>, x: string) returns (r: Slice<string>)
      requires Fits(s)
      modifies s.backing
      ensures Fits(r) && View(r) == Without(old(View(s)), x) && r.backing == s.backing
      ensures View(s) == Compacted(old(View(s)), x)
      ensures OnlyWritten(s.backing) && FieldsStay()
    {
      r := DeleteAll(s, x);
    }

    method NewList<T>(xs: seq<T>) returns (r: Slice<T>)
      ensures fresh(r.backing) && Fits(r) && View(r) == xs
      ensures OnlyWritten(null) && FieldsStay()
    {
      r := OfList(xs);
    }

    // ----- Rows of the member table ------------------------------------------------------

    /** With one array written, the state is as before but for the row that the array is for. */
    twostate lemma MemberRowReady(new w: object?, new g: string, new row: Slice<string>, new list: seq<string>)
      requires old(Sound()) && OnlyWritten(w) && FieldsStay()
      requires Assignable(owner, w, MemberSlot(g)) && Assignable(owner, row.backing, MemberSlot(g))
      requires Fits(row) && View(row) == list
      ensures Rooted() && UsersIndexed() == old(UsersIndexed()) && Snap() == old(Snap())
      ensures var places := owner[row.backing := MemberSlot(g)];
        && UsersBacked(userList, places) && PermissionsBacked(permissionList, places)
        && RolesBacked(userRoles, roleRows, places)
        && MembersBacked(groupMembers[g := row], memberRows[g := list], places)
    {
      hide Owned, SameObjects, SameGroups, SamePermissions, UserValues, PermissionValues, UsersBacked, MembersBacked,
        RolesBacked, PermissionsBacked, Assignable, IdIndex, UuidList, GroupIndex, GroupsOf, PermissionUuids;
      assert userList == old(userList) && permissionList == old(permissionList);
      ViewsStay();
      UsersStay(w, row.backing, MemberSlot(g));
      RolesStay(w, row.backing, MemberSlot(g));
      PermissionsStay(w, row.backing, MemberSlot(g));
      MemberRowStored(w, g, row, list);
    }

    method PutMemberRow(g: string, row: Slice<string>, ghost list: seq<string>)
      modifies this`groupMembers, this`memberRows, this`owner, this`Repr
      ensures groupMembers == old(groupMembers)[g := row] && memberRows == old(memberRows)[g := list]
      ensures owner == old(owner)[row.backing := MemberSlot(g)] && Repr == old(Repr) + {row.backing}
    {
      groupMembers, memberRows := groupMembers[g := row], memberRows[g := list];
      owner, Repr := owner[row.backing := MemberSlot(g)], Repr + {row.backing};
    }

    method StoreMemberRow(g: string, row: Slice<string>, ghost list: seq<string>)
      requires Rooted()
      requires var places := owner[row.backing := MemberSlot(g)];
        && UsersBacked(userList, places) && PermissionsBacked(permissionList, places)
        && RolesBacked(userRoles, roleRows, places)
        && MembersBacked(groupMembers[g := row], memberRows[g := list], places)
      modifies this`groupMembers, this`memberRows, this`owner, this`Repr
      ensures Sound() && UsersIndexed() == old(UsersIndexed()) && Repr == old(Repr) + {row.backing}
      ensures Snap() == old(Snap()).(members := old(memberRows)[g := list])
      ensures groupMembers == old(groupMembers)[g := row]
    {
      hide Owned, UsersIndexed, GroupsIndexed, PermissionsIndexed, UsersView, ByIDView, OrderView, CatalogOf,
        CountsView, PermissionsView, PermissionOrderView, UsersBacked, MembersBacked, RolesBacked, PermissionsBacked;
      OwnedGrows(Repr, Repr + {row.backing}, userList, groupList, permissionList);
      PutMemberRow(g, row, list);
    }

    /** groupMembers[g] = list: a literal, in an array of its own. */
    method SetMemberRow(g: string, list: seq<string>)
      requires Sound()
      modifies this`groupMembers, this`memberRows, this`owner, this`Repr
      ensures Sound() && UsersIndexed() == old(UsersIndexed())
      ensures fresh(Repr - old(Repr)) && old(Repr) <= Repr
      ensures Snap() == old(Snap()).(members := old(memberRows)[g := list])
    {
      hide Rooted, Backed, UsersIndexed, Snap, UsersBacked, MembersBacked, RolesBacked, PermissionsBacked, OnlyWritten,
        FieldsStay;
      var row := NewList(list);
      MemberRowReady(null, g, row, list);
      StoreMemberRow(g, row, list);
    }

    /** groupMembers[g] = append(groupMembers[g], x): in place if the row has spare capacity. */
    method AppendMember(g: string, x: string)
      requires Sound()
      modifies this`groupMembers, this`memberRows, this`owner, this`Repr, ArrayOf(groupMembers, g)
      ensures Sound() && UsersIndexed() == old(UsersIndexed())
      ensures fresh(Repr - old(Repr)) && old(Repr) <= Repr
      ensures Snap() == old(Snap()).(members := old(memberRows)[g := Row(old(memberRows), g) + [x]])
    {
      hide Rooted, Backed, UsersIndexed, Snap, UsersBacked, MembersBacked, RolesBacked, PermissionsBacked, OnlyWritten,
        FieldsStay;
      ghost var list := Row(memberRows, g) + [x];
      MemberRowHolds(g);
      if g in groupMembers {
        var row := GrowList(groupMembers[g], x);
        MemberRowReady(groupMembers[g].backing, g, row, list);
        StoreMemberRow(g, row, list);
      } else {
        var row := NewList([x]);
        MemberRowReady(null, g, row, list);
        StoreMemberRow(g, row, list);
      }
    }

    /** groupMembers[g] = slices.DeleteFunc(groupMembers[g], is x): in place, with zeroes behind it. */
    method ShrinkMember(g: string, x: string)
      requires Sound() && g in groupMembers
      modifies this`groupMembers, this`memberRows, this`owner, this`Repr, ArrayOf(groupMembers, g)
      ensures Sound() && UsersIndexed() == old(UsersIndexed()) && Repr == old(Repr)
      ensures groupMembers.Keys == old(groupMembers).Keys
      ensures Snap() == old(Snap()).(members := old(memberRows)[g := Without(old(memberRows)[g], x)])
      ensures Fits(old(groupMembers)[g]) && View(old(groupMembers)[g]) == Compacted(old(memberRows)[g], x)
    {
      hide Rooted, Backed, UsersIndexed, Snap, UsersBacked, MembersBacked, RolesBacked, PermissionsBacked, OnlyWritten,
        FieldsStay, Compacted, Without;
      MemberRowHolds(g);
      var row := ShrinkList(groupMembers[g], x);
      MemberRowReady(row.backing, g, row, Without(memberRows[g], x));
      PlacesOwned();
      StoreMemberRow(g, row, Without(memberRows[g], x));
    }

    // ----- The lists of a user -----------------------------------------------------------

    /** With one array written for one list of a user, the state is as before but for that list. */
    twostate lemma UserListsReady(new w: object?, new a: object, new slot: Slot)
      requires old(Sound()) && OnlyWritten(w) && FieldsStay()
      requires slot.GroupsSlot? || slot.RolesSlot?
      requires Assignable(owner, w, slot) && Assignable(owner, a, slot)
      ensures Rooted() && UsersIndexed() == old(UsersIndexed()) && Snap() == old(Snap())
      ensures var places := owner[a := slot];
        && MembersBacked(groupMembers, memberRows, places) && PermissionsBacked(permissionList, places)
        && RolesBacked(userRoles, roleRows, places) && OthersBacked(userList, slot.user, places)
      ensures slot.GroupsSlot? && slot.user in userList ==>
          Holds(owner[a := slot], RolesSlot(slot.user), slot.user.rbacRoles, slot.user.held)
      ensures slot.RolesSlot? && slot.user in userList ==>
          Holds(owner[a := slot], GroupsSlot(slot.user), slot.user.groupUUIDs, slot.user.memberships)
    {
      hide Owned, SameObjects, SameGroups, SamePermissions, UserValues, PermissionValues, UsersBacked, MembersBacked,
        RolesBacked, PermissionsBacked, Assignable, IdIndex, UuidList, GroupIndex, GroupsOf, PermissionUuids;
      assert userList == old(userList) && permissionList == old(permissionList);
      ViewsStay();
      MembersStay(w, a, slot);
      RolesStay(w, a, slot);
      PermissionsStay(w, a, slot);
      OtherListsStay(w, a, slot);
    }

    /** Both lists of a user, in the arrays that places gives them. */
    ghost predicate ListsReady(u: StoredUser, g: Slice<string>, r: Slice<RbacRole>, memberships: seq<string>,
        held: seq<RbacRole>, places: map<object, Slot>)
      reads this, Repr, places.Keys, u
    {
      && Rooted() && u in userList && ArraysOnly(places)
      && Holds(places, GroupsSlot(u), g, memberships) && Holds(places, RolesSlot(u), r, held)
      && OthersBacked(userList, u, places) && MembersBacked(groupMembers, memberRows, places)
      && RolesBacked(userRoles, roleRows, places) && PermissionsBacked(permissionList, places)
    }

    method PutLists(u: StoredUser, g: Slice<string>, r: Slice<RbacRole>, ghost memberships: seq<string>,
        ghost held: seq<RbacRole>, ghost places: map<object, Slot>)
      modifies u`groupUUIDs, u`rbacRoles, u`memberships, u`held, this`owner, this`Repr
      ensures u.groupUUIDs == g && u.rbacRoles == r && u.memberships == memberships && u.held == held
      ensures owner == places && Repr == old(Repr) + places.Keys
    {
      u.groupUUIDs, u.rbacRoles, u.memberships, u.held := g, r, memberships, held;
      owner, Repr := places, Repr + places.Keys;
    }

    /** Once the two lists of a user are written, every user is backed. */
    twostate lemma ListsStored(new u: StoredUser, places: map<object, Slot>)
      requires u in old(userList) && old(OthersBacked(userList, u, places)) && userList == old(userList)
      requires forall x :: x in userList && x != u ==> unchanged(x)
      requires forall a :: a in places ==> unchanged(a)
      requires Holds(places, GroupsSlot(u), u.groupUUIDs, u.memberships)
      requires Holds(places, RolesSlot(u), u.rbacRoles, u.held)
      ensures UsersBacked(userList, places)
    {}

    method StoreLists(u: StoredUser, g: Slice<string>, r: Slice<RbacRole>, ghost memberships: seq<string>,
        ghost held: seq<RbacRole>, ghost places: map<object, Slot>)
      requires ListsReady(u, g, r, memberships, held, places) && UsersIndexed()
      modifies u`groupUUIDs, u`rbacRoles, u`memberships, u`held, this`owner, this`Repr
      ensures Valid() && Repr == old(Repr) + places.Keys
      ensures Snap() == PutUser(old(Snap()), old(u.Value()).(groupUUIDs := memberships, rbacRoles := held))
    {
      hide Owned, UsersIndexed, GroupsIndexed, PermissionsIndexed, UsersView, ByIDView, OrderView, CatalogOf,
        CountsView, PermissionsView, PermissionOrderView, UsersBacked, MembersBacked, RolesBacked, PermissionsBacked,
        OthersBacked, Holds;
      OwnedGrows(Repr, Repr + places.Keys, userList, groupList, permissionList);
      PutLists(u, g, r, memberships, held, places);
      UserWritten(u);
      ListsStored(u, places);
    }

    /** u.GroupUUIDs = append(u.GroupUUIDs, g) */
    method AppendGroup(u: StoredUser, g: string)
      requires Valid() && u in userList
      modifies u`groupUUIDs, u`rbacRoles, u`memberships, u`held, this`owner, this`Repr, u.groupUUIDs.backing
      ensures Valid() && fresh(Repr - old(Repr)) && old(Repr) <= Repr
      ensures Snap() == PutUser(old(Snap()), old(u.Value()).(groupUUIDs := old(u.memberships) + [g]))
    {
      hide Rooted, Backed, UsersIndexed, Snap, UsersBacked, MembersBacked, RolesBacked, PermissionsBacked, OthersBacked,
        OnlyWritten, FieldsStay;
      UserListsHold(u);
      PlacesOwned();
      ghost var list, held := u.memberships + [g], u.held;
      var row := GrowList(u.groupUUIDs, g);
      UserListsReady(u.groupUUIDs.backing, row.backing, GroupsSlot(u));
      PlacesOwned();
      StoreLists(u, row, u.rbacRoles, list, held, owner[row.backing := GroupsSlot(u)]);
    }

    /** u.GroupUUIDs = slices.DeleteFunc(u.GroupUUIDs, is g) */
    method ShrinkGroups(u: StoredUser, g: string)
      requires Valid() && u in userList
      modifies u`groupUUIDs, u`rbacRoles, u`memberships, u`held, this`owner, this`Repr, u.groupUUIDs.backing
      ensures Valid() && Repr == old(Repr)
      ensures Snap() == PutUser(old(Snap()), old(u.Value()).(groupUUIDs := Without(old(u.memberships), g)))
    {
      hide Rooted, Backed, UsersIndexed, Snap, UsersBacked, MembersBacked, RolesBacked, PermissionsBacked, OthersBacked,
        OnlyWritten, FieldsStay, Compacted, Without;
      UserListsHold(u);
      PlacesOwned();
      ghost var list, held := Without(u.memberships, g), u.held;
      var row := ShrinkList(u.groupUUIDs, g);
      UserListsReady(row.backing, row.backing, GroupsSlot(u));
      StoreLists(u, row, u.rbacRoles, list, held, owner[row.backing := GroupsSlot(u)]);
    }

    /** The group enters the user's own list unless it is there already. */
    method EnterGroup(u: StoredUser, g: string)
      requires Valid() && u in userList
      modifies u`groupUUIDs, u`rbacRoles, u`memberships, u`held, this`owner, this`Repr, u.groupUUIDs.backing
      ensures Valid() && fresh(Repr - old(Repr)) && old(Repr) <= Repr
      ensures Snap() == PutUser(old(Snap()), old(u.Value()).(
          groupUUIDs := if g in old(u.memberships) then old(u.memberships) else old(u.memberships) + [g]))
    {
      hide Sound, UsersIndexed, ByIDView, OrderView, CatalogOf, CountsView, PermissionsView, PermissionOrderView;
      UserListsHold(u);
      if g !in View(u.groupUUIDs) {
        AppendGroup(u, g);
      } else {
        ListedUser(u);
      }
    }

    /** u.RbacRoles becomes a list that nothing else refers to. */
    method AssignRoles(u: StoredUser, refs: Slice<RbacRole>, ghost held: seq<RbacRole>)
      requires Valid() && u in userList && refs.backing !in Repr && Fits(refs) && View(refs) == held
      modifies u`groupUUIDs, u`rbacRoles, u`memberships, u`held, this`owner, this`Repr
      ensures Valid() && Repr == old(Repr) + {refs.backing}
      ensures Snap() == PutUser(old(Snap()), old(u.Value()).(rbacRoles := held))
    {
      hide Rooted, Backed, UsersIndexed, Snap, UsersBacked, MembersBacked, RolesBacked, PermissionsBacked, OthersBacked;
      UserListsHold(u);
      PlacesOwned();
      UserListsReady(null, refs.backing, RolesSlot(u));
      PlacesOwned();
      StoreLists(u, u.groupUUIDs, refs, u.memberships, held, owner[refs.backing := RolesSlot(u)]);
    }

    // ----- New objects and new rows ------------------------------------------------------

    /** Giving places to new arrays leaves every stored list as it is. */
    lemma ExtendKeepsAll(places: map<object, Slot>)
      requires Sound() && Extends(owner, places)
      ensures ArraysOnly(places) && UsersBacked(userList, places) && MembersBacked(groupMembers, memberRows, places)
      ensures RolesBacked(userRoles, roleRows, places) && PermissionsBacked(permissionList, places)
    {
      hide Rooted, UsersBacked, MembersBacked, RolesBacked, PermissionsBacked;
      ExtendKeepsUsers(userList, owner, places);
      ExtendKeepsMembers(groupMembers, memberRows, owner, places);
      ExtendKeepsRoles(userRoles, roleRows, owner, places);
      ExtendKeepsPermissions(permissionList, owner, places);
    }

    method PutEntry(u: StoredUser)
      modifies this`users, this`usersByID, this`userList, this`owner, this`Repr
      ensures users == old(users)[u.uuid := u] && usersByID == old(usersByID)[u.id := u]
          && userList == old(userList) + [u]
      ensures owner == WithUser(old(owner), u)
      ensures Repr == old(Repr) + {u} + u.Arrays()
    {
      hide WithUser;
      users, usersByID, userList := users[u.uuid := u], usersByID[u.id := u], userList + [u];
      owner, Repr := WithUser(owner, u), Repr + {u} + u.Arrays();
    }

    method IndexUser(u: StoredUser)
      requires u !in userList
      modifies this`users, this`usersByID, this`userList, this`owner, this`Repr
      ensures UsersView() == old(UsersView())[u.uuid := u.Value()]
      ensures ByIDView() == old(ByIDView())[u.id := u.uuid] && OrderView() == old(OrderView()) + [u.uuid]
      ensures old(UsersIndexed()) ==> (UsersIndexed() <==> u.uuid !in old(UsersView()) && u.id !in old(ByIDView()))
      ensures userList == old(userList) + [u] && owner == WithUser(old(owner), u)
      ensures Repr == old(Repr) + {u} + u.Arrays()
    {
      hide SameObjects, UserValues, IdIndex, UuidList, WithUser;
      FileKeepsViews(users, usersByID, userList, u);
      if UsersIndexed() {
        FileKeepsObjects(users, usersByID, userList, u);
      }
      PutEntry(u);
    }

    /** Puts a new object under the three user indexes. They still agree exactly when the object's UUID
        and ID were free. */
    method EnterUser(u: StoredUser)
      requires Sound() && u !in Repr && u.SlicesHold()
      requires u.Arrays() !! Repr
      modifies this`users, this`usersByID, this`userList, this`owner, this`Repr
      ensures Sound() && u in userList && Repr == old(Repr) + {u} + u.Arrays()
      ensures old(UsersIndexed()) ==>
          (UsersIndexed() <==> u.uuid !in old(Snap()).users && u.id !in old(Snap()).byID)
      ensures Snap() == old(Snap()).(
          users := old(Snap()).users[u.uuid := u.Value()], byID := old(Snap()).byID[u.id := u.uuid],
          order := old(Snap()).order + [u.uuid])
    {
      hide Owned, UsersIndexed, GroupsIndexed, PermissionsIndexed, UsersView, ByIDView, OrderView, CatalogOf,
        CountsView, PermissionsView, PermissionOrderView, UsersBacked, MembersBacked, RolesBacked, PermissionsBacked,
        Extends, WithUser, StoredUser.SlicesHold;
      FileKeepsOwned(Repr, userList, groupList, permissionList, u);
      OwnedGrows(Repr + {u}, Repr + {u} + u.Arrays(), userList + [u], groupList,
                 permissionList);
      EnterKeepsBacked(userList, owner, u);
      ExtendKeepsAll(WithUser(owner, u));
      IndexUser(u);
    }

    method PutRoleRow(uuid: string, row: Slice<string>, ghost list: seq<string>)
      modifies this`userRoles, this`roleRows, this`owner, this`Repr
      ensures userRoles == old(userRoles)[uuid := row] && roleRows == old(roleRows)[uuid := list]
      ensures owner == old(owner)[row.backing := RoleSlot(uuid)] && Repr == old(Repr) + {row.backing}
    {
      userRoles, roleRows := userRoles[uuid := row], roleRows[uuid := list];
      owner, Repr := owner[row.backing := RoleSlot(uuid)], Repr + {row.backing};
    }

    /** Stores a row of the role table that nothing else refers to. */
    method StoreRoleRow(uuid: string, row: Slice<string>, ghost list: seq<string>)
      requires Sound() && row.backing !in Repr && Fits(row) && View(row) == list
      modifies this`userRoles, this`roleRows, this`owner, this`Repr
      ensures Sound() && UsersIndexed() == old(UsersIndexed()) && Repr == old(Repr) + {row.backing}
      ensures Snap() == old(Snap()).(userRoles := old(roleRows)[uuid := list])
    {
      hide Owned, UsersIndexed, GroupsIndexed, PermissionsIndexed, UsersView, ByIDView, OrderView, CatalogOf,
        CountsView, PermissionsView, PermissionOrderView, UsersBacked, MembersBacked, RolesBacked, PermissionsBacked;
      ghost var places := owner[row.backing := RoleSlot(uuid)];
      OwnedGrows(Repr, Repr + {row.backing}, userList, groupList, permissionList);
      ExtendKeepsUsers(userList, owner, places);
      ExtendKeepsMembers(groupMembers, memberRows, owner, places);
      ExtendKeepsPermissions(permissionList, owner, places);
      RoleRowFiled(userRoles, roleRows, owner, uuid, row);
      PutRoleRow(uuid, row, list);
    }

    method IndexPermission(p: StoredPermission, ghost places: map<object, Slot>)
      requires PermissionsIndexed() && p.uuid !in PermissionsView()
      modifies this`permissionIndex, this`permissionList, this`owner, this`Repr
      ensures PermissionsIndexed() && PermissionsView() == old(PermissionsView())[p.uuid := p.Value()]
      ensures PermissionOrderView() == old(PermissionOrderView()) + [p.uuid]
      ensures permissionList == old(permissionList) + [p] && owner == places && Repr == old(Repr) + {p} + places.Keys
    {
      assert p.uuid !in permissionIndex;
      hide SamePermissions, PermissionValues, PermissionUuids;
      FileKeepsPermissions(permissionIndex, permissionList, p);
      permissionIndex, permissionList := permissionIndex[p.uuid := p], permissionList + [p];
      owner, Repr := places, Repr + {p} + places.Keys;
    }

    /** The three arrays that a new permission brings along, in places of their own. */
    lemma NewPermissionBacked(p: StoredPermission)
      requires Sound() && p.SlicesHold() && p.Arrays() !! Repr && p.objects.backing != p.subjects.backing
      ensures var places := WithPermission(owner, p, p.actions, p.objects, p.subjects);
        && ArraysOnly(places) && places.Keys == owner.Keys + p.Arrays()
        && UsersBacked(userList, places) && MembersBacked(groupMembers, memberRows, places)
        && RolesBacked(userRoles, roleRows, places) && PermissionsBacked(permissionList + [p], places)
    {
      hide Owned, GroupsIndexed, PermissionsIndexed, UsersBacked, MembersBacked, RolesBacked, PermissionsBacked,
        Extends, WithPermission, Holds;
      var places := WithPermission(owner, p, p.actions, p.objects, p.subjects);
      NewPermissionArrays(owner, p, p.actions, p.objects, p.subjects);
      ExtendKeepsAll(places);
      FileKeepsPermissionsBacked(permissionList, places, p);
    }

    method EnterPermission(p: StoredPermission)
      requires Valid() && p !in Repr && p.SlicesHold() && p.uuid !in Snap().permissions
      requires p.Arrays() !! Repr && p.objects.backing != p.subjects.backing
      modifies this`permissionIndex, this`permissionList, this`owner, this`Repr
      ensures Valid() && old(Repr) <= Repr && Repr <= old(Repr) + {p} + p.Arrays()
      ensures Snap() == old(Snap()).(
          permissions := old(Snap()).permissions[p.uuid := p.Value()],
          permissionOrder := old(Snap()).permissionOrder + [p.uuid])
    {
      hide Owned, UsersIndexed, GroupsIndexed, PermissionsIndexed, UsersView, ByIDView, OrderView, CatalogOf,
        CountsView, PermissionsView, PermissionOrderView, UsersBacked, MembersBacked, RolesBacked, PermissionsBacked,
        WithPermission, StoredPermission.SlicesHold;
      ghost var places := WithPermission(owner, p, p.actions, p.objects, p.subjects);
      NewPermissionBacked(p);
      FilePermissionKeepsOwned(Repr, userList, groupList, permissionList, p);
      OwnedGrows(Repr + {p}, Repr + {p} + places.Keys, userList, groupList, permissionList + [p]);
      IndexPermission(p, places);
    }

    // ----- Counts ------------------------------------------------------------------------

    /** The counts that a recount leaves behind are the counts of the specification. */
    lemma RecountedCounts()
      requires GroupsIndexed()
      requires forall g :: g in groupList ==> g.userCount == |Row(memberRows, g.group.uuid)|
      ensures CountsView() == MemberCounts(CatalogOf(), memberRows)
    {
      var gs := CatalogOf().groupList;
      forall k | k in groups
        ensures k in GroupUuids(CatalogOf())
      {
        var i :| 0 <= i < |groupList| && groupList[i] == groups[k];
        assert gs[i].uuid == k;
      }
      forall g | g in gs
        ensures g.uuid in groups
      {
        var i :| 0 <= i < |gs| && gs[i] == g;
        assert groupList[i] in groupList;
      }
    }

    method RecomputeGroupCounts()
      requires Sound()
      modifies groupList`userCount
      ensures Sound() && UsersIndexed() == old(UsersIndexed()) && Snap() == Recount(old(Snap()))
    {
      hide Owned, SamePermissions, SameObjects, UserValues, IdIndex, UuidList, PermissionValues, PermissionUuids,
        UsersBacked, MembersBacked, RolesBacked, PermissionsBacked, MemberCounts;
      PlacesOwned();
      for i := 0 to |groupList|
        invariant Sound() && UsersView() == old(UsersView()) && PermissionsView() == old(PermissionsView())
        invariant forall j :: 0 <= j < i ==> groupList[j].userCount == |Row(memberRows, groupList[j].group.uuid)|
      {
        var g := groupList[i].group.uuid;
        MemberRowHolds(g);
        groupList[i].userCount := if g in groupMembers then groupMembers[g].len else 0;
      }
      RecountedCounts();
    }

    /** The counter moves on. */
    method Count(next: nat)
      requires Sound()
      modifies this`nextUserID
      ensures Sound() && UsersIndexed() == old(UsersIndexed())
      ensures nextUserID == next && Snap() == old(Snap()).(nextUserID := next)
    {
      hide Owned, UsersIndexed, GroupsIndexed, PermissionsIndexed, UsersView, ByIDView, OrderView, CatalogOf,
        CountsView, PermissionsView, PermissionOrderView, Backed;
      nextUserID := next;
    }

    // ----- Start-up ----------------------------------------------------------------------

    /** NewState before seeding. */
    constructor ()
      ensures Valid() && fresh(Repr)
      ensures nextUserID == 1000 && users == map[] && usersByID == map[] && userList == [] && roleRows == map[]
      ensures groups == map[] && groupsByID == map[] && groupList == [] && roles == map[] && roleList == []
      ensures permissionIndex == map[] && permissionList == [] && memberRows == map[]
    {
      nextUserID, users, usersByID, userList, userRoles := 1000, map[], map[], [], map[];
      groups, groupsByID, groupList, roles, roleList := map[], map[], [], map[], [];
      permissionIndex, permissionList, groupMembers := map[], [], map[];
      memberRows, roleRows, owner := map[], map[], map[];
      Repr := {this};
    }

    /** One turn of the loop of seed over the roles. */
    method SeedRole(r: Role)
      requires Valid()
      modifies this`roles, this`roleList
      ensures Valid() && roles == old(roles)[r.uuid := r] && roleList == old(roleList) + [r]
    {
      hide Backed, Owned, SameGroups, SameObjects, SamePermissions;
      roles, roleList := roles[r.uuid := r], roleList + [r];
    }

    method SeedRoles(list: seq<Role>)
      requires Valid() && roles == map[] && roleList == []
      modifies this`roles, this`roleList
      ensures Valid() && roles == IndexBy(list, UuidOfRole) && roleList == list
    {
      hide Valid;
      for i := 0 to |list|
        invariant Valid() && roles == IndexBy(list[..i], UuidOfRole) && roleList == list[..i]
      {
        IndexByStep(list, UuidOfRole, i);
        SeedRole(list[i]);
      }
      assert list[..|list|] == list;
    }

    /** One turn of the loop of seed over the users. */
    method SeedUser(user: User)
      requires Valid() && user.uuid !in Snap().users && user.id !in Snap().byID
      modifies this`users, this`usersByID, this`userList, this`userRoles, this`roleRows, this`owner, this`Repr
      ensures Valid() && fresh(Repr - old(Repr)) && old(Repr) <= Repr
      ensures Snap() == old(Snap()).(
          users := old(Snap()).users[user.uuid := user], byID := old(Snap()).byID[user.id := user.uuid],
          order := old(Snap()).order + [user.uuid],
          userRoles := old(Snap()).userRoles[user.uuid := RoleUuids(user.rbacRoles)])
    {
      hide Sound, UsersIndexed, UsersView, ByIDView, OrderView, CatalogOf, CountsView, PermissionsView,
        PermissionOrderView, StoredUser.SlicesHold;
      var u := new StoredUser(user);
      EnterUser(u);
      var row := OfList(RoleUuids(user.rbacRoles));
      StoreRoleRow(user.uuid, row, RoleUuids(user.rbacRoles));
    }

    method SeedUsers(list: seq<User>)
      requires Valid() && users == map[] && usersByID == map[] && userList == [] && roleRows == map[]
      requires KeysDistinct(list, UuidOfUser) && KeysDistinct(list, IdOfUser)
      modifies this`users, this`usersByID, this`userList, this`userRoles, this`roleRows, this`owner, this`Repr
      ensures Valid() && fresh(Repr - old(Repr)) && old(Repr) <= Repr
      ensures Snap() == old(Snap()).(users := UsersOf(list), byID := IdsOf(list), order := OrderOf(list),
                                     userRoles := RoleRowsOf(list))
    {
      hide Valid, UserValues, IdIndex, UuidList, RoleRowsOf, UsersOf, IdsOf, OrderOf, CatalogOf, CountsView,
        PermissionsView, PermissionOrderView;
      ghost var start := Snap();
      EmptyTables();
      EmptyViews(users, usersByID, userList);
      assert list[..0] == [];
      for i := 0 to |list|
        invariant Valid() && fresh(Repr - old(Repr)) && old(Repr) <= Repr
        invariant Snap() == start.(users := UsersOf(list[..i]), byID := IdsOf(list[..i]), order := OrderOf(list[..i]),
                                   userRoles := RoleRowsOf(list[..i]))
      {
        FiledListStep(list, i);
        FiledKeysFree(list, i);
        SeedUser(list[i]);
      }
      assert list[..|list|] == list;
    }

    static lemma EmptyGroupViews()
      ensures GroupIndex(map[]) == map[] && GroupsOf([]) == []
    {}

    /** One turn of the loop of seed over the groups. */
    method SeedGroup(group: Group)
      requires Valid() && group.uuid !in groups
      modifies this`groups, this`groupsByID, this`groupList, this`Repr
      ensures Valid() && fresh(Repr - old(Repr)) && old(Repr) <= Repr
      ensures GroupIndex(groupsByID) == old(GroupIndex(groupsByID))[group.id := group]
      ensures GroupsOf(groupList) == old(GroupsOf(groupList)) + [group]
      ensures groups.Keys == old(groups).Keys + {group.uuid}
    {
      hide Backed, SameGroups, SameObjects, SamePermissions, GroupIndex, GroupsOf, Owned;
      var g := new StoredGroup(group);
      FileKeepsGroups(groups, groupsByID, groupList, g);
      FileGroupKeepsOwned(Repr, userList, groupList, permissionList, g);
      groups := groups[g.group.uuid := g];
      groupsByID := groupsByID[g.group.id := g];
      groupList := groupList + [g];
      Repr := Repr + {g};
    }

    method SeedGroups(list: seq<Group>)
      requires Valid() && groups == map[] && groupsByID == map[] && groupList == []
      requires KeysDistinct(list, UuidOfGroup)
      modifies this`groups, this`groupsByID, this`groupList, this`Repr
      ensures Valid() && fresh(Repr - old(Repr)) && old(Repr) <= Repr
      ensures GroupIndex(groupsByID) == IndexBy(list, IdOfGroup) && GroupsOf(groupList) == list
    {
      hide Backed, SameGroups, SameObjects, SamePermissions, GroupIndex, GroupsOf, Owned;
      EmptyGroupViews();
      for i := 0 to |list|
        invariant Valid() && fresh(Repr - old(Repr)) && old(Repr) <= Repr
        invariant GroupIndex(groupsByID) == IndexBy(list[..i], IdOfGroup) && GroupsOf(groupList) == list[..i]
        invariant groups.Keys == IndexBy(list[..i], UuidOfGroup).Keys
      {
        IndexByStep(list, IdOfGroup, i);
        IndexByStep(list, UuidOfGroup, i);
        KeyIsFree(list, UuidOfGroup, i);
        SeedGroup(list[i]);
      }
      assert list[..|list|] == list;
    }

    static lemma EmptyPermissionViews()
      ensures PermissionValues(map[]) == map[] && PermissionUuids([]) == [] && PermissionOrderOf([]) == []
    {}

    /** One turn of the loop of seed over the permissions. */
    method SeedPermission(permission: Permission)
      requires Valid() && permission.uuid !in Snap().permissions
      modifies this`permissionIndex, this`permissionList, this`owner, this`Repr
      ensures Valid() && fresh(Repr - old(Repr)) && old(Repr) <= Repr
      ensures Snap() == old(Snap()).(
          permissions := old(Snap()).permissions[permission.uuid := permission],
          permissionOrder := old(Snap()).permissionOrder + [permission.uuid])
    {
      hide Valid, Snap, StoredPermission.SlicesHold;
      var p := new StoredPermission(permission);
      EnterPermission(p);
    }

    method SeedPermissions(list: seq<Permission>)
      requires Valid() && permissionIndex == map[] && permissionList == []
      requires KeysDistinct(list, UuidOfPermission)
      modifies this`permissionIndex, this`permissionList, this`owner, this`Repr
      ensures Valid() && fresh(Repr - old(Repr)) && old(Repr) <= Repr
      ensures Snap() == old(Snap()).(permissions := IndexBy(list, UuidOfPermission),
                                     permissionOrder := PermissionOrderOf(list))
    {
      hide Valid, PermissionUuids, PermissionValues, PermissionOrderOf, UsersView, ByIDView, OrderView, CatalogOf,
        CountsView;
      EmptyPermissionViews();
      ghost var start := Snap();
      assert list[..0] == [];
      for i := 0 to |list|
        invariant Valid() && fresh(Repr - old(Repr)) && old(Repr) <= Repr
        invariant Snap() == start.(permissions := IndexBy(list[..i], UuidOfPermission),
                                   permissionOrder := PermissionOrderOf(list[..i]))
      {
        IndexByStep(list, UuidOfPermission, i);
        PermissionOrderStep(list, i);
        KeyIsFree(list, UuidOfPermission, i);
        SeedPermission(list[i]);
      }
      assert list[..|list|] == list;
    }

    /** Roles and groups. */
    method SeedCatalog(roleSeeds: seq<Role>, groupSeeds: seq<Group>)
      requires Valid() && groups == map[] && groupsByID == map[] && groupList == [] && roles == map[] && roleList == []
      requires KeysDistinct(groupSeeds, UuidOfGroup)
      modifies this`roles, this`roleList, this`groups, this`groupsByID, this`groupList, this`Repr
      ensures Valid() && fresh(Repr - old(Repr)) && old(Repr) <= Repr
      ensures CatalogOf() == Tables.CatalogOf(groupSeeds, roleSeeds)
    {
      hide Valid, GroupIndex, GroupsOf;
      SeedRoles(roleSeeds);
      SeedGroups(groupSeeds);
    }

    /** The first half of seed: roles, groups and users. */
    method SeedTables(roleSeeds: seq<Role>, groupSeeds: seq<Group>, userSeeds: seq<User>)
      requires Valid() && users == map[] && usersByID == map[] && userList == [] && roleRows == map[]
      requires groups == map[] && groupsByID == map[] && groupList == [] && roles == map[] && roleList == []
      requires KeysDistinct(groupSeeds, UuidOfGroup)
      requires KeysDistinct(userSeeds, UuidOfUser) && KeysDistinct(userSeeds, IdOfUser)
      modifies this`roles, this`roleList, this`groups, this`groupsByID, this`groupList, this`owner
      modifies this`users, this`usersByID, this`userList, this`userRoles, this`roleRows, this`Repr
      ensures Valid() && fresh(Repr - old(Repr)) && old(Repr) <= Repr
      ensures CatalogOf() == Tables.CatalogOf(groupSeeds, roleSeeds)
      ensures UsersView() == UsersOf(userSeeds) && ByIDView() == IdsOf(userSeeds) && OrderView() == OrderOf(userSeeds)
      ensures roleRows == RoleRowsOf(userSeeds)
    {
      hide Valid, UsersView, ByIDView, OrderView, CatalogOf, CountsView, PermissionsView, PermissionOrderView;
      SeedCatalog(roleSeeds, groupSeeds);
      SeedUsers(userSeeds);
    }

    method SeedMembers(next: nat, members: map<string, seq<string>>)
      requires Valid() && memberRows == map[]
      modifies this`nextUserID, this`groupMembers, this`memberRows, this`owner, this`Repr, groupList`userCount
      ensures Valid() && fresh(Repr - old(Repr)) && old(Repr) <= Repr
      ensures Snap() == old(Snap()).(nextUserID := next, members := members,
                                     counts := MemberCounts(old(CatalogOf()), members))
    {
      hide Sound, UsersIndexed, UsersView, ByIDView, OrderView, CatalogOf, CountsView, PermissionsView,
        PermissionOrderView, MemberCounts;
      Count(next);
      ghost var start := Snap();
      assert members - members.Keys == map[];
      var pending := members.Keys;
      while pending != {}
        invariant Valid() && fresh(Repr - old(Repr)) && old(Repr) <= Repr && pending <= members.Keys
        invariant memberRows == members - pending
        invariant Snap() == start.(members := memberRows)
      {
        var g :| g in pending;
        SetMemberRow(g, members[g]);
        pending := pending - {g};
      }
      assert members - {} == members;
      RecomputeGroupCounts();
    }

    /** The second half: the counter, the edge table and the counts, and then the permissions. */
    method SeedEdges(next: nat, members: map<string, seq<string>>, permissionSeeds: seq<Permission>)
      requires Valid() && permissionIndex == map[] && permissionList == [] && memberRows == map[]
          && KeysDistinct(permissionSeeds, UuidOfPermission)
      modifies Repr
      ensures Valid() && fresh(Repr - old(Repr))
      ensures Snap() == old(Snap()).(nextUserID := next, members := members,
          counts := MemberCounts(old(CatalogOf()), members),
                                     permissions := IndexBy(permissionSeeds, UuidOfPermission),
                                     permissionOrder := PermissionOrderOf(permissionSeeds))
    {
      hide Sound, UsersIndexed, UsersView, ByIDView, OrderView, CatalogOf, CountsView, PermissionsView,
        PermissionOrderView, MemberCounts;
      SoundOwns();
      SeedMembers(next, members);
      SeedPermissions(permissionSeeds);
    }

    // ----- Methods that only read --------------------------------------------------------

    method GetUserByUUID(uuid: string) returns (user: Option<UserCopy>)
      requires Valid()
      ensures user.Some? <==> uuid in Snap().users
      ensures user.Some? ==>
        user.value.Whole() && fresh(user.value.Arrays()) && user.value.Read() == Snap().users[uuid]
    {
      hide Backed, SameGroups, SamePermissions;
      if uuid !in users {
        return None;
      }
      LookupByUuid(uuid);
      UserListsHold(users[uuid]);
      var copy := users[uuid].Copy();
      user := Some(copy);
    }

    method GetUserByID(id: int) returns (user: Option<UserCopy>)
      requires Valid()
      ensures user.Some? <==> UserByID(Snap(), id).Some?
      ensures user.Some? ==>
        user.value.Whole() && fresh(user.value.Arrays()) && Some(user.value.Read()) == UserByID(Snap(), id)
    {
      hide Valid, Snap, UserByID;
      LookupByID(id);
      if id !in usersByID {
        return None;
      }
      UserListsHold(usersByID[id]);
      var copy := usersByID[id].Copy();
      user := Some(copy);
    }

    method ListUsers() returns (out: seq<UserCopy>)
      requires Valid()
      ensures AllWhole(out) && fresh(UserArrays(out)) && ReadUsers(out) == Directory.ListUsers(Snap())
    {
      hide Valid, Rooted, Backed, ReadUsers, AllWhole, UsersView, ByIDView, CatalogOf, CountsView,
        PermissionsView, PermissionOrderView;
      ghost var order := OrderView();
      out := [];
      NothingRead();
      for i := 0 to |userList|
        invariant AllWhole(out) && fresh(UserArrays(out)) && ReadUsers(out) == LiveUsers(UsersView(), order[..i])
      {
        ListedUser(userList[i]);
        var copy := userList[i].Copy();
        ReadOneMore(out, copy);
        out := out + [copy];
        LiveUsersStep(UsersView(), order[..i], order[i]);
        assert order[..i + 1] == order[..i] + [order[i]];
      }
      assert order[..|order|] == order;
    }

    method GroupMembershipFixed(groupID: int) returns (fixed: bool, found: bool)
      requires Valid()
      ensures found == GroupByID(Snap(), groupID).Some?
      ensures (found && fixed) == MembershipFixed(Snap(), groupID)
    {
      if groupID in groupsByID {
        fixed, found := groupsByID[groupID].group.membershipFixed, true;
      } else {
        fixed, found := false, false;
      }
    }

    method ListGroups() returns (out: seq<GroupRow>)
      requires Valid()
      ensures |out| == |Snap().catalog.groupList|
      ensures forall i :: 0 <= i < |out| ==>
                && out[i].group == Snap().catalog.groupList[i]
                && out[i].group.uuid in Snap().counts
                && out[i].userCount == Snap().counts[out[i].group.uuid]
    {
      out := [];
      for i := 0 to |groupList|
        invariant |out| == i
        invariant forall j :: 0 <= j < i ==> out[j] == GroupRow(groupList[j].group, groupList[j].userCount)
      {
        out := out + [GroupRow(groupList[i].group, groupList[i].userCount)];
      }
      assert forall i :: 0 <= i < |groupList| ==> groupList[i] in groupList;
    }

    /** The loop over a member row: copies of the users that still exist. */
    method CopyLive(members: seq<string>) returns (live: seq<UserCopy>)
      requires Valid()
      ensures AllWhole(live) && fresh(UserArrays(live)) && ReadUsers(live) == LiveUsers(UsersView(), members)
    {
      hide Valid, ReadUsers, AllWhole, UsersView;
      live := [];
      NothingRead();
      for i := 0 to |members|
        invariant AllWhole(live) && fresh(UserArrays(live)) && ReadUsers(live) == LiveUsers(UsersView(), members[..i])
      {
        LiveUsersStep(UsersView(), members[..i], members[i]);
        assert members[..i + 1] == members[..i] + [members[i]];
        IndexedUser(members[i]);
        if members[i] in users {
          var copy := users[members[i]].Copy();
          ReadOneMore(live, copy);
          live := live + [copy];
        }
      }
      assert members[..|members|] == members;
    }

    method ListGroupMembers(groupID: int) returns (out: Option<seq<UserCopy>>)
      requires Valid()
      ensures out.Some? <==> Directory.ListGroupMembers(Snap(), groupID).Some?
      ensures out.Some? ==> AllWhole(out.value) && fresh(UserArrays(out.value))
      ensures out.Some? ==> ReadUsers(out.value) == Directory.ListGroupMembers(Snap(), groupID).value
    {
      hide Sound, UsersIndexed, ReadUsers, AllWhole, UserArrays, UsersView, ByIDView, OrderView, CatalogOf, CountsView,
        PermissionsView, PermissionOrderView;
      LookupGroup(groupID);
      if groupID !in groupsByID {
        return None;
      }
      var g := groupsByID[groupID].group.uuid;
      MemberRowHolds(g);
      var live := CopyLive(if g in groupMembers then View(groupMembers[g]) else []);
      out := Some(live);
    }

    method GetGroupByID(id: int) returns (row: Option<GroupRow>)
      requires Valid()
      ensures row.Some? <==> GroupByID(Snap(), id).Some?
      ensures row.Some? ==> Some(row.value.group) == GroupByID(Snap(), id)
      ensures row.Some? ==>
        row.value.group.uuid in Snap().counts && row.value.userCount == Snap().counts[row.value.group.uuid]
    {
      if id in groupsByID {
        row := Some(GroupRow(groupsByID[id].group, groupsByID[id].userCount));
      } else {
        row := None;
      }
    }

    method ListRoles() returns (out: seq<Role>)
      requires Valid()
      ensures out == Snap().catalog.roleList
    {
      out := [];
      for i := 0 to |roleList|
        invariant out == roleList[..i]
      {
        out := out + [roleList[i]];
      }
    }

    method GetUserRoles(userUUID: string) returns (row: Option<Slice<string>>)
      requires Valid()
      ensures row.Some? <==> Directory.GetUserRoles(Snap(), userUUID).Some?
      ensures row.Some? ==> Fits(row.value) && fresh(row.value.backing)
      ensures row.Some? ==> View(row.value) == Directory.GetUserRoles(Snap(), userUUID).value
    {
      hide Rooted, Backed;
      if userUUID !in users {
        return None;
      }
      RoleRowHolds(userUUID);
      var list: Slice<string>;
      if userUUID in userRoles {
        list := Clone(userRoles[userUUID]);
      } else {
        list := OfList([]);
      }
      row := Some(list);
    }

    method CopyPermission(p: StoredPermission) returns (copy: PermissionCopy)
      requires Valid() && p in permissionList
      ensures copy.Whole() && fresh(copy.Arrays()) && copy.Read() == p.Value()
    {
      hide Valid;
      PermissionListsHold(p);
      copy := p.Copy();
    }

    method ListPermissions() returns (out: seq<PermissionCopy>)
      requires Valid()
      ensures AllPermissionsWhole(out) && fresh(PermissionArrays(out))
      ensures ReadPermissions(out) == Directory.ListPermissions(Snap())
    {
      hide Valid, Rooted, Backed, ReadPermissions, AllPermissionsWhole, UsersView, ByIDView, OrderView,
        CatalogOf, CountsView, PermissionsView;
      ghost var order := PermissionOrderView();
      out := [];
      NothingRead();
      for i := 0 to |permissionList|
        invariant AllPermissionsWhole(out) && fresh(PermissionArrays(out))
        invariant ReadPermissions(out) == LivePermissions(PermissionsView(), order[..i])
      {
        NextPermission(i);
        var copy := CopyPermission(permissionList[i]);
        ReadOnePermissionMore(out, copy);
        out := out + [copy];
      }
      assert order[..|order|] == order;
    }

    method GetPermission(uuid: string) returns (permission: Option<PermissionCopy>)
      requires Valid()
      ensures permission.Some? <==> uuid in Snap().permissions
      ensures permission.Some? ==> permission.value.Whole() && fresh(permission.value.Arrays())
      ensures permission.Some? ==> permission.value.Read() == Snap().permissions[uuid]
    {
      hide Rooted, Backed;
      LookupPermission(uuid);
      if uuid !in permissionIndex {
        return None;
      }
      PermissionListsHold(permissionIndex[uuid]);
      var copy := permissionIndex[uuid].Copy();
      permission := Some(copy);
    }

    // ----- Methods that write ------------------------------------------------------------

    method SetUserEnabled(id: int, enabled: bool) returns (user: Option<UserCopy>)
      requires Valid()
      modifies Repr
      ensures Valid() && Repr == old(Repr)
      ensures Snap() == Directory.SetUserEnabled(old(Snap()), id, enabled).0
      ensures user.Some? <==> Directory.SetUserEnabled(old(Snap()), id, enabled).1.Some?
      ensures user.Some? ==> user.value.Whole() && fresh(user.value.Arrays())
      ensures user.Some? ==> Some(user.value.Read()) == Directory.SetUserEnabled(old(Snap()), id, enabled).1
    {
      hide Owned, UsersIndexed, GroupsIndexed, PermissionsIndexed, UsersView, ByIDView, OrderView, CatalogOf,
        CountsView, PermissionsView, PermissionOrderView, Backed;
      LookupByID(id);
      if id !in usersByID {
        return None;
      }
      var u := usersByID[id];
      u.enabled := enabled;
      UserWritten(u);
      OthersUnwritten();
      UserListsHold(u);
      var copy := u.Copy();
      user := Some(copy);
    }

    method UpdateUser(id: int, name: string, permissions: int, email: string, enabled: Option<bool>)
      returns (user: Option<UserCopy>)
      requires Valid()
      modifies Repr
      ensures Valid() && Repr == old(Repr)
      ensures Snap() == Directory.UpdateUser(old(Snap()), id, name, permissions, email, enabled).0
      ensures user.Some? <==> Directory.UpdateUser(old(Snap()), id, name, permissions, email, enabled).1.Some?
      ensures user.Some? ==> user.value.Whole() && fresh(user.value.Arrays())
      ensures user.Some? ==>
        Some(user.value.Read()) == Directory.UpdateUser(old(Snap()), id, name, permissions, email, enabled).1
    {
      hide Owned, UsersIndexed, GroupsIndexed, PermissionsIndexed, UsersView, ByIDView, OrderView, CatalogOf,
        CountsView, PermissionsView, PermissionOrderView, Backed, Edited;
      LookupByID(id);
      if id !in usersByID {
        return None;
      }
      var u := usersByID[id];
      u.Edit(name, permissions, email, enabled);
      UserWritten(u);
      OthersUnwritten();
      UserListsHold(u);
      var copy := u.Copy();
      user := Some(copy);
    }

    /** Files a new user and enters it into the All Users group. */
    method FileUser(u: StoredUser)
      requires Valid() && u !in Repr && u.SlicesHold()
      requires u.Arrays() !! Repr
      modifies Repr
      ensures unchanged(u) && nextUserID == old(nextUserID) && u in userList && Sound()
      ensures fresh(Repr - old(Repr) - {u} - u.Arrays()) && old(Repr) <= Repr
      ensures Valid() <==> u.uuid !in old(Snap()).users && u.id !in old(Snap()).byID
      ensures Snap() == Directory.FileUser(old(Snap()), u.Value())
    {
      hide Sound, UsersIndexed, UsersView, ByIDView, OrderView, CatalogOf, CountsView, PermissionsView,
        PermissionOrderView, StoredUser.SlicesHold, MemberCounts;
      MemberRowHolds(ALL_USERS);
      SoundOwns();
      EnterUser(u);
      AppendMember(ALL_USERS, u.uuid);
      RecomputeGroupCounts();
    }

    method CreateUser(username: string, email: string, name: string, permissions: int) returns (user: UserCopy)
      requires Valid()
      modifies Repr
      ensures nextUserID == old(nextUserID) + 1 && fresh(Repr - old(Repr)) && old(Repr) <= Repr
      ensures user.Whole() && fresh(user.Arrays())
      ensures user.Read() == NewUser(nextUserID, username, email, name, permissions)
      ensures CanCreate(old(Snap())) <==> Valid()
      ensures Snap() == Directory.CreateUser(old(Snap()), username, email, name, permissions)
    {
      hide Sound, UsersIndexed, UsersView, ByIDView, OrderView, CatalogOf, CountsView, PermissionsView,
        PermissionOrderView, StoredUser.SlicesHold, FormatUuid, Directory.FileUser;
      SoundOwns();
      Count(nextUserID + 1);
      var u := new StoredUser(NewUser(nextUserID, username, email, name, permissions));
      FileUser(u);
      UserListsHold(u);
      user := u.Copy();
    }

    /** Go iterates the member map in any order; the outcome is the same for all of them. */
    method DropFromMemberRows(uuid: string)
      requires Sound()
      modifies Repr
      ensures Sound() && UsersIndexed() == old(UsersIndexed()) && Repr == old(Repr)
      ensures Snap() == old(Snap()).(members := DropFromRows(old(memberRows), uuid))
    {
      hide Sound, UsersIndexed, UsersView, ByIDView, OrderView, CatalogOf, CountsView, PermissionsView,
        PermissionOrderView, Without;
      SoundOwns();
      ghost var start := Snap();
      MembersKeyed();
      var pending := groupMembers.Keys;
      while pending != {}
        invariant Sound() && UsersIndexed() == old(UsersIndexed()) && Repr == old(Repr)
        invariant Snap() == start.(members := memberRows)
        invariant pending <= groupMembers.Keys && memberRows.Keys == old(memberRows).Keys
        invariant forall g :: g in memberRows ==>
            memberRows[g] == if g in pending then old(memberRows)[g] else Without(old(memberRows)[g], uuid)
      {
        var g :| g in pending;
        SoundOwns();
        MemberRowHolds(g);
        ShrinkMember(g, uuid);
        pending := pending - {g};
      }
      assert memberRows == DropFromRows(old(memberRows), uuid);
    }

    lemma DropKeepsRoles(uuid: string)
      requires RolesBacked(userRoles, roleRows, owner)
      ensures RolesBacked(userRoles - {uuid}, roleRows - {uuid}, owner)
    {}

    method DropEntries(u: StoredUser)
      modifies this`users, this`usersByID, this`userList, this`userRoles, this`roleRows
      ensures users == old(users) - {u.uuid} && usersByID == old(usersByID) - {u.id}
      ensures userRoles == old(userRoles) - {u.uuid} && roleRows == old(roleRows) - {u.uuid}
      ensures userList == WithoutUuid(old(userList), u.uuid)
    {
      users := users - {u.uuid};
      usersByID := usersByID - {u.id};
      userRoles, roleRows := userRoles - {u.uuid}, roleRows - {u.uuid};
      userList := WithoutUuid(userList, u.uuid);
    }

    method DropUser(u: StoredUser)
      requires UsersIndexed() && u in userList
      modifies this`users, this`usersByID, this`userList, this`userRoles, this`roleRows
      ensures UsersIndexed() && UsersView() == old(UsersView()) - {u.uuid} && ByIDView() == old(ByIDView()) - {u.id}
      ensures OrderView() == Without(old(OrderView()), u.uuid) && userList == WithoutUuid(old(userList), u.uuid)
      ensures userRoles == old(userRoles) - {u.uuid} && roleRows == old(roleRows) - {u.uuid}
    {
      hide SameObjects, UserValues, IdIndex, UuidList, Without, WithoutUuid;
      DropKeepsObjects(users, usersByID, userList, u);
      DropKeepsViews(users, usersByID, userList, u);
      DropEntries(u);
    }

    /** The deletions from the three indexes and from the role table. */
    method UnindexUser(u: StoredUser)
      requires Valid() && u in userList
      modifies this`users, this`usersByID, this`userList, this`userRoles, this`roleRows
      ensures Valid()
      ensures Snap() == old(Snap()).(
          users := old(Snap()).users - {u.uuid}, byID := old(Snap()).byID - {u.id},
          order := Without(old(Snap()).order, u.uuid), userRoles := old(Snap()).userRoles - {u.uuid})
    {
      hide Owned, UsersIndexed, GroupsIndexed, PermissionsIndexed, UsersView, ByIDView, OrderView, CatalogOf,
        CountsView, PermissionsView, PermissionOrderView, UsersBacked, MembersBacked, RolesBacked, PermissionsBacked,
        Without, WithoutUuid;
      DropKeepsOwned(Repr, userList, groupList, permissionList, u.uuid);
      DropKeepsRoles(u.uuid);
      ghost var list := userList;
      DropUser(u);
      DropKeepsBacked(list, owner, u.uuid);
    }

    method DeleteUser(id: int) returns (found: bool)
      requires Valid()
      modifies Repr
      ensures Valid() && Repr == old(Repr)
      ensures (Snap(), found) == Directory.DeleteUser(old(Snap()), id)
    {
      hide Sound, UsersIndexed, UsersView, ByIDView, OrderView, CatalogOf, CountsView, PermissionsView,
        PermissionOrderView, MemberCounts, DropFromRows;
      LookupByID(id);
      SoundOwns();
      if id !in usersByID {
        return false;
      }
      var u := usersByID[id];
      UnindexUser(u);
      DropFromMemberRows(u.uuid);
      SoundOwns();
      RecomputeGroupCounts();
      found := true;
    }

    /** Puts the user on the group's row and the group on the user's list, and recounts. */
    method Enroll(u: StoredUser, g: string)
      requires Valid() && u in userList
      modifies Repr
      ensures Valid() && fresh(Repr - old(Repr)) && old(Repr) <= Repr
      ensures var before, user := old(Snap()), old(u.Value());
        Snap() == Recount(PutUser(before, user.(
            groupUUIDs := if g in user.groupUUIDs then user.groupUUIDs else user.groupUUIDs + [g])).(
            members := before.members[g := Row(before.members, g) + [u.uuid]]))
    {
      hide Sound, UsersIndexed, UsersView, ByIDView, OrderView, CatalogOf, CountsView, PermissionsView,
        PermissionOrderView, MemberCounts;
      SoundOwns();
      MemberRowHolds(g);
      UserListsHold(u);
      AppendMember(g, u.uuid);
      EnterGroup(u, g);
      SoundOwns();
      RecomputeGroupCounts();
    }

    method AddGroupMember(groupID: int, userID: int) returns (already: bool, found: bool)
      requires Valid()
      modifies Repr
      ensures Valid() && fresh(Repr - old(Repr)) && old(Repr) <= Repr
      ensures (Snap(), already, found) == Directory.AddGroupMember(old(Snap()), groupID, userID)
    {
      hide Sound, UsersIndexed, UsersView, ByIDView, OrderView, CatalogOf, CountsView, PermissionsView,
        PermissionOrderView, MemberCounts;
      LookupByID(userID);
      LookupGroup(groupID);
      if groupID !in groupsByID || userID !in usersByID {
        return false, false;
      }
      var g, u := groupsByID[groupID].group.uuid, usersByID[userID];
      MemberRowHolds(g);
      if g in groupMembers && u.uuid in View(groupMembers[g]) {
        return true, true;
      }
      SoundOwns();
      Enroll(u, g);
      already, found := false, true;
    }

    /** Takes the user off the group's row and the group off the user's list, and recounts. */
    method Withdraw(u: StoredUser, g: string)
      requires Valid() && u in userList && g in groupMembers
      modifies Repr
      ensures Valid() && Repr == old(Repr)
      ensures var before, user := old(Snap()), old(u.Value());
        Snap() == Recount(PutUser(before, user.(groupUUIDs := Without(user.groupUUIDs, g))).(
            members := before.members[g := Without(before.members[g], u.uuid)]))
      ensures Fits(old(groupMembers)[g]) && View(old(groupMembers)[g]) == Compacted(old(memberRows)[g], u.uuid)
    {
      hide Sound, UsersIndexed, UsersView, ByIDView, OrderView, CatalogOf, CountsView, PermissionsView,
        PermissionOrderView, MemberCounts, Without, Compacted;
      SoundOwns();
      MemberRowHolds(g);
      UserListsHold(u);
      ShrinkMember(g, u.uuid);
      UserListsHold(u);
      ShrinkGroups(u, g);
      RecomputeGroupCounts();
    }

    method RemoveGroupMember(groupID: int, userID: int) returns (already: bool, found: bool)
      requires Valid()
      modifies Repr
      ensures Valid() && Repr == old(Repr)
      ensures (Snap(), already, found) == Directory.RemoveGroupMember(old(Snap()), groupID, userID)
      ensures found && old(groupsByID[groupID].group.uuid) in old(groupMembers) ==>
        var g, u := old(groupsByID[groupID].group.uuid), old(usersByID[userID].uuid);
        Fits(old(groupMembers)[g]) && View(old(groupMembers)[g]) == Compacted(old(memberRows)[g], u)
    {
      hide Sound, UsersIndexed, UsersView, ByIDView, OrderView, CatalogOf, CountsView, PermissionsView,
        PermissionOrderView, MemberCounts, Without, Compacted;
      LookupByID(userID);
      LookupGroup(groupID);
      if groupID !in groupsByID || userID !in usersByID {
        return false, false;
      }
      var g, u := groupsByID[groupID].group.uuid, usersByID[userID];
      MemberRowHolds(g);
      if g !in groupMembers {
        return true, true;
      }
      if u.uuid !in View(groupMembers[g]) {
        NothingCompacted(memberRows[g], u.uuid);
        return true, true;
      }
      SoundOwns();
      Withdraw(u, g);
      already, found := false, true;
    }

    /** The loop that appends one reference per role. */
    method RoleRefsOf(roleUUIDs: Slice<string>) returns (refs: Slice<RbacRole>)
      requires Fits(roleUUIDs) && forall r :: r in View(roleUUIDs) ==> r in roles
      ensures fresh(refs.backing) && Fits(refs) && View(refs) == RoleRefs(roles, View(roleUUIDs))
    {
      ghost var list := View(roleUUIDs);
      refs := OfList([]);
      for i := 0 to roleUUIDs.len
        invariant fresh(refs.backing) && Fits(refs) && View(refs) == RoleRefs(roles, list)[..i]
      {
        assert roleUUIDs.backing[i] == list[i];
        var r := roles[roleUUIDs.backing[i]];
        refs := Append(refs, RbacRole(r.uuid, r.name));
      }
    }

    method SetUserRoles(userUUID: string, roleUUIDs: Slice<string>) returns (ok: bool)
      requires Valid() && Fits(roleUUIDs)
      modifies Repr
      ensures Valid() && fresh(Repr - old(Repr)) && old(Repr) <= Repr
      ensures (Snap(), ok) == Directory.SetUserRoles(old(Snap()), userUUID, old(View(roleUUIDs)))
    {
      hide Sound, UsersIndexed, UsersView, ByIDView, OrderView, CountsView, PermissionsView, PermissionOrderView;
      LookupByUuid(userUUID);
      SoundOwns();
      if userUUID !in users {
        return false;
      }
      ghost var list := View(roleUUIDs);
      for i := 0 to roleUUIDs.len
        invariant forall j :: 0 <= j < i ==> list[j] in roles
      {
        if roleUUIDs.backing[i] !in roles {
          assert list[i] !in roles;
          return false;
        }
      }
      var u := users[userUUID];
      var row := Clone(roleUUIDs);
      StoreRoleRow(userUUID, row, list);
      var refs := RoleRefsOf(roleUUIDs);
      AssignRoles(u, refs, RoleRefs(roles, list));
      ok := true;
    }

    method PutPermission(p: StoredPermission, name: string, a: Slice<string>, o: Slice<Subject>, s: Slice<Subject>,
        ghost allowed: seq<string>, ghost scope: seq<Subject>, ghost holders: seq<Subject>,
        ghost places: map<object, Slot>)
      modifies p, this`owner, this`Repr
      ensures p.Value() == old(p.Value()).(name := name, actions := allowed, objects := scope, subjects := holders)
      ensures p.actions == a && p.objects == o && p.subjects == s
      ensures owner == places && Repr == old(Repr) + places.Keys
    {
      p.name, p.actions, p.objects, p.subjects := name, a, o, s;
      p.allowed, p.scope, p.holders := allowed, scope, holders;
      owner, Repr := places, Repr + places.Keys;
    }

    /** Once the three lists of a permission are written, every permission is backed. */
    twostate lemma PermissionStored(new p: StoredPermission, places: map<object, Slot>)
      requires old(PermissionsBacked(permissionList, places)) && permissionList == old(permissionList)
      requires forall x :: x in permissionList && x != p ==> unchanged(x)
      requires forall a :: a in places ==> unchanged(a)
      requires Holds(places, ActionsSlot(p), p.actions, p.allowed)
      requires Holds(places, ObjectsSlot(p), p.objects, p.scope)
      requires Holds(places, SubjectsSlot(p), p.subjects, p.holders)
      ensures PermissionsBacked(permissionList, places)
    {}

    method StorePermission(p: StoredPermission, name: string, a: Slice<string>, o: Slice<Subject>, s: Slice<Subject>,
        ghost allowed: seq<string>, ghost scope: seq<Subject>, ghost holders: seq<Subject>)
      requires Valid() && p in permissionList && Fits(a) && Fits(o) && Fits(s) && o.backing != s.backing
      requires a.backing !in Repr && o.backing !in Repr && s.backing !in Repr
      requires View(a) == allowed && View(o) == scope && View(s) == holders
      modifies p, this`owner, this`Repr
      ensures Valid() && Repr == old(Repr) + {a.backing as object, o.backing, s.backing}
      ensures Snap() == old(Snap()).(permissions := old(Snap()).permissions[p.uuid :=
          old(p.Value()).(name := name, actions := allowed, objects := scope, subjects := holders)])
    {
      hide Owned, UsersIndexed, GroupsIndexed, PermissionsIndexed, UsersView, ByIDView, OrderView, CatalogOf,
        CountsView, PermissionsView, PermissionOrderView, UsersBacked, MembersBacked, RolesBacked, PermissionsBacked,
        Extends, WithPermission, Holds;
      ghost var places := WithPermission(owner, p, a, o, s);
      NewPermissionArrays(owner, p, a, o, s);
      ExtendKeepsAll(places);
      OwnedGrows(Repr, Repr + places.Keys, userList, groupList, permissionList);
      PutPermission(p, name, a, o, s, allowed, scope, holders, places);
      PermissionStored(p, places);
      PermissionWritten(p);
    }

    /** The name and clones of the three lists. */
    method ReplacePermission(p: StoredPermission, name: string, actions: Slice<string>, objects: Slice<Subject>,
        subjects: Slice<Subject>)
      requires Valid() && p in permissionList && Fits(actions) && Fits(objects) && Fits(subjects)
      modifies p, this`owner, this`Repr
      ensures Valid() && fresh(Repr - old(Repr)) && old(Repr) <= Repr
      ensures Snap() == old(Snap()).(permissions := old(Snap()).permissions[p.uuid := old(p.Value()).(name := name,
          actions := old(View(actions)), objects := old(View(objects)), subjects := old(View(subjects)))])
    {
      hide Valid, Snap;
      var a := Clone(actions);
      var o := Clone(objects);
      var s := Clone(subjects);
      StorePermission(p, name, a, o, s, View(actions), View(objects), View(subjects));
    }

    method UpdatePermission(uuid: string, name: string, actions: Slice<string>, objects: Slice<Subject>,
        subjects: Slice<Subject>)
      returns (permission: Option<PermissionCopy>)
      requires Valid() && Fits(actions) && Fits(objects) && Fits(subjects)
      modifies Repr
      ensures Valid() && fresh(Repr - old(Repr)) && old(Repr) <= Repr
      ensures (Snap(), permission.Some?) == Directory.UpdatePermission(old(Snap()), uuid, name,
          old(View(actions)), old(View(objects)), old(View(subjects)))
      ensures permission.Some? ==> permission.value.Whole() && fresh(permission.value.Arrays())
      ensures permission.Some? ==>
        uuid in Snap().permissions && permission.value.Read() == Snap().permissions[uuid]
    {
      hide Sound, UsersIndexed, Snap, StoredPermission.SlicesHold;
      LookupPermission(uuid);
      if uuid !in permissionIndex {
        return None;
      }
      var p := permissionIndex[uuid];
      SoundOwns();
      PermissionListsHold(p);
      ReplacePermission(p, name, actions, objects, subjects);
      PermissionListsHold(p);
      LookupPermission(uuid);
      var copy := p.Copy();
      permission := Some(copy);
    }
  }

  lemma {:induction false} LiveUsersStep(users: map<string, User>, uuids: seq<string>, last: string)
    ensures LiveUsers(users, uuids + [last]) == LiveUsers(users, uuids) + (if last in users then [users[last]] else [])
  {
    if uuids != [] {
      assert (uuids + [last])[1..] == uuids[1..] + [last];
      LiveUsersStep(users, uuids[1..], last);
    }
  }

  lemma {:induction false} LivePermissionsStep(permissions: map<string, Permission>, uuids: seq<string>, last: string)
    ensures LivePermissions(permissions, uuids + [last])
         == LivePermissions(permissions, uuids) + (if last in permissions then [permissions[last]] else [])
  {
    if uuids != [] {
      assert (uuids + [last])[1..] == uuids[1..] + [last];
      LivePermissionsStep(permissions, uuids[1..], last);
    }
  }
}
