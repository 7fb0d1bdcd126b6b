/** Whole runs of the test server: any sequence of requests, from any client. */
module ServerRuns {
  import opened Sequences
  import opened Uuids
  import opened Directory
  import opened Invariants

  function Run(s: Snapshot, requests: seq<Request>): Snapshot
    decreases |requests|
  {
    if requests == [] then s else Run(Handle(s, requests[0]).0, requests[1..])
  }

  lemma HandleFrame(s: Snapshot, request: Request)
    ensures Handle(s, request).0.catalog == s.catalog
    ensures Handle(s, request).0.nextUserID == s.nextUserID + (if Creates(request) then 1 else 0)
  {}

  /** Whether the request is a well-formed user creation. */
  predicate Creates(request: Request)
  {
    request.CreateUserRequest? && request.username != "" && request.password != ""
  }

  lemma {:induction false} RunFrame(s: Snapshot, requests: seq<Request>)
    ensures Run(s, requests).catalog == s.catalog
    ensures s.nextUserID <= Run(s, requests).nextUserID
    decreases |requests|
  {
    if requests != [] {
      HandleFrame(s, requests[0]);
      RunFrame(Handle(s, requests[0]).0, requests[1..]);
    }
  }

  /** In every reachable state all redundant copies agree, as long as the counter is below 16^12. */
  lemma {:induction false} RunKeepsInv(s: Snapshot, requests: seq<Request>)
    requires Inv(s) && Run(s, requests).nextUserID < CAPACITY
    ensures Inv(Run(s, requests))
    decreases |requests|
  {
    hide Inv, Handle;
    if requests != [] {
      RunFrame(Handle(s, requests[0]).0, requests[1..]);
      HandleKeepsInv(s, requests[0]);
      RunKeepsInv(Handle(s, requests[0]).0, requests[1..]);
    }
  }

  // ----- Identity -------------------------------------------------------------------------

  /** The user IDs handed out during a run, in order. */
  function IssuedIds(s: Snapshot, requests: seq<Request>): seq<nat>
    decreases |requests|
  {
    if requests == [] then []
    else (if Creates(requests[0]) then [s.nextUserID + 1] else []) + IssuedIds(Handle(s, requests[0]).0, requests[1..])
  }

  /** A run hands out consecutive IDs, so none twice and none that was handed out before it. */
  lemma {:induction false} IssuedIdsAreConsecutive(s: Snapshot, requests: seq<Request>)
    ensures |IssuedIds(s, requests)| == Run(s, requests).nextUserID - s.nextUserID
    ensures forall i :: 0 <= i < |IssuedIds(s, requests)| ==> IssuedIds(s, requests)[i] == s.nextUserID + 1 + i
    decreases |requests|
  {
    if requests != [] {
      HandleFrame(s, requests[0]);
      IssuedIdsAreConsecutive(Handle(s, requests[0]).0, requests[1..]);
    }
  }

  function IssuedUuids(s: Snapshot, requests: seq<Request>): (uuids: seq<string>)
    ensures |uuids| == |IssuedIds(s, requests)|
  {
    var ids := IssuedIds(s, requests);
    seq(|ids|, i requires 0 <= i < |ids| => FormatUuid(ids[i]))
  }

  lemma UuidsOfRun(s: Snapshot, requests: seq<Request>)
    ensures |IssuedUuids(s, requests)| == |IssuedIds(s, requests)|
    ensures forall i :: 0 <= i < |IssuedUuids(s, requests)| ==>
        IssuedUuids(s, requests)[i] == FormatUuid(s.nextUserID + 1 + i)
  {
    hide FormatUuid;
    IssuedIdsAreConsecutive(s, requests);
  }

  /** A run hands out some UUID twice exactly when it creates more than 16^12 users. */
  lemma IssuedUuidsDistinct(s: Snapshot, requests: seq<Request>)
    ensures NoDuplicates(IssuedUuids(s, requests)) <==> |IssuedIds(s, requests)| <= CAPACITY
  {
    hide IssuedIds, IssuedUuids, FormatUuid, HexFixed;
    UuidsOfRun(s, requests);
    var uuids := IssuedUuids(s, requests);
    var first := s.nextUserID + 1;
    if |uuids| <= CAPACITY {
      forall i, j | 0 <= i < j < |uuids|
        ensures uuids[i] != uuids[j]
      {
        FormatUuidCollision(first + i, first + j);
        CloseNumbersDiffer(first + i, first + j, CAPACITY);
      }
    } else {
      FormatUuidCollision(first, first + CAPACITY);
      assert uuids[0] == FormatUuid(first) && uuids[CAPACITY] == FormatUuid(first + CAPACITY);
    }
  }

  lemma CloseNumbersDiffer(a: nat, b: nat, m: nat)
    requires 0 < b - a < m
    ensures a % m != b % m
  {
    if a % m == b % m {
      assert b - a == m * (b / m) - m * (a / m);
      if b / m > a / m {
        ProductGap(m, b / m, a / m);
      } else if b / m < a / m {
        ProductGap(m, a / m, b / m);
      }
      assert false;
    }
  }

  /** No UUID handed out during a run belongs to a user, living at its start, nor to a group. */
  lemma IssuedUuidsAreNew(s: Snapshot, requests: seq<Request>)
    requires Inv(s) && Run(s, requests).nextUserID < CAPACITY
    ensures forall uuid :: uuid in IssuedUuids(s, requests) ==> uuid !in s.users && uuid !in GroupUuids(s.catalog)
  {
    IssuedIdsAreConsecutive(s, requests);
    var ids := IssuedIds(s, requests);
    forall i | 0 <= i < |ids|
      ensures FormatUuid(ids[i]) !in s.users && FormatUuid(ids[i]) !in GroupUuids(s.catalog)
    {
      LaterUuidIsFresh(s.users, s.nextUserID, GroupUuids(s.catalog), ids[i]);
      CreatedUuidIsNoGroup(s.catalog, ids[i]);
    }
  }

  lemma LaterUuidIsFresh(users: map<string, User>, next: nat, groups: set<string>, n: nat)
    requires IdsIssued(users, next, groups) && next < n < CAPACITY
    ensures FormatUuid(n) !in users
  {
    var uuid := FormatUuid(n);
    if uuid in users {
      assert Issued(uuid, users[uuid].id, next);
      FormatUuidCollision(n, users[uuid].id);
      assert false;
    }
  }

  // ----- The two-call membership guard ----------------------------------------------------

  /** The membership handlers read membership_fixed in one call and write in the next. Whatever
      other requests run in between, the answer read first is still right at the write, so the pair
      acts like one atomic guarded write. */
  lemma MembershipGuardIsStable(s: Snapshot, between: seq<Request>, groupID: int, userID: int)
    ensures MembershipFixed(s, groupID) <==> MembershipFixed(Run(s, between), groupID)
    ensures !MembershipFixed(s, groupID) ==>
      && AddGroupMember(Run(s, between), groupID, userID).0 ==
          Handle(Run(s, between), AddMemberRequest(groupID, userID)).0
      && RemoveGroupMember(Run(s, between), groupID, userID).0 ==
          Handle(Run(s, between), RemoveMemberRequest(groupID, userID)).0
    ensures MembershipFixed(s, groupID) ==>
      && Handle(Run(s, between), AddMemberRequest(groupID, userID)).0 == Run(s, between)
      && Handle(Run(s, between), RemoveMemberRequest(groupID, userID)).0 == Run(s, between)
  {
    RunFrame(s, between);
  }

  /** In every reachable state the All Users group lists exactly the live users, each once. */
  lemma AllUsersIsEveryone(s: Snapshot, requests: seq<Request>)
    requires Inv(s) && Run(s, requests).nextUserID < CAPACITY
    ensures var s' := Run(s, requests);
            && NoDuplicates(Row(s'.members, ALL_USERS))
            && forall u :: u in Row(s'.members, ALL_USERS) <==> u in s'.users
  {
    RunKeepsInv(s, requests);
  }

  // ----- Deletion -------------------------------------------------------------------------

  lemma {:induction false} WithoutKeepsOrder(before: seq<string>, x: string, after: seq<string>)
    requires x !in before && x !in after
    ensures Without(before + [x] + after, x) == before + after
  {
    WithoutConcat(before + [x], after, x);
    WithoutConcat(before, [x], x);
    WithoutAbsent(before, x);
    WithoutAbsent(after, x);
    assert Without([x], x) == [];
  }

  lemma OrderWithoutOne(order: seq<string>, x: string)
    requires NoDuplicates(order) && x in order
    ensures exists before, after :: order == before + [x] + after && Without(order, x) == before + after
  {
    var i :| 0 <= i < |order| && order[i] == x;
    assert order == order[..i] + [x] + order[i + 1..];
    WithoutKeepsOrder(order[..i], x, order[i + 1..]);
  }

  /** Deleting a user removes it from every index, role row and member list. */
  lemma DeleteUserForgets(s: Snapshot, id: int)
    requires Inv(s) && UserByID(s, id).Some?
    ensures var uuid := UserByID(s, id).value.uuid;
            var s' := DeleteUser(s, id).0;
            && uuid !in s'.users && id !in s'.byID && uuid !in s'.order && uuid !in s'.userRoles
            && (forall g :: uuid !in Row(s'.members, g))
  {
    UserByIDFound(s, id);
    hide Inv;
    var uuid := UserByID(s, id).value.uuid;
    var s' := DeleteUser(s, id).0;
    WithoutMembers(s.order, uuid);
    forall g
      ensures uuid !in Row(s'.members, g)
    {
      WithoutMembers(Row(s.members, g), uuid);
    }
  }

  /** Deleting a user leaves every other user, its roles and its memberships as they were. */
  lemma DeleteUserKeepsOthers(s: Snapshot, id: int, other: string)
    requires Inv(s) && UserByID(s, id).Some? && other != UserByID(s, id).value.uuid
    ensures var s' := DeleteUser(s, id).0;
            && (other in s'.users <==> other in s.users)
            && (other in s.users ==> s'.users[other] == s.users[other])
            && Row(s'.userRoles, other) == Row(s.userRoles, other)
            && (forall g :: other in Row(s'.members, g) <==> other in Row(s.members, g))
  {
    hide Inv;
    var uuid := UserByID(s, id).value.uuid;
    var s' := DeleteUser(s, id).0;
    forall g
      ensures other in Row(s'.members, g) <==> other in Row(s.members, g)
    {
      WithoutMembers(Row(s.members, g), uuid);
    }
  }

  /** Deleting a user keeps the relative order of the others. */
  lemma DeleteUserKeepsOrder(s: Snapshot, id: int)
    requires Inv(s) && UserByID(s, id).Some?
    ensures exists before, after ::
              && s.order == before + [UserByID(s, id).value.uuid] + after
              && DeleteUser(s, id).0.order == before + after
  {
    UserByIDFound(s, id);
    OrderHasUser(s.users, s.byID, s.order, UserByID(s, id).value.uuid);
    hide Inv, IndexesAgree;
    OrderWithoutOne(s.order, UserByID(s, id).value.uuid);
  }

  lemma OrderHasUser(users: map<string, User>, byID: map<int, string>, order: seq<string>, uuid: string)
    requires IndexesAgree(users, byID, order) && uuid in users
    ensures NoDuplicates(order) && uuid in order
  {}

  // ----- Counting memberships -------------------------------------------------------------

  function SumCounts(counts: map<string, int>, groups: seq<string>): int
  {
    if groups == [] then 0
    else (if groups[0] in counts then counts[groups[0]] else 0) + SumCounts(counts, groups[1..])
  }

  function GroupOrder(groups: seq<Group>): (uuids: seq<string>)
    ensures |uuids| == |groups|
  {
    seq(|groups|, i requires 0 <= i < |groups| => groups[i].uuid)
  }

  function SumMemberships(users: map<string, User>, order: seq<string>): int
  {
    if order == [] then 0
    else (if order[0] in users then |users[order[0]].groupUUIDs| else 0) + SumMemberships(users, order[1..])
  }

  /** The abstract content of the membership tables. */
  ghost function Edges(members: map<string, seq<string>>): set<(string, string)>
  {
    set g, u | g in members && u in members[g] :: (g, u)
  }

  lemma PairsOfRow(g: string, row: seq<string>, pairs: set<(string, string)>)
    requires NoDuplicates(row)
    requires forall p :: p in pairs <==> p.0 == g && p.1 in row
    ensures |pairs| == |row|
    decreases |row|
  {
    if row == [] {
      assert pairs == {};
    } else {
      NoDuplicatesTail(row);
      assert row == [row[0]] + row[1..];
      assert (g, row[0]) in pairs;
      PairsOfRow(g, row[1..], pairs - {(g, row[0])});
    }
  }

  lemma PairsOfColumn(u: string, column: seq<string>, pairs: set<(string, string)>)
    requires NoDuplicates(column)
    requires forall p :: p in pairs <==> p.1 == u && p.0 in column
    ensures |pairs| == |column|
    decreases |column|
  {
    if column == [] {
      assert pairs == {};
    } else {
      NoDuplicatesTail(column);
      assert column == [column[0]] + column[1..];
      assert (column[0], u) in pairs;
      PairsOfColumn(u, column[1..], pairs - {(column[0], u)});
    }
  }

  lemma {:induction false} EdgesByGroup(counts: map<string, int>, members: map<string, seq<string>>,
                                        groups: seq<string>, edges: set<(string, string)>)
    requires NoDuplicates(groups)
    requires forall g :: g in groups ==> g in counts && counts[g] == |Row(members, g)| && NoDuplicates(Row(members, g))
    requires forall e :: e in edges <==> e.0 in groups && e.1 in Row(members, e.0)
    ensures SumCounts(counts, groups) == |edges|
    decreases |groups|
  {
    if groups == [] {
      assert edges == {};
    } else {
      var g := groups[0];
      NoDuplicatesTail(groups);
      assert groups == [g] + groups[1..];
      var row := set e | e in edges && e.0 == g;
      var rest := edges - row;
      assert edges == row + rest;
      PairsOfRow(g, Row(members, g), row);
      EdgesByGroup(counts, members, groups[1..], rest);
    }
  }

  lemma {:induction false} EdgesByUser(users: map<string, User>, order: seq<string>, edges: set<(string, string)>)
    requires NoDuplicates(order)
    requires forall u :: u in order ==> u in users && NoDuplicates(users[u].groupUUIDs)
    requires forall e :: e in edges <==> e.1 in order && e.0 in users[e.1].groupUUIDs
    ensures SumMemberships(users, order) == |edges|
    decreases |order|
  {
    if order == [] {
      assert edges == {};
    } else {
      var u := order[0];
      NoDuplicatesTail(order);
      assert order == [u] + order[1..];
      var column := set e | e in edges && e.1 == u;
      var rest := edges - column;
      assert edges == column + rest;
      PairsOfColumn(u, users[u].groupUUIDs, column);
      EdgesByUser(users, order[1..], rest);
    }
  }

  lemma GroupOrderDistinct(c: Catalog)
    requires CatalogOk(c)
    ensures NoDuplicates(GroupOrder(c.groupList))
    ensures forall g :: g in GroupOrder(c.groupList) <==> g in GroupUuids(c)
  {
    var uuids := GroupOrder(c.groupList);
    forall i, j | 0 <= i < j < |uuids|
      ensures uuids[i] != uuids[j]
    {
      assert c.groupList[i] in c.groupList && c.groupList[j] in c.groupList;
    }
    forall g | g in GroupUuids(c)
      ensures g in uuids
    {
      var i :| 0 <= i < |c.groupList| && c.groupList[i].uuid == g;
      assert uuids[i] == g;
    }
  }

  /** The member counts over all groups add up to the membership lists over all users. */
  lemma CountsAddUp(s: Snapshot)
    requires Inv(s)
    ensures SumCounts(s.counts, GroupOrder(s.catalog.groupList)) == SumMemberships(s.users, s.order) ==
        |Edges(s.members)|
  {
    var groups := GroupOrder(s.catalog.groupList);
    GroupOrderDistinct(s.catalog);
    RowsBelongToGroups(GroupUuids(s.catalog), s.users, s.members);
    EdgesFromUsers(GroupUuids(s.catalog), s.users, s.order, s.byID, s.members);
    assert s.counts == MemberCounts(s.catalog, s.members);
    hide Inv, CatalogOk, MembersAgree, IndexesAgree, GroupOrder, GroupUuids;
    EdgesByGroup(s.counts, s.members, groups, Edges(s.members));
  }

  lemma RowsBelongToGroups(groups: set<string>, users: map<string, User>, members: map<string, seq<string>>)
    requires MembersAgree(groups, users, members)
    ensures forall e :: e in Edges(members) <==> e.0 in groups && e.1 in Row(members, e.0)
    ensures forall g :: NoDuplicates(Row(members, g))
  {}

  lemma EdgesFromUsers(groups: set<string>, users: map<string, User>, order: seq<string>, byID: map<int, string>,
                       members: map<string, seq<string>>)
    requires MembersAgree(groups, users, members) && IndexesAgree(users, byID, order)
    ensures SumMemberships(users, order) == |Edges(members)|
  {
    EdgesByUser(users, order, Edges(members));
  }

  /** UserCount is the number of users that the group's member listing returns. */
  lemma CountIsListedMembers(s: Snapshot, groupID: int)
    requires Inv(s) && GroupByID(s, groupID).Some?
    ensures var g := GroupByID(s, groupID).value;
            g.uuid in s.counts && s.counts[g.uuid] == |ListGroupMembers(s, groupID).value|
  {
    GroupByIDFound(s, groupID);
    var g := GroupByID(s, groupID).value.uuid;
    MembersAreLive(GroupUuids(s.catalog), s.users, s.members, g);
    hide Inv, CatalogOk, MembersAgree, GroupUuids;
    LiveUsersAll(s.users, Row(s.members, g));
  }

  /** UserCount is the number of users whose own list names the group. */
  lemma CountIsCardinality(s: Snapshot, g: string)
    requires Inv(s) && g in GroupUuids(s.catalog)
    ensures g in s.counts && s.counts[g] == |set u | u in s.users && g in s.users[u].groupUUIDs|
  {
    RowIsItsUsers(GroupUuids(s.catalog), s.users, s.members, g);
  }

  lemma RowIsItsUsers(groups: set<string>, users: map<string, User>, members: map<string, seq<string>>, g: string)
    requires MembersAgree(groups, users, members)
    ensures |Row(members, g)| == |set u | u in users && g in users[u].groupUUIDs|
  {
    NoDuplicatesLength(Row(members, g), set u | u in users && g in users[u].groupUUIDs);
  }

  lemma MembersAreLive(groups: set<string>, users: map<string, User>, members: map<string, seq<string>>, g: string)
    requires MembersAgree(groups, users, members)
    ensures forall u :: u in Row(members, g) ==> u in users
  {}

  lemma {:induction false} LiveUsersAll(users: map<string, User>, uuids: seq<string>)
    requires forall u :: u in uuids ==> u in users
    ensures |LiveUsers(users, uuids)| == |uuids|
    ensures forall i :: 0 <= i < |uuids| ==> LiveUsers(users, uuids)[i] == users[uuids[i]]
  {
    if uuids != [] {
      assert uuids == [uuids[0]] + uuids[1..];
      assert uuids[0] in uuids;
      LiveUsersAll(users, uuids[1..]);
    }
  }

  // ----- What each membership write means -------------------------------------------------

  /** Adding and removing a member changes exactly one edge of the abstract membership relation. */
  lemma MembershipWritesAreEdgeWrites(s: Snapshot, groupID: int, userID: int)
    requires Inv(s)
    requires GroupByID(s, groupID).Some? && UserByID(s, userID).Some?
    ensures var edge := (GroupByID(s, groupID).value.uuid, UserByID(s, userID).value.uuid);
            && Edges(AddGroupMember(s, groupID, userID).0.members) == Edges(s.members) + {edge}
            && Edges(RemoveGroupMember(s, groupID, userID).0.members) == Edges(s.members) - {edge}
  {
    hide Inv;
    var g, u := GroupByID(s, groupID).value.uuid, UserByID(s, userID).value.uuid;
    WithoutMembers(Row(s.members, g), u);
    var added := AddGroupMember(s, groupID, userID).0.members;
    var removed := RemoveGroupMember(s, groupID, userID).0.members;
    assert forall e :: e in Edges(added) <==> e in Edges(s.members) || e == (g, u);
    assert forall e :: e in Edges(removed) <==> e in Edges(s.members) && e != (g, u);
  }

  // ----- Roles ----------------------------------------------------------------------------

  /** The role list kept on a user and the edge table agree entry by entry, and every entry is an
      existing role under that role's own name. */
  lemma RoleCopiesAgree(s: Snapshot, k: string, i: nat)
    requires Inv(s) && k in s.users && i < |s.users[k].rbacRoles|
    ensures |Row(s.userRoles, k)| == |s.users[k].rbacRoles|
    ensures var r := s.users[k].rbacRoles[i];
      r.uuid == Row(s.userRoles, k)[i] && r.uuid in s.catalog.roles && s.catalog.roles[r.uuid].name == r.name
  {
    hide CatalogOk, IndexesAgree, IdsIssued, MembersAgree, AllUsersComplete, PermissionsIndexed;
    var refs := s.users[k].rbacRoles;
    assert RefsAgree(s.catalog.roles, refs, Row(s.userRoles, k));
    assert RoleUuids(refs)[i] == refs[i].uuid && refs[i] in refs;
  }

  /** A role assignment is all or nothing: it succeeds exactly when the user and every named role
      exist, then both copies hold the given list, and otherwise nothing at all changes. */
  lemma SetRolesAllOrNothing(s: Snapshot, k: string, roles: seq<string>)
    requires Inv(s)
    ensures var (s', ok) := SetUserRoles(s, k, roles);
      && (ok <==> k in s.users && forall r :: r in roles ==> r in s.catalog.roles)
      && (!ok ==> s' == s)
      && (ok ==> Row(s'.userRoles, k) == roles && RoleUuids(s'.users[k].rbacRoles) == roles)
      && (forall j :: j != k ==> Row(s'.userRoles, j) == Row(s.userRoles, j))
  {
    hide IndexesAgree, IdsIssued, MembersAgree, RolesAgree, AllUsersComplete, PermissionsIndexed, Canonical;
    if k in s.users && forall r :: r in roles ==> r in s.catalog.roles {
      assert RoleUuids(RoleRefs(s.catalog.roles, roles)) == roles;
    }
  }
}
