/** What permission operations do to the permission they rewrite: its subjects, modulo the wire's
    normalisation of UUIDs, and everything the full-body PUT carries along. */
module Subjects {
  import opened Wrappers
  import opened Text
  import opened Uuids
  import opened Directory
  import opened Invariants
  import opened Wire
  import opened Protocol
  import opened Reading
  import opened Meaning
  import opened Linearisation
  import opened Commutation
  import opened Repetition
  import opened Retry

  // ----- Normalisation --------------------------------------------------------------------

  /** An entry as it is after one trip to the client and back: an absent UUID becomes the nil UUID
      and any other spelling the canonical one. */
  function Normal(x: Subject): Subject
  {
    if x.uuid == "" then x.(uuid := ALL_USERS)
    else if Parse(x.uuid).Some? then x.(uuid := Render(Parse(x.uuid).value))
    else x
  }

  lemma NilRenders()
    ensures Render(NIL) == ALL_USERS
  {
    AllUsersIsNil();
  }

  lemma {:induction false} RoundTripNormalises(xs: seq<Subject>)
    requires DecodeAll(xs, DecodeObject).Some?
    ensures var back := EncodeObjects(DecodeAll(xs, DecodeObject).value);
      |back| == |xs| && forall i :: 0 <= i < |xs| ==> back[i] == Normal(xs[i])
  {
    hide Parse, Render, ALL_USERS, DecodeAll;
    NilRenders();
    var ys := DecodeAll(xs, DecodeObject).value;
    forall i | 0 <= i < |xs|
      ensures EncodeObjects(ys)[i] == Normal(xs[i])
    {
      assert DecodeObject(xs[i]) == Some(ys[i]);
    }
  }

  /** The normal form is a fixed point, and canonical entries are normal already. */
  lemma NormalForm(x: Subject)
    ensures Normal(Normal(x)) == Normal(x)
    ensures Canonical(x.uuid) ==> Normal(x) == x
    ensures Normal(x) == x <==> Canonical(x.uuid) || (x.uuid != "" && Parse(x.uuid).None?)
  {
    hide Parse, Render, Canonical, ALL_USERS;
    AllUsersIsNil();
    RenderOfParse(x.uuid);
    RenderOfParse(Normal(x).uuid);
    EmptyIsNotCanonical();
    if Parse(x.uuid).Some? { RenderIsCanonical(Parse(x.uuid).value); }
  }

  lemma EmptyIsNotCanonical()
    ensures !Canonical("") && Parse("").None? && ALL_USERS != ""
  {}

  function NormalAll(xs: seq<Subject>): (r: seq<Subject>)
    ensures |r| == |xs|
  {
    seq(|xs|, i requires 0 <= i < |xs| => Normal(xs[i]))
  }

  lemma RoundTripIsNormalAll(xs: seq<Subject>)
    requires DecodeAll(xs, DecodeObject).Some?
    ensures EncodeObjects(DecodeAll(xs, DecodeObject).value) == NormalAll(xs)
  {
    hide Normal, DecodeAll, EncodeObject;
    RoundTripNormalises(xs);
  }

  /** A list that decodes is its own normal form exactly when every UUID is spelled canonically. */
  lemma CanonicalIsNormal(xs: seq<Subject>)
    requires DecodeAll(xs, DecodeObject).Some?
    ensures NormalAll(xs) == xs <==> forall x :: x in xs ==> Canonical(x.uuid)
  {
    hide Normal, Canonical, Parse, Render;
    forall i | 0 <= i < |xs|
      ensures Normal(xs[i]) == xs[i] <==> Canonical(xs[i].uuid)
    {
      assert DecodeObject(xs[i]).Some?;
      NormalForm(xs[i]);
    }
    if NormalAll(xs) == xs {
      forall x | x in xs
        ensures Canonical(x.uuid)
      {
        var i :| 0 <= i < |xs| && xs[i] == x;
        assert NormalAll(xs)[i] == Normal(xs[i]);
      }
    }
  }

  /** An object after a PUT: normal, and with the first colon of a Tag's name made a comma. */
  function Retagged(o: Subject): Subject
  {
    if o.typ == "Tag" then Normal(o).(name := ReplaceFirst(o.name, ':', ',')) else Normal(o)
  }

  function RetaggedAll(xs: seq<Subject>): (r: seq<Subject>)
    ensures |r| == |xs|
  {
    seq(|xs|, i requires 0 <= i < |xs| => Retagged(xs[i]))
  }

  lemma RetagEncodes(o: TenableObject, x: Subject)
    requires EncodeObject(o) == Normal(x)
    ensures EncodeObject(RewriteTag(o)) == Retagged(x)
  {
    hide Parse, Render, ReplaceFirst;
  }

  lemma ObjectsRetagged(xs: seq<Subject>)
    requires DecodeAll(xs, DecodeObject).Some?
    ensures EncodeObjects(RewriteTags(DecodeAll(xs, DecodeObject).value)) == RetaggedAll(xs)
  {
    hide Normal, Retagged, DecodeAll, EncodeObject, RewriteTag;
    var ys := DecodeAll(xs, DecodeObject).value;
    RoundTripNormalises(xs);
    forall i | 0 <= i < |xs|
      ensures EncodeObjects(RewriteTags(ys))[i] == Retagged(xs[i])
    {
      assert EncodeObjects(ys)[i] == EncodeObject(ys[i]);
      RetagEncodes(ys[i], xs[i]);
    }
  }

  // ----- Subject lists on the server ------------------------------------------------------

  /** The list without the entries of one UUID, the others in their order. */
  function WithoutSubject(xs: seq<Subject>, uuid: string): seq<Subject>
  {
    if xs == [] then []
    else if xs[0].uuid == uuid then WithoutSubject(xs[1..], uuid)
    else [xs[0]] + WithoutSubject(xs[1..], uuid)
  }

  lemma {:induction false} WithoutSubjectMembers(xs: seq<Subject>, uuid: string)
    ensures forall x :: x in WithoutSubject(xs, uuid) <==> x in xs && x.uuid != uuid
    ensures (forall x :: x in xs ==> x.uuid != uuid) ==> WithoutSubject(xs, uuid) == xs
  {
    if xs != [] {
      WithoutSubjectMembers(xs[1..], uuid);
      assert xs == [xs[0]] + xs[1..];
    }
  }

  lemma {:induction false} WithoutSubjectConcat(xs: seq<Subject>, ys: seq<Subject>, uuid: string)
    ensures WithoutSubject(xs + ys, uuid) == WithoutSubject(xs, uuid) + WithoutSubject(ys, uuid)
  {
    if xs == [] {
      assert xs + ys == ys;
    } else {
      WithoutSubjectConcat(xs[1..], ys, uuid);
      assert (xs + ys)[0] == xs[0] && (xs + ys)[1..] == xs[1..] + ys;
      var rest, last := WithoutSubject(xs[1..], uuid), WithoutSubject(ys, uuid);
      assert [xs[0]] + (rest + last) == ([xs[0]] + rest) + last;
    }
  }

  lemma {:induction false} DropEncodes(os: seq<TenableObject>, uuid: Uuid)
    ensures EncodeObjects(DropSubject(os, uuid)) == WithoutSubject(EncodeObjects(os), Render(uuid))
  {
    hide Render;
    var encoded := EncodeObjects(os);
    if os != [] {
      DropEncodes(os[1..], uuid);
      assert encoded[1..] == EncodeObjects(os[1..]);
      if os[0].uuid != uuid {
        if Render(os[0].uuid) == Render(uuid) { RenderInjective(os[0].uuid, uuid); }
        var kept := DropSubject(os[1..], uuid);
        assert EncodeObjects([os[0]] + kept) == [EncodeObject(os[0])] + EncodeObjects(kept);
      }
    }
  }

  lemma AppendEncodes(os: seq<TenableObject>, o: TenableObject)
    ensures EncodeObjects(os + [o]) == EncodeObjects(os) + [EncodeObject(o)]
  {
    hide EncodeObject;
  }

  // ----- One operation --------------------------------------------------------------------

  /** The user is a subject of the permission, in any spelling of its UUID. */
  predicate IsSubject(p: Permission, uuid: string)
  {
    exists i :: 0 <= i < |p.subjects| && Normal(p.subjects[i]).uuid == uuid
  }

  lemma HasPermissionMeans(s: Snapshot, user: string, permission: string)
    requires UserOf(s, user).Some? && SubjectsOf(s, permission).Some?
    ensures HasPermission(s, user, permission) <==> IsSubject(s.permissions[permission], UserOf(s, user).value.uuid)
  {
    hide UserOf, Normal, Parse, Render, DecodeAll;
    var p := s.permissions[permission];
    var os := DecodeAll(p.subjects, DecodeObject).value;
    RoundTripNormalises(p.subjects);
    assert forall i :: 0 <= i < |os| ==> EncodeObjects(os)[i] == EncodeObject(os[i]);
  }

  /** The stored permission after an applied grant or revoke. */
  function Rewritten(op: Op, p: Permission, u: User): Permission
    requires ForPermission(op)
  {
    p.(objects := RetaggedAll(p.objects),
       subjects := if op.PermissionGrant? then NormalAll(p.subjects) + [Subject("User", u.uuid, u.name)]
                   else WithoutSubject(NormalAll(p.subjects), u.uuid))
  }

  /** What a permission operation answers: the principal has to be a user, and the permission and the user to
      exist; then it depends on whether the user is a subject. One that fails writes nothing. */
  lemma PermissionAnswers(e: bool, op: Op, s: Snapshot)
    requires Inv(s) && ForPermission(op)
    ensures Complete(e, op, s).1 == Failed(WrongPrincipalType) <==> op.principalType != "user"
    ensures Complete(e, op, s).1 ==
      if op.principalType != "user" then Failed(WrongPrincipalType)
      else if op.permission !in s.permissions then Failed(Refused(NotFound))
      else if DecodePermission(s.permissions[op.permission]).None? then Failed(Undecodable)
      else if Atoi(op.user).None? then Failed(Refused(BadRequest))
      else if UserOf(s, op.user).None? then Failed(Refused(NotFound))
      else
        var there := IsSubject(s.permissions[op.permission], UserOf(s, op.user).value.uuid);
        if op.PermissionGrant? then if there then AlreadyExists else Applied
        else if there then Applied else AlreadyRevoked
    ensures Complete(e, op, s).1.Failed? ==> Complete(e, op, s).0 == s
  {
    hide Inv, Complete, UserByID, DecodePermission, IsSubject, HasSubject, EnableUsers, PermissionWrite, Atoi;
    CompleteMeans(e, op, s);
    EnableNone(s);
    if UserOf(s, op.user).Some? && SubjectsOf(s, op.permission).Some? { HasPermissionMeans(s, op.user, op.permission); }
  }

  /** An applied permission operation rewrites one permission: a grant appends the user's entry, a
      revoke drops the user's entries, and apart from that the name, the actions, the bookkeeping and
      the order stay, the UUIDs are normalised and the tags' names rewritten once. Any other answer
      leaves every permission as it was. */
  lemma PermissionEffect(e: bool, op: Op, s: Snapshot)
    requires Inv(s) && ForPermission(op)
    ensures var (s', answer) := Complete(e, op, s);
      if answer == Applied then
        && UserOf(s, op.user).Some? && op.permission in s.permissions
        && s'.permissions == s.permissions[op.permission := Rewritten(op, s.permissions[op.permission],
            UserOf(s, op.user).value)]
      else s'.permissions == s.permissions
  {
    hide Inv, Complete, PermissionAnswer, PermissionWrite, Rewritten, UserOf;
    CompleteMeans(e, op, s);
    if PermissionAnswer(op, s) == Applied {
      AppliedWrite(op, s);
    }
  }

  lemma AppliedWrite(op: Op, s: Snapshot)
    requires Inv(s) && ForPermission(op) && PermissionAnswer(op, s) == Applied
    ensures UserOf(s, op.user).Some? && SubjectsOf(s, op.permission).Some? && op.permission in s.permissions
    ensures PermissionWrite(op, s).permissions ==
            s.permissions[op.permission := Rewritten(op, s.permissions[op.permission], UserOf(s, op.user).value)]
  {
    hide Inv, UserOf, Canonical, Parse, Render, Normal, Retagged, HasSubject, RewriteTags, EncodeObjects,
      EncodeObject, NormalAll, RetaggedAll, WithoutSubject, DropSubject, SubjectsOf, DecodePermission;
    AppliedFinds(op, s);
    UserOfFound(s, op.user);
    var u := UserOf(s, op.user).value;
    CanonicalParses(u.uuid);
    var uuid := Parse(u.uuid).value;
    var p := SubjectsOf(s, op.permission).value;
    var body := Revised(op, p, uuid, u.name);
    BodyStored(s, op.permission, body);
    DecodedParts(s, op.permission);
    var stored := s.permissions[op.permission];
    ObjectsRetagged(stored.objects);
    RoundTripIsNormalAll(stored.subjects);
    if op.PermissionGrant? {
      AppendEncodes(p.subjects, TenableObject(USER_SUBJECT, uuid, u.name));
      EncodesUser(uuid, u.name);
    } else {
      DropEncodes(p.subjects, uuid);
    }
  }

  lemma EncodesUser(uuid: Uuid, name: string)
    ensures EncodeObject(TenableObject(USER_SUBJECT, uuid, name)) == Subject("User", Render(uuid), name)
  {}

  lemma AppliedFinds(op: Op, s: Snapshot)
    requires ForPermission(op) && PermissionAnswer(op, s) == Applied
    ensures UserOf(s, op.user).Some? && SubjectsOf(s, op.permission).Some? && op.permission in s.permissions
  {
    hide UserOf, DecodePermission;
  }

  lemma DecodedParts(s: Snapshot, permission: string)
    requires SubjectsOf(s, permission).Some?
    ensures permission in s.permissions
    ensures var p, stored := SubjectsOf(s, permission).value, s.permissions[permission];
      && p.name == stored.name && p.actions == stored.actions
      && DecodeAll(stored.objects, DecodeObject) == Some(p.objects)
          && DecodeAll(stored.subjects, DecodeObject) == Some(p.subjects)
  {
    hide Parse, Render, DecodeAll;
  }

  lemma BodyStored(s: Snapshot, permission: string, body: ClientPermission)
    requires Inv(s) && SubjectsOf(s, permission).Some? && body.uuid == SubjectsOf(s, permission).value.uuid
    ensures permission in s.permissions
    ensures PutPermission(s, body).0.permissions == s.permissions[permission := s.permissions[permission].(
              name := body.name, actions := body.actions, objects := EncodeObjects(RewriteTags(body.objects)),
              subjects := EncodeObjects(body.subjects))]
  {
    hide Inv, CreateUser, UpdateUser, DeleteUser, SetUserEnabled, AddGroupMember, RemoveGroupMember, SetUserRoles,
      Parse, Render, RewriteTags, EncodeObjects, SubjectsOf;
    PermissionKey(s, permission);
  }

  // ----- A grant and its revoke -----------------------------------------------------------

  lemma OnlyEntryDropped(x: Subject)
    ensures WithoutSubject([x], x.uuid) == []
  {}

  lemma SubjectsRestored(before: Permission, u: User)
    requires Canonical(u.uuid) && !IsSubject(before, u.uuid)
    ensures WithoutSubject(NormalAll(NormalAll(before.subjects) + [Subject("User", u.uuid, u.name)]), u.uuid) ==
            NormalAll(before.subjects)
  {
    hide Normal, Canonical, WithoutSubject;
    var normal, x := NormalAll(before.subjects), Subject("User", u.uuid, u.name);
    NormalForm(x);
    forall i | 0 <= i < |normal|
      ensures Normal(normal[i]) == normal[i]
    {
      NormalForm(before.subjects[i]);
    }
    assert NormalAll(normal + [x]) == normal + [x];
    assert forall y :: y in normal ==> y.uuid != u.uuid;
    WithoutSubjectMembers(normal, u.uuid);
    OnlyEntryDropped(x);
    WithoutSubjectConcat(normal, [x], u.uuid);
  }

  lemma GrantedThenRevocable(e: bool, user: string, permission: string, s: Snapshot)
    requires Inv(s) && PermissionAnswer(PermissionGrant(USER_TYPE, user, permission), s) == Applied
    ensures var s1 := Effect(e, PermissionGrant(USER_TYPE, user, permission), s);
      && Answer(PermissionRevoke(USER_TYPE, user, permission), s1) == Applied
      && UserOf(s, user).Some? && UserOf(s1, user).Some? && SameButEnabled(UserOf(s1, user).value,
          UserOf(s, user).value)
      && SubjectsOf(s, permission).Some? && !HasPermission(s, user, permission)
  {
    var grant, revoke := PermissionGrant(USER_TYPE, user, permission), PermissionRevoke(USER_TYPE, user, permission);
    hide Inv, UserOf, SubjectsOf, PermissionWrite, HasSubject, Atoi, Itoa, EnableUsers, SameButEnabled;
    PermissionAfter(s, grant);
    var w, target := Write(grant, s), Target(e, grant, Answer(grant, s));
    AnswerIgnoresEnabling(revoke, w, target);
    EnabledUserOf(w, target, user);
  }

  lemma UserGrantThenRevoke(e: bool, user: string, permission: string, s: Snapshot)
    requires Inv(s)
    ensures var (s1, granted) := Complete(e, PermissionGrant(USER_TYPE, user, permission), s);
      var (s2, revoked) := Complete(e, PermissionRevoke(USER_TYPE, user, permission), s1);
      granted == Applied ==>
        && revoked == Applied && permission in s.permissions
        && s2.permissions == s.permissions[permission := s.permissions[permission].(
             subjects := NormalAll(s.permissions[permission].subjects),
             objects := RetaggedAll(RetaggedAll(s.permissions[permission].objects)))]
        && (s2.permissions[permission].subjects == s.permissions[permission].subjects <==>
              forall x :: x in s.permissions[permission].subjects ==> Canonical(x.uuid))
  {
    hide Inv, Complete, Effect, UserOf, PermissionAnswer, NormalAll, RetaggedAll, WithoutSubject, IsSubject,
      HasPermission, SubjectsOf, Canonical, SameButEnabled;
    var grant, revoke := PermissionGrant(USER_TYPE, user, permission), PermissionRevoke(USER_TYPE, user, permission);
    CompleteMeans(e, grant, s);
    if Answer(grant, s) == Applied {
      var s1 := Effect(e, grant, s);
      GrantedThenRevocable(e, user, permission, s);
      CompleteMeans(e, revoke, s1);
      PermissionEffect(e, grant, s);
      PermissionEffect(e, revoke, s1);
      UserOfFound(s, user);
      HasPermissionMeans(s, user, permission);
      SameUuid(UserOf(s1, user).value, UserOf(s, user).value);
      SubjectsRestored(s.permissions[permission], UserOf(s, user).value);
      DecodedParts(s, permission);
      CanonicalIsNormal(s.permissions[permission].subjects);
    }
  }

  /** Granting a permission to a user who was no subject, and revoking it again, gives back the
      subject list in its normal form: the very same list exactly when its UUIDs were spelled
      canonically. */
  lemma GrantThenRevoke(e: bool, typ: string, user: string, permission: string, s: Snapshot)
    requires Inv(s)
    ensures var (s1, granted) := Complete(e, PermissionGrant(typ, user, permission), s);
      var (s2, revoked) := Complete(e, PermissionRevoke(typ, user, permission), s1);
      granted == Applied ==>
        && revoked == Applied && permission in s.permissions
        && s2.permissions == s.permissions[permission := s.permissions[permission].(
             subjects := NormalAll(s.permissions[permission].subjects),
             objects := RetaggedAll(RetaggedAll(s.permissions[permission].objects)))]
        && (s2.permissions[permission].subjects == s.permissions[permission].subjects <==>
              forall x :: x in s.permissions[permission].subjects ==> Canonical(x.uuid))
  {
    hide Inv, Complete, UserOf, NormalAll, RetaggedAll, Canonical, IsSubject, SubjectsOf;
    PermissionAnswers(e, PermissionGrant(typ, user, permission), s);
    if typ == USER_TYPE { UserGrantThenRevoke(e, user, permission, s); }
  }

  lemma SameUuid(a: User, b: User)
    requires SameButEnabled(a, b)
    ensures a.uuid == b.uuid && a.id == b.id && a.name == b.name
  {}
}
