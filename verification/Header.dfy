/** The API key header: the client prints it, the test server parses it. */
module Header {
  import opened Wrappers
  import opened Text

  const ACCESS_KEY: string := "accessKey"
  const SECRET_KEY: string := "secretKey"

  function PrintHeader(access: string, secret: string): string
  {
    "accessKey=" + access + "; secretKey=" + secret
  }

  // ----- Parsing --------------------------------------------------------------------------

  datatype Part = Nothing | Malformed | Pair(key: string, value: string)

  /** One piece between semicolons: blank, without an equals sign, or split at the first one. */
  function ReadPart(part: string): Part
  {
    var trimmed := TrimSpace(part);
    if trimmed == "" then Nothing
    else
      match Cut(trimmed, '=')
      case None => Malformed
      case Some((key, value)) => Pair(TrimSpace(key), TrimSpace(value))
  }

  /** The key-value table; a later pair replaces an earlier one of the same key. */
  function Fields(parts: seq<string>): Option<map<string, string>>
  {
    if parts == [] then Some(map[])
    else
      match Fields(parts[..|parts| - 1])
      case None => None
      case Some(kv) =>
        match ReadPart(parts[|parts| - 1])
        case Nothing => Some(kv)
        case Malformed => None
        case Pair(key, value) => Some(kv[key := value])
  }

  function Lookup(kv: map<string, string>, key: string): string
  {
    if key in kv then kv[key] else ""
  }

  function ParseHeader(raw: string): Option<(string, string)>
  {
    match Fields(Split(raw, ';'))
    case None => None
    case Some(kv) =>
      var access, secret := Lookup(kv, ACCESS_KEY), Lookup(kv, SECRET_KEY);
      if access == "" || secret == "" then None else Some((access, secret))
  }

  lemma {:induction false} MalformedStays(parts: seq<string>, i: nat)
    requires i <= |parts| && Fields(parts[..i]).None?
    ensures Fields(parts).None?
    decreases |parts| - i
  {
    if i < |parts| {
      assert parts[..i + 1][..i] == parts[..i];
      MalformedStays(parts, i + 1);
    } else {
      assert parts[..i] == parts;
    }
  }

  /** parseAPIKeys: the loop stops at the first malformed part. */
  method ParseAPIKeys(raw: string) returns (access: string, secret: string, ok: bool)
    ensures ok <==> ParseHeader(raw).Some?
    ensures ok ==> ParseHeader(raw) == Some((access, secret))
    ensures !ok ==> access == "" && secret == ""
  {
    hide ReadPart, Split;
    var parts := Split(raw, ';');
    var kv := map[];
    var i := 0;
    while i < |parts|
      invariant 0 <= i <= |parts|
      invariant Fields(parts[..i]) == Some(kv)
    {
      assert parts[..i + 1][..i] == parts[..i];
      match ReadPart(parts[i]) {
        case Nothing =>
        case Malformed =>
          MalformedStays(parts, i + 1);
          return "", "", false;
        case Pair(key, value) => kv := kv[key := value];
      }
      i := i + 1;
    }
    assert parts[..i] == parts;
    access, secret := Lookup(kv, ACCESS_KEY), Lookup(kv, SECRET_KEY);
    if access == "" || secret == "" { return "", "", false; }
    ok := true;
  }

  // ----- What the parser accepts ----------------------------------------------------------

  /** A part is passed over exactly if it is blank, and is malformed exactly if it is not and has no equals sign.
      Otherwise it is the pair of what stands before and after the first one, without the white space around. */
  lemma ReadPartMeans(part: string)
    ensures ReadPart(part) == Nothing <==> Blank(part)
    ensures ReadPart(part) == Malformed <==> !Blank(part) && '=' !in part
    ensures ReadPart(part).Pair? ==>
      exists key, value :: part == key + ['='] + value && '=' !in key
          && ReadPart(part) == Pair(TrimSpace(key), TrimSpace(value))
  {
    hide TrimSpace, IsSpace;
    var w1, w2 := TrimSplits(part);
    var trimmed := TrimSpace(part);
    BlankHasNoEquals(w1);
    BlankHasNoEquals(w2);
    if Blank(part) { TrimBlank(part); }
    if trimmed != "" && Cut(trimmed, '=').Some? {
      var (key, value) := Cut(trimmed, '=').value;
      assert part == (w1 + key) + ['='] + (value + w2);
      TrimAround(w1, key, "");
      TrimAround("", value, w2);
      assert w1 + key + "" == w1 + key && "" + value + w2 == value + w2;
    }
  }

  /** The table has a pair for a key exactly if some part does, and then the last one. */
  lemma {:induction false} FieldsMean(parts: seq<string>, key: string, value: string)
    ensures Fields(parts).None? <==> exists i :: 0 <= i < |parts| && ReadPart(parts[i]) == Malformed
    ensures Fields(parts).Some? ==>
      (key in Fields(parts).value && Fields(parts).value[key] == value <==>
       exists i :: 0 <= i < |parts| && IsLast(parts, i, key, value))
  {
    hide ReadPart;
    if parts != [] {
      var init, last := parts[..|parts| - 1], parts[|parts| - 1];
      FieldsMean(init, key, value);
      assert forall i :: 0 <= i < |init| ==> parts[i] == init[i];
      if ReadPart(last).Pair? && ReadPart(last).key == key {
        assert forall i :: 0 <= i < |parts| && IsLast(parts, i, key, value) ==> i == |parts| - 1;
        assert ReadPart(last).value == value ==> IsLast(parts, |parts| - 1, key, value);
      } else {
        assert forall i :: 0 <= i < |init| ==> (IsLast(parts, i, key, value) <==> IsLast(init, i, key, value));
      }
    }
  }

  predicate IsLast(parts: seq<string>, i: nat, key: string, value: string)
    requires i < |parts|
  {
    && ReadPart(parts[i]) == Pair(key, value)
    && forall j :: i < j < |parts| ==> !(ReadPart(parts[j]).Pair? && ReadPart(parts[j]).key == key)
  }

  /** A header parses to two keys exactly if no part between semicolons is malformed, and they are the nonempty
      values of the last pairs for "accessKey" and "secretKey". */
  lemma ParseHeaderMeans(raw: string, access: string, secret: string)
    ensures var parts := Split(raw, ';');
      ParseHeader(raw) == Some((access, secret)) <==>
        && (forall i :: 0 <= i < |parts| ==> ReadPart(parts[i]) != Malformed)
        && access != "" && secret != ""
        && (exists i :: 0 <= i < |parts| && IsLast(parts, i, "accessKey", access))
        && (exists i :: 0 <= i < |parts| && IsLast(parts, i, "secretKey", secret))
  {
    hide ReadPart, Split, Fields, IsLast;
    var parts := Split(raw, ';');
    FieldsMean(parts, "accessKey", access);
    FieldsMean(parts, "secretKey", secret);
    if Fields(parts).Some? {
      var kv := Fields(parts).value;
      assert ACCESS_KEY == "accessKey" && SECRET_KEY == "secretKey";
      assert access != "" ==> (Lookup(kv, ACCESS_KEY) == access <==>
        "accessKey" in kv && kv["accessKey"] == access);
      assert secret != "" ==> (Lookup(kv, SECRET_KEY) == secret <==>
        "secretKey" in kv && kv["secretKey"] == secret);
    }
  }

  // ----- Padded fields --------------------------------------------------------------------

  /** A key that survives the header: not empty, no semicolon, no surrounding white space. It may
      hold equals signs. */
  predicate Clean(key: string)
  {
    key != "" && ';' !in key && Trimmed(key)
  }

  lemma PaddedPair(w1: string, key: string, w2: string, w3: string, value: string, w4: string)
    requires Blank(w1) && Blank(w2) && Blank(w3) && Blank(w4)
    requires key != "" && Trimmed(key) && '=' !in key && value != "" && Trimmed(value)
    ensures ReadPart(w1 + key + w2 + "=" + w3 + value + w4) == Pair(key, value)
  {
    var left, right := key + w2, w3 + value;
    var core := left + ['='] + right;
    assert w1 + key + w2 + "=" + w3 + value + w4 == w1 + core + w4;
    assert core[0] == key[0] && core[|core| - 1] == value[|value| - 1];
    hide TrimSpace, Trimmed, IsSpace, Cut;
    CoreTrimmed(core, key, value);
    TrimPadded(w1, core, w4);
    BlankHasNoEquals(w2);
    CutAtFirst(left, right, '=');
    assert left == "" + key + w2 && right == w3 + value + "";
    TrimPadded("", key, w2);
    TrimPadded(w3, value, "");
  }

  lemma CoreTrimmed(core: string, key: string, value: string)
    requires core != "" && key != "" && value != "" && core[0] == key[0] && core[|core| - 1] == value[|value| - 1]
    requires Trimmed(key) && Trimmed(value)
    ensures Trimmed(core)
  {}

  lemma BlankHasNoEquals(w: string)
    requires Blank(w)
    ensures '=' !in w
  {
    assert !IsSpace('=');
  }

  lemma BlankReadsNothing(w: string)
    requires Blank(w)
    ensures ReadPart(w) == Nothing
  {
    TrimPadded(w, "", "");
    assert w + "" + "" == w;
  }

  // ----- Headers --------------------------------------------------------------------------

  /** A blank part, or a padded field carrying one of the two keys. */
  predicate Carries(part: string, access: string, secret: string)
  {
    var p := ReadPart(part);
    p == Nothing || p == Pair(ACCESS_KEY, access) || p == Pair(SECRET_KEY, secret)
  }

  predicate HasPart(parts: seq<string>, p: Part)
  {
    exists i :: 0 <= i < |parts| && ReadPart(parts[i]) == p
  }

  lemma HasPartStep(parts: seq<string>, p: Part)
    requires parts != []
    ensures HasPart(parts, p) <==> HasPart(parts[..|parts| - 1], p) || ReadPart(parts[|parts| - 1]) == p
  {
    hide ReadPart;
    var init := parts[..|parts| - 1];
    assert forall i :: 0 <= i < |init| ==> init[i] == parts[i];
  }

  /** When every part is blank or one of two pairs, the table holds exactly the pairs that occur. */
  lemma {:induction false} FieldsCarried(parts: seq<string>, k1: string, v1: string, k2: string, v2: string)
    requires k1 != k2
    requires forall i :: 0 <= i < |parts| ==> ReadPart(parts[i]) in {Nothing, Pair(k1, v1), Pair(k2, v2)}
    ensures Fields(parts).Some?
    ensures k1 in Fields(parts).value <==> HasPart(parts, Pair(k1, v1))
    ensures k2 in Fields(parts).value <==> HasPart(parts, Pair(k2, v2))
    ensures k1 in Fields(parts).value ==> Fields(parts).value[k1] == v1
    ensures k2 in Fields(parts).value ==> Fields(parts).value[k2] == v2
  {
    hide ReadPart;
    if parts == [] {
    } else {
      var init := parts[..|parts| - 1];
      assert forall i :: 0 <= i < |init| ==> init[i] == parts[i];
      hide HasPart;
      FieldsCarried(init, k1, v1, k2, v2);
      HasPartStep(parts, Pair(k1, v1));
      HasPartStep(parts, Pair(k2, v2));
    }
  }

  /** Order, padding, repetition and blank parts do not matter: any header that carries both keys,
      each however padded, parses to them. */
  lemma CarriedKeysParse(parts: seq<string>, access: string, secret: string)
    requires parts != [] && SeparatorFree(parts, ';') && access != "" && secret != ""
    requires forall i :: 0 <= i < |parts| ==> Carries(parts[i], access, secret)
    requires HasPart(parts, Pair(ACCESS_KEY, access)) && HasPart(parts, Pair(SECRET_KEY, secret))
    ensures ParseHeader(Join(parts, ';')) == Some((access, secret))
  {
    assert ACCESS_KEY[0] == 'a' && SECRET_KEY[0] == 's';
    hide ReadPart, SeparatorFree, Split, Join, Fields, HasPart, ACCESS_KEY, SECRET_KEY;
    SplitOfJoin(parts, ';');
    FieldsCarried(parts, ACCESS_KEY, access, SECRET_KEY, secret);
  }

  lemma {:induction false} ValuesClean(parts: seq<string>)
    requires SeparatorFree(parts, ';') && Fields(parts).Some?
    ensures forall k :: k in Fields(parts).value ==> Trimmed(Fields(parts).value[k]) && ';' !in Fields(parts).value[k]
  {
    hide Trimmed, TrimSpace, Cut;
    if parts != [] {
      var part := parts[|parts| - 1];
      assert part in parts;
      ValuesClean(parts[..|parts| - 1]);
      var trimmed := TrimSpace(part);
      TrimSpaceShape(part);
      if Cut(trimmed, '=').Some? {
        var value := Cut(trimmed, '=').value.1;
        TrimSpaceShape(value);
        assert forall c :: c in value ==> c in trimmed;
      }
    }
  }

  /** Whatever the header, keys that come out of it are clean. */
  lemma ParsedKeysAreClean(raw: string)
    ensures ParseHeader(raw).Some? ==> Clean(ParseHeader(raw).value.0) && Clean(ParseHeader(raw).value.1)
  {
    hide Trimmed, Fields, Split;
    SplitIsSeparatorFree(raw, ';');
    if Fields(Split(raw, ';')).Some? { ValuesClean(Split(raw, ';')); }
  }

  /** The two parts that the client prints. */
  function PrintedParts(access: string, secret: string): (parts: seq<string>)
    ensures |parts| == 2
  {
    ["" + ACCESS_KEY + "" + "=" + "" + access + "", " " + SECRET_KEY + "" + "=" + "" + secret + ""]
  }

  lemma PrintedIsJoined(access: string, secret: string)
    ensures PrintHeader(access, secret) == Join(PrintedParts(access, secret), ';')
  {
    var parts := PrintedParts(access, secret);
    assert Join(parts[1..], ';') == parts[1];
    assert Join(parts, ';') == parts[0] + [';'] + parts[1];
    assert parts[0] == "accessKey=" + access;
    assert [';'] + parts[1] == "; secretKey=" + secret;
    assert parts[0] + [';'] + parts[1] == parts[0] + ([';'] + parts[1]);
    assert "accessKey=" + access + "; secretKey=" + secret == ("accessKey=" + access) + ("; secretKey=" + secret);
  }

  /** The parser gives back the keys that the client printed exactly when both are clean. */
  lemma HeaderRoundTrip(access: string, secret: string)
    ensures ParseHeader(PrintHeader(access, secret)) == Some((access, secret)) <==> Clean(access) && Clean(secret)
  {
    hide ParseHeader, PrintHeader, Trimmed, ReadPart, SeparatorFree, Join, ACCESS_KEY, SECRET_KEY;
    ParsedKeysAreClean(PrintHeader(access, secret));
    if Clean(access) && Clean(secret) {
      NamesTrimmed();
      PaddedPair("", ACCESS_KEY, "", "", access, "");
      PaddedPair(" ", SECRET_KEY, "", "", secret, "");
      var parts := PrintedParts(access, secret);
      assert ReadPart(parts[0]) == Pair(ACCESS_KEY, access) && ReadPart(parts[1]) == Pair(SECRET_KEY, secret);
      NoSemicolon(parts[0], parts[1], access, secret);
      assert parts == [parts[0], parts[1]];
      CarriedKeysParse(parts, access, secret);
      PrintedIsJoined(access, secret);
    }
  }

  lemma NamesTrimmed()
    ensures ACCESS_KEY != "" && Trimmed(ACCESS_KEY) && '=' !in ACCESS_KEY && ';' !in ACCESS_KEY
    ensures SECRET_KEY != "" && Trimmed(SECRET_KEY) && '=' !in SECRET_KEY && ';' !in SECRET_KEY
    ensures Blank("") && Blank(" ")
  {}

  lemma NoSemicolon(first: string, second: string, access: string, secret: string)
    requires ';' !in access && ';' !in secret && ';' !in ACCESS_KEY && ';' !in SECRET_KEY
    requires first == "" + ACCESS_KEY + "" + "=" + "" + access + ""
    requires second == " " + SECRET_KEY + "" + "=" + "" + secret + ""
    ensures SeparatorFree([first, second], ';')
  {
    hide ACCESS_KEY, SECRET_KEY;
  }

  /** White space around the pieces of one field. */
  datatype Padding = Padding(before: string, afterKey: string, beforeValue: string, after: string)

  ghost predicate BlankPadding(w: Padding)
  {
    Blank(w.before) && Blank(w.afterKey) && Blank(w.beforeValue) && Blank(w.after)
  }

  function Padded(w: Padding, key: string, value: string): string
  {
    w.before + key + w.afterKey + "=" + w.beforeValue + value + w.after
  }

  lemma PaddedHasNoSemicolon(w: Padding, key: string, value: string)
    requires BlankPadding(w) && ';' !in key && ';' !in value
    ensures ';' !in Padded(w, key, value)
  {
    assert !IsSpace(';');
  }

  /** Clean keys come out of the header whichever field is first and however the fields are padded. */
  lemma OrderAndPaddingDoNotMatter(v: Padding, w: Padding, access: string, secret: string)
    requires BlankPadding(v) && BlankPadding(w) && Clean(access) && Clean(secret)
    ensures var a, s := Padded(v, ACCESS_KEY, access), Padded(w, SECRET_KEY, secret);
      && ParseHeader(Join([a, s], ';')) == Some((access, secret))
      && ParseHeader(Join([s, a], ';')) == Some((access, secret))
  {
    hide ParseHeader, Trimmed, ReadPart, Join, ACCESS_KEY, SECRET_KEY, Padded;
    NamesTrimmed();
    PaddedPairReads(v, ACCESS_KEY, access);
    PaddedPairReads(w, SECRET_KEY, secret);
    PaddedHasNoSemicolon(v, ACCESS_KEY, access);
    PaddedHasNoSemicolon(w, SECRET_KEY, secret);
    var a, s := Padded(v, ACCESS_KEY, access), Padded(w, SECRET_KEY, secret);
    var there, back := [a, s], [s, a];
    assert there[0] == a && there[1] == s && back[0] == s && back[1] == a;
    CarriedKeysParse(there, access, secret);
    CarriedKeysParse(back, access, secret);
  }

  lemma PaddedPairReads(w: Padding, key: string, value: string)
    requires BlankPadding(w) && key != "" && Trimmed(key) && '=' !in key && value != "" && Trimmed(value)
    ensures ReadPart(Padded(w, key, value)) == Pair(key, value)
  {
    PaddedPair(w.before, key, w.afterKey, w.beforeValue, value, w.after);
  }
}
