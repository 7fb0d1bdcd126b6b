/** The string functions of Go's strings and strconv packages that the connector and the test
    server rely on. A string is a sequence of Unicode code points. */
module Text {
  import opened Wrappers

  // ----- strings.Split and strings.Join ---------------------------------------------------

  function Split(s: string, sep: char): (parts: seq<string>)
    ensures parts != []
  {
    if s == "" then [""]
    else
      var rest := Split(s[1..], sep);
      if s[0] == sep then [""] + rest else [[s[0]] + rest[0]] + rest[1..]
  }

  function Join(parts: seq<string>, sep: char): string
  {
    if parts == [] then ""
    else if |parts| == 1 then parts[0]
    else parts[0] + [sep] + Join(parts[1..], sep)
  }

  ghost predicate SeparatorFree(parts: seq<string>, sep: char)
  {
    forall p :: p in parts ==> sep !in p
  }

  lemma {:induction false} SplitPiece(p: string, s: string, sep: char)
    requires sep !in p
    ensures Split(p + s, sep) == [p + Split(s, sep)[0]] + Split(s, sep)[1..]
  {
    if p == "" {
      assert p + s == s;
      assert p + Split(s, sep)[0] == Split(s, sep)[0];
    } else {
      assert (p + s)[1..] == p[1..] + s;
      SplitPiece(p[1..], s, sep);
      assert [p[0]] + (p[1..] + Split(s, sep)[0]) == p + Split(s, sep)[0];
    }
  }

  lemma {:induction false} SplitOfJoin(parts: seq<string>, sep: char)
    requires parts != [] && SeparatorFree(parts, sep)
    ensures Split(Join(parts, sep), sep) == parts
  {
    var p := parts[0];
    if |parts| == 1 {
      SplitPiece(p, "", sep);
      assert p + "" == p;
    } else {
      var rest := Join(parts[1..], sep);
      SplitOfJoin(parts[1..], sep);
      assert p + [sep] + rest == p + ([sep] + rest);
      assert ([sep] + rest)[1..] == rest;
      SplitPiece(p, [sep] + rest, sep);
      assert p + "" == p;
      assert parts == [p] + parts[1..];
    }
  }

  lemma {:induction false} SplitIsSeparatorFree(s: string, sep: char)
    ensures SeparatorFree(Split(s, sep), sep)
  {
    if s != "" {
      SplitIsSeparatorFree(s[1..], sep);
      var rest := Split(s[1..], sep);
      assert rest[0] in rest;
      assert forall p :: p in rest[1..] ==> p in rest;
    }
  }

  /** Joining puts the separator between the parts, and nowhere else. */
  lemma {:induction false} JoinMeans(parts: seq<string>, last: string, sep: char)
    ensures Join([], sep) == "" && Join([last], sep) == last
    ensures parts != [] ==> Join(parts + [last], sep) == Join(parts, sep) + [sep] + last
  {
    if |parts| == 1 {
      assert (parts + [last])[1..] == [last];
    } else if parts != [] {
      assert (parts + [last])[1..] == parts[1..] + [last];
      JoinMeans(parts[1..], last, sep);
      var rest := Join(parts[1..], sep);
      assert parts[0] + [sep] + (rest + [sep] + last) == parts[0] + [sep] + rest + [sep] + last;
    }
  }

  /** Joining and splitting undo each other exactly on nonempty lists of separator-free strings. */
  lemma SplitJoinRoundTrip(parts: seq<string>, sep: char)
    ensures Split(Join(parts, sep), sep) == parts <==> parts != [] && SeparatorFree(parts, sep)
  {
    if parts != [] && SeparatorFree(parts, sep) {
      SplitOfJoin(parts, sep);
    } else {
      SplitIsSeparatorFree(Join(parts, sep), sep);
    }
  }

  // ----- strconv.Itoa and strconv.Atoi ----------------------------------------------------

  const MAX_INT: int := 0x7FFF_FFFF_FFFF_FFFF
  const MIN_INT: int := -0x8000_0000_0000_0000

  function DigitChar(d: nat): char
    requires d < 10
  {
    (d + 48) as char
  }

  predicate IsDigit(c: char) { '0' <= c <= '9' }

  function DigitValue(c: char): nat
    requires IsDigit(c)
  {
    c as int - 48
  }

  function ItoaNat(n: nat): string
  {
    if n < 10 then [DigitChar(n)] else ItoaNat(n / 10) + [DigitChar(n % 10)]
  }

  function Itoa(n: int): string
  {
    if n < 0 then "-" + ItoaNat(-n) else ItoaNat(n)
  }

  predicate AllDigits(s: string)
  {
    forall i :: 0 <= i < |s| ==> IsDigit(s[i])
  }

  function DigitsValue(s: string): nat
    requires AllDigits(s)
  {
    if s == "" then 0 else 10 * DigitsValue(s[..|s| - 1]) + DigitValue(s[|s| - 1])
  }

  /** Atoi accepts an optional sign and at least one decimal digit, and refuses values outside
      the 64-bit range. */
  function Atoi(s: string): Option<int>
  {
    var negative := s != "" && s[0] == '-';
    var body := if s != "" && (s[0] == '-' || s[0] == '+') then s[1..] else s;
    if body == "" || !AllDigits(body) then None
    else
      var magnitude: int := DigitsValue(body);
      var v := if negative then -magnitude else magnitude;
      if MIN_INT <= v <= MAX_INT then Some(v) else None
  }

  lemma {:induction false} ItoaNatDigits(n: nat)
    ensures ItoaNat(n) != "" && AllDigits(ItoaNat(n)) && DigitsValue(ItoaNat(n)) == n
  {
    if n >= 10 {
      ItoaNatDigits(n / 10);
      var s := ItoaNat(n);
      assert s[..|s| - 1] == ItoaNat(n / 10);
    } else {
      assert ItoaNat(n)[..0] == "";
    }
  }

  /** Different IDs print differently, so comparing printed IDs compares IDs. */
  lemma ItoaInjective(m: int, n: int)
    requires Itoa(m) == Itoa(n)
    ensures m == n
  {
    ItoaNatDigits(if m < 0 then -m else m);
    ItoaNatDigits(if n < 0 then -n else n);
    assert m >= 0 ==> IsDigit(Itoa(m)[0]);
    assert n >= 0 ==> IsDigit(Itoa(n)[0]);
    if m < 0 && n < 0 {
      assert Itoa(m)[1..] == ItoaNat(-m);
      assert Itoa(n)[1..] == ItoaNat(-n);
    }
  }

  /** The printed form is decimal: one digit below ten, another digit appended for ten times as much, and a
      minus sign in front of a negative number. */
  lemma ItoaMeans(n: int, d: nat)
    requires d < 10
    ensures Itoa(d) == ["0123456789"[d]]
    ensures n > 0 ==> Itoa(10 * n + d) == Itoa(n) + Itoa(d) && Itoa(-n) == "-" + Itoa(n)
  {
    assert n > 0 ==> (10 * n + d) / 10 == n && (10 * n + d) % 10 == d;
  }

  function Zeros(k: nat): (s: string)
    ensures |s| == k
  {
    seq(k, _ => '0')
  }

  /** Any digits are the printed form of what they denote, after some zeros. */
  lemma {:induction false} DigitsPrint(s: string) returns (k: nat)
    requires s != "" && AllDigits(s)
    ensures s == Zeros(k) + ItoaNat(DigitsValue(s))
  {
    var init, c := s[..|s| - 1], s[|s| - 1];
    assert s == init + [c] && DigitChar(DigitValue(c)) == c;
    k := 0;
    if init == "" {
      assert DigitsValue(init) == 0 && Zeros(0) == "";
    } else {
      k := DigitsPrint(init);
      if DigitsValue(init) == 0 {
        assert ItoaNat(0) == "0" && Zeros(k) + "0" == Zeros(k + 1);
        k := k + 1;
      } else {
        var v := DigitsValue(s);
        assert v / 10 == DigitsValue(init) && v % 10 == DigitValue(c);
        assert Zeros(k) + ItoaNat(DigitsValue(init)) + [c] == Zeros(k) + (ItoaNat(DigitsValue(init)) + [c]);
      }
    }
  }

  lemma {:induction false} ZerosDenoteNothing(k: nat, s: string)
    requires AllDigits(s)
    ensures AllDigits(Zeros(k) + s) && DigitsValue(Zeros(k) + s) == DigitsValue(s)
    decreases |s|, k
  {
    var all := Zeros(k) + s;
    if s == "" {
      assert all == Zeros(k);
      if k > 0 {
        ZerosDenoteNothing(k - 1, "");
        assert all[..k - 1] == Zeros(k - 1) + "";
      }
    } else {
      ZerosDenoteNothing(k, s[..|s| - 1]);
      assert all[..|all| - 1] == Zeros(k) + s[..|s| - 1];
    }
  }

  /** A numeral for n: an optional sign, any zeros, and the digits that n prints. */
  predicate Numeral(s: string, n: int, sign: string, k: nat)
  {
    && s == sign + Zeros(k) + ItoaNat(if n < 0 then -n else n)
    && (sign == "" || sign == "+" || sign == "-") && (n < 0 ==> sign == "-") && (n > 0 ==> sign != "-")
  }

  lemma ReadIsNumeral(s: string, n: int) returns (sign: string, k: nat)
    requires Atoi(s) == Some(n)
    ensures MIN_INT <= n <= MAX_INT && Numeral(s, n, sign, k)
  {
    hide ItoaNat, DigitsValue;
    sign := if s[0] == '-' || s[0] == '+' then s[..1] else "";
    var body := s[|sign|..];
    k := DigitsPrint(body);
    assert s == sign + body && sign + body == sign + Zeros(k) + ItoaNat(DigitsValue(body));
  }

  lemma NumeralIsRead(s: string, n: int, sign: string, k: nat)
    requires MIN_INT <= n <= MAX_INT && Numeral(s, n, sign, k)
    ensures Atoi(s) == Some(n)
  {
    hide ItoaNat, DigitsValue;
    var digits := ItoaNat(if n < 0 then -n else n);
    ItoaNatDigits(if n < 0 then -n else n);
    ZerosDenoteNothing(k, digits);
    var body := Zeros(k) + digits;
    assert s == sign + body && IsDigit(body[0]);
    assert s[|sign|..] == body;
  }

  lemma AtoiOfItoa(n: int)
    requires MIN_INT <= n <= MAX_INT
    ensures Atoi(Itoa(n)) == Some(n)
  {
    hide Atoi, ItoaNat;
    var sign := if n < 0 then "-" else "";
    assert Itoa(n) == sign + Zeros(0) + ItoaNat(if n < 0 then -n else n);
    NumeralIsRead(Itoa(n), n, sign, 0);
  }

  /** Atoi reads exactly the decimal numerals of the 64-bit range, and refuses every other text. */
  lemma AtoiMeans(s: string, n: int)
    ensures Atoi(s) == Some(n) <==>
      -9223372036854775808 <= n <= 9223372036854775807 && exists sign, k :: Numeral(s, n, sign, k)
  {
    hide Atoi, Numeral;
    if Atoi(s) == Some(n) {
      var sign, k := ReadIsNumeral(s, n);
    }
    if MIN_INT <= n <= MAX_INT && exists sign, k :: Numeral(s, n, sign, k) {
      var sign, k :| Numeral(s, n, sign, k);
      NumeralIsRead(s, n, sign, k);
    }
  }

  /** A numeric resource ID survives the comma-joined profile lists: it is nonempty and holds no comma. */
  lemma ItoaPlain(n: int)
    ensures Itoa(n) != "" && ',' !in Itoa(n)
  {
    ItoaNatDigits(if n < 0 then -n else n);
    var s := ItoaNat(if n < 0 then -n else n);
    assert forall i :: 0 <= i < |s| ==> s[i] != ',';
  }

  // ----- strings.TrimSpace and strings.Cut -----------------------------------------------

  /** unicode.IsSpace: the code points with the White_Space property. */
  predicate IsSpace(c: char)
  {
    var n := c as int;
    n == 0x20 || 0x09 <= n <= 0x0D || n == 0x85 || n == 0xA0 || n == 0x1680 || 0x2000 <= n <= 0x200A
    || n == 0x2028 || n == 0x2029 || n == 0x202F || n == 0x205F || n == 0x3000
  }

  /** Those are 25 code points. */
  lemma SpacesAre(c: char)
    ensures IsSpace(c) <==> c as int in {0x09, 0x0A, 0x0B, 0x0C, 0x0D, 0x20, 0x85, 0xA0, 0x1680, 0x2000, 0x2001, 0x2002,
      0x2003, 0x2004, 0x2005, 0x2006, 0x2007, 0x2008, 0x2009, 0x200A, 0x2028, 0x2029, 0x202F, 0x205F, 0x3000}
  {}

  function TrimLeft(s: string): string
  {
    if s != "" && IsSpace(s[0]) then TrimLeft(s[1..]) else s
  }

  function TrimRight(s: string): string
  {
    if s != "" && IsSpace(s[|s| - 1]) then TrimRight(s[..|s| - 1]) else s
  }

  function TrimSpace(s: string): string
  {
    TrimRight(TrimLeft(s))
  }

  ghost predicate Blank(s: string)
  {
    forall i :: 0 <= i < |s| ==> IsSpace(s[i])
  }

  /** No white space at either end. */
  predicate Trimmed(s: string)
  {
    s == "" || (!IsSpace(s[0]) && !IsSpace(s[|s| - 1]))
  }

  lemma {:induction false} TrimLeftPad(w: string, s: string)
    requires Blank(w)
    ensures TrimLeft(w + s) == TrimLeft(s)
  {
    if w == "" {
      assert w + s == s;
    } else {
      assert (w + s)[1..] == w[1..] + s;
      TrimLeftPad(w[1..], s);
    }
  }

  lemma {:induction false} TrimRightPad(s: string, w: string)
    requires Blank(w)
    ensures TrimRight(s + w) == TrimRight(s)
  {
    if w == "" {
      assert s + w == s;
    } else {
      assert (s + w)[..|s + w| - 1] == s + w[..|w| - 1];
      TrimRightPad(s, w[..|w| - 1]);
    }
  }

  lemma {:induction false} TrimLeftBlank(w: string)
    requires Blank(w)
    ensures TrimLeft(w) == ""
  {
    if w != "" {
      TrimLeftBlank(w[1..]);
    }
  }

  /** Trimming removes exactly the padding around a trimmed core. */
  lemma TrimPadded(w1: string, s: string, w2: string)
    requires Blank(w1) && Blank(w2) && Trimmed(s)
    ensures TrimSpace(w1 + s + w2) == s
  {
    if s == "" {
      assert w1 + s + w2 == w1 + w2;
      assert Blank(w1 + w2);
      TrimLeftBlank(w1 + w2);
    } else {
      assert w1 + s + w2 == w1 + (s + w2);
      TrimLeftPad(w1, s + w2);
      assert (s + w2)[0] == s[0];
      TrimRightPad(s, w2);
    }
  }

  lemma {:induction false} TrimRightShape(s: string)
    ensures TrimRight(s) <= s
    ensures TrimRight(s) != "" ==> !IsSpace(TrimRight(s)[|TrimRight(s)| - 1])
  {
    if s != "" && IsSpace(s[|s| - 1]) {
      TrimRightShape(s[..|s| - 1]);
    }
  }

  lemma {:induction false} TrimLeftShape(s: string)
    ensures TrimLeft(s) != "" ==> !IsSpace(TrimLeft(s)[0])
    ensures forall c :: c in TrimLeft(s) ==> c in s
  {
    if s != "" && IsSpace(s[0]) {
      TrimLeftShape(s[1..]);
    }
  }

  lemma TrimSpaceShape(s: string)
    ensures Trimmed(TrimSpace(s))
    ensures forall c :: c in TrimSpace(s) ==> c in s
  {
    TrimLeftShape(s);
    TrimRightShape(TrimLeft(s));
  }

  /** Trimming takes white space off both ends and nothing else. */
  lemma TrimSplits(s: string) returns (before: string, after: string)
    ensures Blank(before) && Blank(after) && s == before + TrimSpace(s) + after
  {
    before := LeftPadding(s);
    after := RightPadding(TrimLeft(s));
    assert before + (TrimSpace(s) + after) == before + TrimSpace(s) + after;
  }

  lemma {:induction false} LeftPadding(s: string) returns (w: string)
    ensures Blank(w) && s == w + TrimLeft(s)
  {
    w := "";
    if s != "" && IsSpace(s[0]) {
      w := LeftPadding(s[1..]);
      w := [s[0]] + w;
    }
  }

  lemma {:induction false} RightPadding(s: string) returns (w: string)
    ensures Blank(w) && s == TrimRight(s) + w
  {
    w := "";
    if s != "" && IsSpace(s[|s| - 1]) {
      w := RightPadding(s[..|s| - 1]);
      w := w + [s[|s| - 1]];
    }
  }

  lemma TrimBlank(w: string)
    ensures TrimSpace(w) == "" <==> Blank(w)
  {
    var before, after := TrimSplits(w);
    if Blank(w) { TrimLeftBlank(w); }
  }

  /** White space around does not matter. */
  lemma TrimAround(w1: string, s: string, w2: string)
    requires Blank(w1) && Blank(w2)
    ensures TrimSpace(w1 + s + w2) == TrimSpace(s)
  {
    var before, after := TrimSplits(s);
    TrimSpaceShape(s);
    assert w1 + s + w2 == (w1 + before) + TrimSpace(s) + (after + w2);
    TrimPadded(w1 + before, TrimSpace(s), after + w2);
  }

  /** strings.Cut: what stands before and after the first separator. */
  function Cut(s: string, sep: char): (r: Option<(string, string)>)
    ensures r.Some? ==> sep !in r.value.0 && s == r.value.0 + [sep] + r.value.1
    ensures r.None? <==> sep !in s
  {
    if s == "" then None
    else if s[0] == sep then Some(("", s[1..]))
    else
      match Cut(s[1..], sep)
      case None => None
      case Some(kv) => Some(([s[0]] + kv.0, kv.1))
  }

  lemma {:induction false} CutAtFirst(key: string, value: string, sep: char)
    requires sep !in key
    ensures Cut(key + [sep] + value, sep) == Some((key, value))
  {
    var s := key + [sep] + value;
    if key == "" {
      assert s[1..] == value;
    } else {
      assert s[1..] == key[1..] + [sep] + value;
      assert key == [key[0]] + key[1..];
      CutAtFirst(key[1..], value, sep);
    }
  }
}
