/** UUIDs: the value that the client decodes (32 hexadecimal digits), its canonical text form
    (section 4 of RFC 9562), the accepted text forms of the client's parser, and the deterministic
    UUIDs that the test server hands to the users it creates. */
module Uuids {
  import opened Wrappers

  type Nibble = n: nat | n < 16 witness 0

  type Uuid = u: seq<Nibble> | |u| == 32 witness seq(32, _ => 0)

  const NIL: Uuid := seq(32, _ => 0)

  // ----- Hexadecimal digits ---------------------------------------------------------------

  function HexDigit(n: Nibble): char
  {
    if n < 10 then (n + 48) as char else (n + 87) as char
  }

  predicate IsLowerHex(c: char) { '0' <= c <= '9' || 'a' <= c <= 'f' }

  predicate IsHex(c: char) { IsLowerHex(c) || 'A' <= c <= 'F' }

  function HexValue(c: char): Nibble
    requires IsHex(c)
  {
    if c <= '9' then c as int - 48 else if c <= 'F' then c as int - 55 else c as int - 87
  }

  lemma HexDigitRoundTrip(n: Nibble)
    ensures IsLowerHex(HexDigit(n)) && HexValue(HexDigit(n)) == n
  {}

  // ----- Text form ------------------------------------------------------------------------

  predicate IsHyphenPosition(i: int) { i == 8 || i == 13 || i == 18 || i == 23 }

  /** Where digit k of the value stands in the 36-character text. */
  function TextPosition(k: nat): nat
    requires k < 32
  {
    if k < 8 then k else if k < 12 then k + 1 else if k < 16 then k + 2 else if k < 20 then k + 3 else k + 4
  }

  /** Which digit of the value stands at position i of the text. */
  function DigitIndex(i: nat): (k: nat)
    requires i < 36 && !IsHyphenPosition(i)
    ensures k < 32 && TextPosition(k) == i
  {
    if i < 8 then i else if i < 13 then i - 1 else if i < 18 then i - 2 else if i < 23 then i - 3 else i - 4
  }

  function TextChar(u: Uuid, i: nat): char
    requires i < 36
  {
    if IsHyphenPosition(i) then '-' else HexDigit(u[DigitIndex(i)])
  }

  /** The String method of the client's UUID type. */
  function Render(u: Uuid): (s: string)
    ensures |s| == 36
  {
    seq(36, i requires 0 <= i < 36 => TextChar(u, i))
  }

  /** The canonical text form: 8-4-4-4-12 lower-case hexadecimal digits. */
  predicate Canonical(s: string)
  {
    |s| == 36 && forall i :: 0 <= i < 36 ==> if IsHyphenPosition(i) then s[i] == '-' else IsLowerHex(s[i])
  }

  // ----- Parsing --------------------------------------------------------------------------

  /** The hyphenated core; characters after the first 36 are not looked at. */
  function ParseCore(s: string): Option<Uuid>
    requires |s| >= 36
  {
    if forall i :: 0 <= i < 36 ==> if IsHyphenPosition(i) then s[i] == '-' else IsHex(s[i])
    then Some(seq(32, k requires 0 <= k < 32 => HexValue(s[TextPosition(k)])))
    else None
  }

  function LowerCase(c: char): char
  {
    if 'A' <= c <= 'Z' then (c as int + 32) as char else c
  }

  predicate IsUrnPrefix(s: string)
    requires |s| >= 9
  {
    forall i :: 0 <= i < 9 ==> LowerCase(s[i]) == "urn:uuid:"[i]
  }

  /** The client's parser: the hyphenated form, the same after "urn:uuid:", the same inside one
      byte on either side, and 32 bare digits; upper-case digits are accepted everywhere. */
  function Parse(s: string): Option<Uuid>
  {
    if |s| == 36 then ParseCore(s)
    else if |s| == 45 then if IsUrnPrefix(s) then ParseCore(s[9..]) else None
    else if |s| == 38 then if s[0] as int < 128 && s[37] as int < 128 then ParseCore(s[1..]) else None
    else if |s| == 32 then
      if forall i :: 0 <= i < 32 ==> IsHex(s[i])
      then Some(seq(32, k requires 0 <= k < 32 => HexValue(s[k])))
      else None
    else None
  }

  lemma RenderIsCanonical(u: Uuid)
    ensures Canonical(Render(u))
  {
    forall i | 0 <= i < 36 && !IsHyphenPosition(i)
      ensures IsLowerHex(Render(u)[i])
    {
      HexDigitRoundTrip(u[DigitIndex(i)]);
    }
  }

  /** Every UUID value survives being written as text and parsed again. */
  lemma ParseOfRender(u: Uuid)
    ensures Parse(Render(u)) == Some(u)
  {
    RenderIsCanonical(u);
    var parsed := ParseCore(Render(u)).value;
    forall k | 0 <= k < 32
      ensures parsed[k] == u[k]
    {
      var i := TextPosition(k);
      assert !IsHyphenPosition(i) && DigitIndex(i) == k;
      HexDigitRoundTrip(u[k]);
    }
    assert parsed == u;
  }

  /** A text is the rendering of what it parses to exactly when it is canonical. */
  lemma RenderOfParse(s: string)
    ensures Canonical(s) <==> Parse(s).Some? && Render(Parse(s).value) == s
  {
    if Canonical(s) {
      var u := ParseCore(s).value;
      forall i | 0 <= i < 36
        ensures Render(u)[i] == s[i]
      {
        if !IsHyphenPosition(i) {
          assert u[DigitIndex(i)] == HexValue(s[i]);
        }
      }
      assert Render(u) == s;
    } else if Parse(s).Some? {
      RenderIsCanonical(Parse(s).value);
    }
  }

  lemma RenderInjective(u: Uuid, v: Uuid)
    requires Render(u) == Render(v)
    ensures u == v
  {
    ParseOfRender(u);
    ParseOfRender(v);
  }

  const LOWER_DIGITS: string := "0123456789abcdef"
  const UPPER_DIGITS: string := "0123456789ABCDEF"

  lemma HexDigitsMean(n: Nibble, c: char)
    ensures HexDigit(n) == LOWER_DIGITS[n]
    ensures IsHex(c) && HexValue(c) == n <==> c == LOWER_DIGITS[n] || c == UPPER_DIGITS[n]
  {}

  /** The digits of a value, without hyphens. */
  function Digits(u: seq<Nibble>): (s: string)
    ensures |s| == |u|
  {
    seq(|u|, i requires 0 <= i < |u| => LOWER_DIGITS[u[i]])
  }

  /** The text form is the 32 digits in groups of 8, 4, 4, 4 and 12. */
  lemma RenderMeans(u: Uuid)
    ensures Render(u) == Digits(u[..8]) + "-" + Digits(u[8..12]) + "-" + Digits(u[12..16]) + "-" + Digits(u[16..20])
      + "-" + Digits(u[20..])
  {
    forall n: Nibble
      ensures HexDigit(n) == LOWER_DIGITS[n]
    {
      HexDigitsMean(n, '0');
    }
    hide HexDigit, LOWER_DIGITS;
    var s := Digits(u[..8]) + "-" + Digits(u[8..12]) + "-" + Digits(u[12..16]) + "-" + Digits(u[16..20]) + "-"
      + Digits(u[20..]);
    forall i | 0 <= i < 36
      ensures s[i] == Render(u)[i]
    {}
  }

  /** The text spells the value in the hyphenated form, in digits of either case. */
  predicate Spells(s: string, u: Uuid)
  {
    |s| == 36 && s[8] == '-' && s[13] == '-' && s[18] == '-' && s[23] == '-'
    && SpellsDigits(s[..8] + s[9..13] + s[14..18] + s[19..23] + s[24..], u)
  }

  predicate SpellsDigits(s: string, u: Uuid)
  {
    |s| == 32 && forall k :: 0 <= k < 32 ==> s[k] == LOWER_DIGITS[u[k]] || s[k] == UPPER_DIGITS[u[k]]
  }

  lemma CoreMeans(s: string, u: Uuid)
    requires |s| >= 36
    ensures ParseCore(s) == Some(u) <==> Spells(s[..36], u)
  {
    forall n: Nibble, c: char
      ensures IsHex(c) && HexValue(c) == n <==> c == LOWER_DIGITS[n] || c == UPPER_DIGITS[n]
    {
      HexDigitsMean(n, c);
    }
    hide IsHex, HexValue, LOWER_DIGITS, UPPER_DIGITS;
    var core := s[..36];
    var digits := core[..8] + core[9..13] + core[14..18] + core[19..23] + core[24..];
    assert forall k :: 0 <= k < 32 ==> digits[k] == s[TextPosition(k)];
    if ParseCore(s) == Some(u) {
      assert forall k :: 0 <= k < 32 ==> IsHex(digits[k]) && HexValue(digits[k]) == u[k];
    }
    if Spells(core, u) {
      forall i | 0 <= i < 36
        ensures if IsHyphenPosition(i) then s[i] == '-' else IsHex(s[i])
      {
        if !IsHyphenPosition(i) { assert s[i] == digits[DigitIndex(i)]; }
      }
      var parsed := ParseCore(s).value;
      assert forall k :: 0 <= k < 32 ==> parsed[k] == u[k];
      assert parsed == u;
    }
  }

  /** What the client's parser accepts, and as which value: the hyphenated form, plain, after "urn:uuid:" in any
      case, or between any two bytes, and the bare digits. */
  lemma ParseMeans(s: string, u: Uuid)
    ensures Parse(s) == Some(u) <==>
      || Spells(s, u)
      || (|s| == 45 && (forall i :: 0 <= i < 9 ==> s[i] == "urn:uuid:"[i] || s[i] == "URN:UUID:"[i])
          && Spells(s[9..], u))
      || (|s| == 38 && s[0] as int < 128 && s[37] as int < 128 && Spells(s[1..37], u))
      || SpellsDigits(s, u)
  {
    hide Spells, ParseCore;
    if |s| == 36 {
      CoreMeans(s, u);
      assert s[..36] == s;
    } else if |s| == 45 {
      CoreMeans(s[9..], u);
      assert s[9..][..36] == s[9..];
      UrnMeans(s);
    } else if |s| == 38 {
      CoreMeans(s[1..], u);
      assert s[1..][..36] == s[1..37];
    } else if |s| == 32 {
      BareMeans(s, u);
    }
    SpellsLength(s, u);
  }

  lemma SpellsLength(s: string, u: Uuid)
    ensures Spells(s, u) ==> |s| == 36
  {}

  lemma UrnMeans(s: string)
    requires |s| == 45
    ensures IsUrnPrefix(s) <==> forall i :: 0 <= i < 9 ==> s[i] == "urn:uuid:"[i] || s[i] == "URN:UUID:"[i]
  {
    forall i | 0 <= i < 9
      ensures LowerCase(s[i]) == "urn:uuid:"[i] <==> s[i] == "urn:uuid:"[i] || s[i] == "URN:UUID:"[i]
    {}
  }

  lemma BareMeans(s: string, u: Uuid)
    requires |s| == 32
    ensures Parse(s) == Some(u) <==> SpellsDigits(s, u)
  {
    forall n: Nibble, c: char
      ensures IsHex(c) && HexValue(c) == n <==> c == LOWER_DIGITS[n] || c == UPPER_DIGITS[n]
    {
      HexDigitsMean(n, c);
    }
    hide IsHex, HexValue, LOWER_DIGITS, UPPER_DIGITS;
    if SpellsDigits(s, u) {
      var parsed := Parse(s).value;
      assert forall k :: 0 <= k < 32 ==> parsed[k] == u[k];
      assert parsed == u;
    }
  }

  // ----- Deterministic UUIDs --------------------------------------------------------------

  /** 16^12, the number of texts that the 12-digit encoder can produce. */
  const CAPACITY: nat := 0x1_0000_0000_0000

  function Pow16(k: nat): (p: nat)
    ensures p > 0
  {
    if k == 0 then 1 else 16 * Pow16(k - 1)
  }

  /** Digit j of n in base 16, counted from the least significant. */
  function Digit16(n: nat, j: nat): Nibble
  {
    if j == 0 then n % 16 else Digit16(n / 16, j - 1)
  }

  /** The last k base-16 digits of n, most significant first. */
  function HexFixed(n: nat, k: nat): (s: string)
    ensures |s| == k
  {
    seq(k, i requires 0 <= i < k => HexDigit(Digit16(n, k - 1 - i)))
  }

  lemma HexFixedStep(n: nat, k: nat)
    requires k > 0
    ensures HexFixed(n, k) == HexFixed(n / 16, k - 1) + [HexDigit(n % 16)]
  {
    var s, t := HexFixed(n, k), HexFixed(n / 16, k - 1);
    forall i | 0 <= i < k - 1
      ensures s[i] == t[i]
    {
      assert Digit16(n, k - 1 - i) == Digit16(n / 16, k - 1 - i - 1);
    }
    assert s[k - 1] == HexDigit(Digit16(n, 0));
  }

  predicate AllLowerHex(s: string)
  {
    forall i :: 0 <= i < |s| ==> IsLowerHex(s[i])
  }

  /** What a digit string denotes in base 16. */
  function HexNumber(s: string): nat
    requires AllLowerHex(s)
  {
    if s == "" then 0 else 16 * HexNumber(s[..|s| - 1]) + HexValue(s[|s| - 1])
  }

  lemma ModuloShift(n: nat, m: nat)
    requires m > 0
    ensures n % (16 * m) == 16 * (n / 16 % m) + n % 16
  {
    var q := n / 16;
    var r := q % m;
    assert n == 16 * q + n % 16 && q == m * (q / m) + r;
    assert n == (16 * m) * (q / m) + (16 * r + n % 16) by {
      assert 16 * (m * (q / m)) == (16 * m) * (q / m);
    }
    assert 0 <= 16 * r + n % 16 < 16 * m;
    DivisionUnique(n, 16 * m, q / m, 16 * r + n % 16);
  }

  lemma DivisionUnique(n: int, m: int, q: int, r: int)
    requires m > 0 && n == m * q + r && 0 <= r < m
    ensures n % m == r
  {
    var q', r' := n / m, n % m;
    assert m * q' + r' == m * q + r;
    if q > q' {
      ProductGap(m, q, q');
    } else if q < q' {
      ProductGap(m, q', q);
    }
  }

  lemma {:induction false} ProductGap(m: int, a: int, b: int)
    requires m > 0 && a > b
    ensures m * a >= m * b + m
    decreases a - b
  {
    assert m * a == m * (a - 1) + m;
    if a - 1 > b {
      ProductGap(m, a - 1, b);
    }
  }

  /** The encoder is exact: the digits denote n modulo 16^k. */
  lemma {:induction false} HexFixedDenotes(n: nat, k: nat)
    ensures AllLowerHex(HexFixed(n, k)) && HexNumber(HexFixed(n, k)) == n % Pow16(k)
  {
    if k > 0 {
      HexFixedStep(n, k);
      HexFixedDenotes(n / 16, k - 1);
      HexDigitRoundTrip(n % 16);
      var s := HexFixed(n, k);
      assert s[..k - 1] == HexFixed(n / 16, k - 1);
      ModuloShift(n, Pow16(k - 1));
    }
  }

  lemma {:induction false} HexFixedOfModulo(n: nat, k: nat)
    ensures HexFixed(n, k) == HexFixed(n % Pow16(k), k)
  {
    if k > 0 {
      var p := Pow16(k - 1);
      ModuloShift(n, p);
      var m := n % (16 * p);
      assert m / 16 == n / 16 % p && m % 16 == n % 16;
      HexFixedOfModulo(n / 16, k - 1);
      HexFixedStep(n, k);
      HexFixedStep(m, k);
    }
  }

  lemma CapacityIsPow16()
    ensures Pow16(12) == CAPACITY
  {
    assert Pow16(4) == 0x1_0000;
    assert Pow16(8) == 0x1_0000_0000;
  }

  /** pad12: fills a 12-byte buffer from the right with the base-16 digits of n. */
  method Pad12(n: nat) returns (s: string)
    ensures s == HexFixed(n, 12)
  {
    var buf := new char[12](_ => '0');
    var rest := n;
    var i := 11;
    while i >= 0
      invariant -1 <= i <= 11
      invariant HexFixed(n, 12) == HexFixed(rest, i + 1) + buf[i + 1..]
    {
      ghost var tail := buf[i + 1..];
      HexFixedStep(rest, i + 1);
      buf[i] := HexDigit(rest % 16);
      assert buf[i..] == [HexDigit(rest % 16)] + tail;
      rest := rest / 16;
      i := i - 1;
    }
    s := buf[..];
  }

  const UUID_PREFIX: string := "00000000-0000-4000-8000-"

  /** formatUUID: a fixed version and variant, then the 12-digit encoding. */
  function FormatUuid(n: nat): (s: string)
    ensures |s| == 36
  {
    UUID_PREFIX + HexFixed(n, 12)
  }

  /** The text is canonical: the fixed version and variant, and then 12 digits that denote n modulo 16^12. */
  lemma FormatUuidIsCanonical(n: nat)
    ensures Canonical(FormatUuid(n))
    ensures FormatUuid(n)[..24] == "00000000-0000-4000-8000-" && AllLowerHex(FormatUuid(n)[24..])
    ensures HexNumber(FormatUuid(n)[24..]) == n % 0x1_0000_0000_0000
  {
    HexFixedDenotes(n, 12);
    CapacityIsPow16();
    assert FormatUuid(n)[24..] == HexFixed(n, 12);
    var s := FormatUuid(n);
    forall i | 24 <= i < 36
      ensures IsLowerHex(s[i])
    {
      assert s[i] == HexFixed(n, 12)[i - 24];
    }
  }

  /** Two counters give the same UUID exactly when they agree modulo 16^12. */
  lemma FormatUuidCollision(m: nat, n: nat)
    ensures FormatUuid(m) == FormatUuid(n) <==> m % CAPACITY == n % CAPACITY
  {
    CapacityIsPow16();
    HexFixedOfModulo(m, 12);
    HexFixedOfModulo(n, 12);
    HexFixedDenotes(m, 12);
    HexFixedDenotes(n, 12);
    assert FormatUuid(m)[24..] == HexFixed(m, 12);
    assert FormatUuid(n)[24..] == HexFixed(n, 12);
  }
}
