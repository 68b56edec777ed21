/** Numbers, bytes and UUIDs as text: the printing and reading that payload strings and KDF labels rely on. */
module Text {
  import opened Prelude

  // ---------------------------------------------------------------------------
  // Separators
  // ---------------------------------------------------------------------------

  /** Text before the first separator is determined by the whole. */
  lemma {:induction false} CutUnique(a: string, b: string, x: string, y: string, c: char)
    requires c !in a && c !in b && a + [c] + x == b + [c] + y
    ensures a == b && x == y
    decreases |a|
  {
    var s, t := a + [c] + x, b + [c] + y;
    assert s[0] == (if a == [] then c else a[0]) && t[0] == (if b == [] then c else b[0]);
    if a == [] || b == [] {
      assert a == [] && b == [];
      assert s[1..] == x && t[1..] == y;
    } else {
      assert s[1..] == a[1..] + [c] + x && t[1..] == b[1..] + [c] + y;
      CutUnique(a[1..], b[1..], x, y, c);
    }
  }

  function IndexOf(s: string, c: char): (k: nat)
    requires c in s
    ensures k < |s| && s[k] == c && c !in s[..k]
  {
    if s[0] == c then 0 else 1 + IndexOf(s[1..], c)
  }

  /** `str::split`: never empty, and a separator at either end gives an empty piece. */
  function Split(s: string, c: char): (pieces: seq<string>)
    ensures pieces != []
    decreases |s|
  {
    if c !in s then [s]
    else var k := IndexOf(s, c); [s[..k]] + Split(s[k + 1..], c)
  }

  lemma SplitCuts(a: string, rest: string, c: char)
    requires c !in a
    ensures Split(a + [c] + rest, c) == [a] + Split(rest, c)
  {
    var s := a + [c] + rest;
    assert s[|a|] == c;
    var k := IndexOf(s, c);
    assert s == s[..k] + [c] + s[k + 1..];
    CutUnique(s[..k], a, s[k + 1..], rest, c);
  }

  // ---------------------------------------------------------------------------
  // Hexadecimal
  // ---------------------------------------------------------------------------

  function HexDigit(d: nat): char
    requires d < 16
  {
    (if d < 10 then '0' as int + d else 'a' as int + d - 10) as char
  }

  /** Either case is read. */
  function HexValue(c: char): (v: Option<nat>)
    ensures v.Some? ==> v.value < 16
  {
    if '0' <= c <= '9' then Some(c as int - '0' as int)
    else if 'a' <= c <= 'f' then Some(c as int - 'a' as int + 10)
    else if 'A' <= c <= 'F' then Some(c as int - 'A' as int + 10)
    else None
  }

  function Hex(b: Bytes): (s: string)
    ensures |s| == 2 * |b|
  {
    if b == [] then "" else [HexDigit(b[0] / 16), HexDigit(b[0] % 16)] + Hex(b[1..])
  }

  function UnHex(s: string): (b: Option<Bytes>)
    ensures b.Some? ==> 2 * |b.value| == |s|
  {
    if s == "" then Some([])
    else if |s| == 1 then None
    else match (HexValue(s[0]), HexValue(s[1]), UnHex(s[2..]))
      case (Some(h), Some(l), Some(rest)) => Some([h * 16 + l] + rest)
      case _ => None
  }

  /** Lower-case digits, highest first. */
  lemma {:induction false} HexAt(b: Bytes, i: nat)
    requires i < |b|
    ensures Hex(b)[2 * i] == "0123456789abcdef"[b[i] / 16] && Hex(b)[2 * i + 1] == "0123456789abcdef"[b[i] % 16]
  {
    if i > 0 {
      HexAt(b[1..], i - 1);
      assert Hex(b)[2..] == Hex(b[1..]);
    }
  }

  /** Digits are read in either case, and nothing else is. */
  lemma HexValueIff(c: char, d: nat)
    requires d < 16
    ensures HexValue(c) == Some(d) <==> c == "0123456789abcdef"[d] || c == "0123456789ABCDEF"[d]
  {
  }

  lemma HexDigitRead(d: nat)
    requires d < 16
    ensures HexValue(HexDigit(d)) == Some(d)
  {
  }

  lemma {:induction false} HexRoundTrip(b: Bytes)
    ensures UnHex(Hex(b)) == Some(b)
  {
    if b != [] {
      HexRoundTrip(b[1..]);
      HexDigitRead(b[0] / 16);
      HexDigitRead(b[0] % 16);
      assert Hex(b)[2..] == Hex(b[1..]);
      assert b[0] / 16 * 16 + b[0] % 16 == b[0];
      assert [b[0]] + b[1..] == b;
    }
  }

  lemma {:induction false} HexPlain(b: Bytes, c: char)
    requires HexValue(c).None?
    ensures c !in Hex(b)
  {
    if b != [] { HexPlain(b[1..], c); }
  }

  lemma HexInjective(a: Bytes, b: Bytes)
    requires Hex(a) == Hex(b)
    ensures a == b
  {
    HexRoundTrip(a);
    HexRoundTrip(b);
  }

  // ---------------------------------------------------------------------------
  // Decimal
  // ---------------------------------------------------------------------------

  function Decimal(n: nat): (s: string)
    ensures s != ""
  {
    if n < 10 then [HexDigit(n)] else Decimal(n / 10) + [HexDigit(n % 10)]
  }

  predicate IsDigit(c: char) {
    '0' <= c <= '9'
  }

  function ReadDecimal(s: string): Option<nat> {
    if s == "" then Some(0)
    else
      var last := s[|s| - 1];
      match ReadDecimal(s[..|s| - 1])
      case Some(n) => if IsDigit(last) then Some(10 * n + (last as int - '0' as int)) else None
      case None => None
  }

  lemma {:induction false} DecimalRoundTrip(n: nat)
    ensures ReadDecimal(Decimal(n)) == Some(n)
  {
    if n < 10 {
      assert Decimal(n)[..0] == "";
    } else {
      DecimalRoundTrip(n / 10);
      assert Decimal(n)[..|Decimal(n)| - 1] == Decimal(n / 10);
    }
  }

  /** One more digit at the end is ten times the number and that digit; no number begins with a zero but zero. */
  lemma DecimalShifts(n: nat, d: nat)
    requires d < 10
    ensures Decimal(d) == ["0123456789"[d]]
    ensures n > 0 ==> Decimal(10 * n + d) == Decimal(n) + ["0123456789"[d]]
  {
  }

  lemma {:induction false} DecimalPlain(n: nat, c: char)
    requires !IsDigit(c)
    ensures c !in Decimal(n)
  {
    if n >= 10 { DecimalPlain(n / 10, c); }
  }

  const I64_MIN: int := -0x8000_0000_0000_0000
  const I64_MAX: int := 0x7fff_ffff_ffff_ffff

  type i64 = n: int | -0x8000_0000_0000_0000 <= n <= 0x7fff_ffff_ffff_ffff

  function PrintI64(n: i64): string {
    var m: int := n;
    if m < 0 then "-" + Decimal(-m) else Decimal(m)
  }

  function InRange(n: int): Option<i64> {
    if I64_MIN <= n <= I64_MAX then Some(n) else None
  }

  /** `i64::from_str`: an optional sign, at least one digit, nothing else, and no overflow. */
  function ParseI64(s: string): Option<i64> {
    if s == "" then None
    else
      var signed := s[0] == '-' || s[0] == '+';
      var digits := if signed then s[1..] else s;
      if digits == "" then None
      else match ReadDecimal(digits)
        case Some(n) => InRange(if s[0] == '-' then 0 - n as int else n)
        case None => None
  }

  /** A sign is optional in front of a number, and a number that does not fit is refused. */
  lemma I64ReadIff(n: nat)
    ensures ParseI64(Decimal(n)) == ParseI64("+" + Decimal(n))
                == if n <= 0x7fff_ffff_ffff_ffff then Some(n) else None
    ensures ParseI64("-" + Decimal(n)) == if n <= 0x8000_0000_0000_0000 then Some(0 - n as int) else None
  {
    UnsignedRead(n);
    SignedRead(n, '+');
    SignedRead(n, '-');
  }

  lemma UnsignedRead(n: nat)
    ensures ParseI64(Decimal(n)) == InRange(n)
  {
    DecimalRoundTrip(n);
    DecimalPlain(n, '-');
    DecimalPlain(n, '+');
    assert Decimal(n)[0] in Decimal(n);
  }

  lemma SignedRead(n: nat, sign: char)
    requires sign == '+' || sign == '-'
    ensures ParseI64([sign] + Decimal(n)) == InRange(if sign == '-' then 0 - n as int else n)
  {
    DecimalRoundTrip(n);
    assert ([sign] + Decimal(n))[1..] == Decimal(n);
  }

  lemma I64RoundTrip(n: i64)
    ensures ParseI64(PrintI64(n)) == Some(n)
    ensures '.' !in PrintI64(n)
  {
    var m: nat := if n < 0 then 0 - n as int else n;
    DecimalRoundTrip(m);
    DecimalPlain(m, '.');
    if n < 0 {
      assert PrintI64(n)[1..] == Decimal(m);
    } else {
      DecimalPlain(m, '-');
      DecimalPlain(m, '+');
      assert Decimal(m)[0] in Decimal(m);
    }
  }

  // ---------------------------------------------------------------------------
  // UUIDs
  // ---------------------------------------------------------------------------

  type Uuid = u: Bytes | |u| == 16 witness seq(16, _ => 0)

  /** The hyphenated form, groups of 4, 2, 2, 2 and 6 bytes. */
  function PrintUuid(u: Uuid): (s: string)
    ensures |s| == 36
  {
    Hex(u[..4]) + "-" + Hex(u[4..6]) + "-" + Hex(u[6..8]) + "-" + Hex(u[8..10]) + "-" + Hex(u[10..])
  }

  function ParseHyphenated(s: string): Option<Uuid>
    requires |s| == 36
  {
    if s[8] == '-' && s[13] == '-' && s[18] == '-' && s[23] == '-'
    then UnHexUuid(s[..8] + s[9..13] + s[14..18] + s[19..23] + s[24..])
    else None
  }

  function UnHexUuid(s: string): Option<Uuid>
    requires |s| == 32
  {
    match UnHex(s)
    case Some(b) => Some(b)
    case None => None
  }

  /** The plain, hyphenated, braced and URN forms, told apart by length. */
  function ParseUuid(s: string): Option<Uuid> {
    if |s| == 32 then UnHexUuid(s)
    else if |s| == 36 then ParseHyphenated(s)
    else if |s| == 38 && s[0] == '{' && s[37] == '}' then ParseHyphenated(s[1..37])
    else if |s| == 45 && s[..9] == "urn:uuid:" then ParseHyphenated(s[9..])
    else None
  }

  lemma {:induction false} HexConcat(a: Bytes, b: Bytes)
    ensures Hex(a + b) == Hex(a) + Hex(b)
  {
    if a == [] {
      assert a + b == b;
    } else {
      HexConcat(a[1..], b);
      assert (a + b)[1..] == a[1..] + b;
    }
  }

  lemma HexOfParts(u: Uuid)
    ensures Hex(u[..4]) + Hex(u[4..6]) + Hex(u[6..8]) + Hex(u[8..10]) + Hex(u[10..]) == Hex(u)
  {
    var a, b, c, d, e := u[..4], u[4..6], u[6..8], u[8..10], u[10..];
    HexConcat(a, b);
    HexConcat(a + b, c);
    HexConcat(a + b + c, d);
    HexConcat(a + b + c + d, e);
    assert a + b + c + d + e == u;
  }

  lemma HyphenatedRead(u: Uuid)
    ensures ParseHyphenated(PrintUuid(u)) == Some(u)
  {
    UuidLayout(u);
    HexRoundTrip(u);
  }

  /** All four spellings of a UUID are read. */
  lemma UuidSpellingsRead(u: Uuid)
    ensures ParseUuid(Hex(u)) == ParseUuid(PrintUuid(u)) == Some(u)
    ensures ParseUuid("{" + PrintUuid(u) + "}") == ParseUuid("urn:uuid:" + PrintUuid(u)) == Some(u)
  {
    HexRoundTrip(u);
    HyphenatedRead(u);
    BracedRead(PrintUuid(u));
    UrnRead(PrintUuid(u));
  }

  lemma BracedRead(s: string)
    requires |s| == 36
    ensures ParseUuid("{" + s + "}") == ParseHyphenated(s)
  {
    assert ("{" + s + "}")[1..37] == s;
  }

  lemma UrnRead(s: string)
    requires |s| == 36
    ensures ParseUuid("urn:uuid:" + s) == ParseHyphenated(s)
  {
    assert ("urn:uuid:" + s)[..9] == "urn:uuid:" && ("urn:uuid:" + s)[9..] == s;
  }

  /** Hyphens after eight, four, four and four digits; the digits are those of the sixteen bytes in order. */
  lemma UuidLayout(u: Uuid)
    ensures var s := PrintUuid(u);
            && s[8] == s[13] == s[18] == s[23] == '-'
            && s[..8] + s[9..13] + s[14..18] + s[19..23] + s[24..] == Hex(u)
  {
    HexOfParts(u);
    HyphensBetween(Hex(u[..4]), Hex(u[4..6]), Hex(u[6..8]), Hex(u[8..10]), Hex(u[10..]));
  }

  lemma HyphensBetween(a: string, b: string, c: string, d: string, e: string)
    requires |a| == 8 && |b| == |c| == |d| == 4
    ensures var s := a + "-" + b + "-" + c + "-" + d + "-" + e;
            && s[8] == s[13] == s[18] == s[23] == '-'
            && s[..8] == a && s[9..13] == b && s[14..18] == c && s[19..23] == d && s[24..] == e
  {
  }

  lemma UuidRoundTrip(u: Uuid)
    ensures ParseUuid(PrintUuid(u)) == Some(u)
    ensures '.' !in PrintUuid(u)
  {
    HyphenatedRead(u);
    HexPlain(u[..4], '.');
    HexPlain(u[4..6], '.');
    HexPlain(u[6..8], '.');
    HexPlain(u[8..10], '.');
    HexPlain(u[10..], '.');
  }
}
