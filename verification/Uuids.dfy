/** UUIDs as 32 hexadecimal digits, with the text forms that the uuid crate prints and parses. */
module Uuids {
  import opened Wrappers
  import opened Text

  type Nibble = x: int | 0 <= x < 16
  type Uuid = u: seq<Nibble> | |u| == 32 witness ZERO_DIGITS

  const ZERO_DIGITS: seq<Nibble> :=
    [0, 0, 0, 0, 0, 0, 0, 0, 0, 0, 0, 0, 0, 0, 0, 0, 0, 0, 0, 0, 0, 0, 0, 0, 0, 0, 0, 0, 0, 0, 0, 0]

  function HexDigit(n: Nibble): char {
    if n < 10 then '0' + n as char else 'a' + (n - 10) as char
  }

  function HexValue(c: char): Option<Nibble> {
    if '0' <= c <= '9' then Some(c as int - '0' as int)
    else if 'a' <= c <= 'f' then Some(c as int - 'a' as int + 10)
    else if 'A' <= c <= 'F' then Some(c as int - 'A' as int + 10)
    else None
  }

  function Hex(u: seq<Nibble>): (r: string)
    ensures |r| == |u|
    ensures forall i :: 0 <= i < |u| ==> r[i] == HexDigit(u[i])
  {
    seq(|u|, i requires 0 <= i < |u| => HexDigit(u[i]))
  }

  function ParseHex(s: string): (r: Option<seq<Nibble>>)
    ensures r.Some? ==> |r.value| == |s|
  {
    if s == "" then Some([])
    else
      match (HexValue(s[0]), ParseHex(s[1..]))
      case (Some(n), Some(rest)) => Some([n] + rest)
      case _ => None
  }

  /** The canonical lower-case hyphenated form. */
  function Format(u: Uuid): (r: string)
    ensures |r| == 36
  {
    Hex(u[..8]) + "-" + Hex(u[8..12]) + "-" + Hex(u[12..16]) + "-" + Hex(u[16..20]) + "-" + Hex(u[20..])
  }

  function ParseHyphenated(s: string): Option<Uuid>
    requires |s| == 36
  {
    if s[8] == '-' && s[13] == '-' && s[18] == '-' && s[23] == '-'
    then ParseHex(s[..8] + s[9..13] + s[14..18] + s[19..23] + s[24..])
    else None
  }

  /** All accepted spellings: simple, hyphenated, braced and URN, in either letter case. */
  function Parse(s: string): Option<Uuid> {
    if |s| == 32 then ParseHex(s)
    else if |s| == 36 then ParseHyphenated(s)
    else if |s| == 38 && s[0] == '{' && s[37] == '}' then ParseHyphenated(s[1..37])
    else if |s| == 45 && s[..9] == "urn:uuid:" then ParseHyphenated(s[9..])
    else None
  }

  lemma {:induction false} ParseHexOfHex(u: seq<Nibble>)
    ensures ParseHex(Hex(u)) == Some(u)
  {
    if u != [] {
      assert Hex(u)[1..] == Hex(u[1..]);
      ParseHexOfHex(u[1..]);
      assert HexValue(HexDigit(u[0])) == Some(u[0]);
      assert u == [u[0]] + u[1..];
    }
  }

  /** A part of a text that is followed by a hyphen. */
  lemma FirstPart(part: string, rest: string, s: string)
    requires s == part + ("-" + rest)
    ensures |s| == |part| + 1 + |rest| && s[..|part|] == part && s[|part|] == '-' && s[|part| + 1..] == rest
  {}

  lemma NextPart(s: string, from: nat, part: string, rest: string)
    requires from <= |s| && s[from..] == part + ("-" + rest)
    ensures |s| == from + |part| + 1 + |rest| && s[from..from + |part|] == part && s[from + |part|] == '-'
    ensures s[from + |part| + 1..] == rest
  {
    FirstPart(part, rest, s[from..]);
    assert s[from..][..|part|] == s[from..from + |part|] && s[from..][|part| + 1..] == s[from + |part| + 1..];
  }

  lemma {:induction false} HexConcat(a: seq<Nibble>, b: seq<Nibble>)
    ensures Hex(a + b) == Hex(a) + Hex(b)
  {}

  /** The five parts of the canonical form, last part first. */
  lemma FormatParts(u: Uuid)
    ensures var s := Format(u);
      && s[..8] == Hex(u[..8]) && s[8] == '-' && s[9..13] == Hex(u[8..12]) && s[13] == '-'
        && s[14..18] == Hex(u[12..16])
      && s[18] == '-' && s[19..23] == Hex(u[16..20]) && s[23] == '-' && s[24..] == Hex(u[20..])
  {
    var s, e := Format(u), Hex(u[20..]);
    var d := Hex(u[16..20]) + ("-" + e);
    var c := Hex(u[12..16]) + ("-" + d);
    var b := Hex(u[8..12]) + ("-" + c);
    assert s == Hex(u[..8]) + ("-" + b);
    FirstPart(Hex(u[..8]), b, s);
    NextPart(s, 9, Hex(u[8..12]), c);
    NextPart(s, 14, Hex(u[12..16]), d);
    NextPart(s, 19, Hex(u[16..20]), e);
  }

  lemma HexParts(u: Uuid)
    ensures Hex(u[..8]) + Hex(u[8..12]) + Hex(u[12..16]) + Hex(u[16..20]) + Hex(u[20..]) == Hex(u)
  {
    HexConcat(u[..8], u[8..12]);
    HexConcat(u[..8] + u[8..12], u[12..16]);
    HexConcat(u[..8] + u[8..12] + u[12..16], u[16..20]);
    HexConcat(u[..8] + u[8..12] + u[12..16] + u[16..20], u[20..]);
    assert u == u[..8] + u[8..12] + u[12..16] + u[16..20] + u[20..];
  }

  /** Printing and parsing a UUID loses nothing. */
  lemma ParseFormat(u: Uuid)
    ensures Parse(Format(u)) == Some(u)
  {
    FormatParts(u);
    HexParts(u);
    ParseHexOfHex(u);
  }

  lemma FormatInjective(a: Uuid, b: Uuid)
    requires Format(a) == Format(b)
    ensures a == b
  {
    ParseFormat(a);
    ParseFormat(b);
  }

  // ---------- which texts are UUIDs ----------

  /** With the hexadecimal digits in small letters. */
  function Lower(s: string): (r: string)
    ensures |r| == |s|
    ensures forall i :: 0 <= i < |s| ==> r[i] == if 'A' <= s[i] <= 'F' then 'a' + (s[i] - 'A') else s[i]
  {
    seq(|s|, i requires 0 <= i < |s| => if 'A' <= s[i] <= 'F' then 'a' + (s[i] - 'A') else s[i])
  }

  lemma DigitIff(c: char, n: Nibble)
    ensures HexValue(c) == Some(n) <==> (if 'A' <= c <= 'F' then 'a' + (c - 'A') else c) == HexDigit(n)
  {}

  /** Digit by digit. */
  lemma {:induction false} ParseHexAt(s: string, u: seq<Nibble>)
    requires |u| == |s|
    ensures ParseHex(s) == Some(u) <==> forall i :: 0 <= i < |s| ==> HexValue(s[i]) == Some(u[i])
  {
    if s != "" {
      ParseHexAt(s[1..], u[1..]);
      assert u == [u[0]] + u[1..];
      assert forall i :: 0 < i < |s| ==> s[i] == s[1..][i - 1] && u[i] == u[1..][i - 1];
    }
  }

  lemma SameDigits(s: string, u: seq<Nibble>)
    requires |u| == |s|
    ensures Lower(s) == Hex(u) <==> forall i :: 0 <= i < |s| ==> HexValue(s[i]) == Some(u[i])
  {
    forall i | 0 <= i < |s| ensures HexValue(s[i]) == Some(u[i]) <==> Lower(s)[i] == Hex(u)[i] {
      DigitIff(s[i], u[i]);
    }
  }

  lemma ParseHexIff(s: string, u: seq<Nibble>)
    ensures ParseHex(s) == Some(u) <==> Lower(s) == Hex(u)
  {
    if |u| == |s| {
      ParseHexAt(s, u);
      SameDigits(s, u);
    }
  }

  /** The digits of a hyphenated text, without the hyphens. */
  function Digits(s: string): string
    requires |s| == 36
  {
    s[..8] + s[9..13] + s[14..18] + s[19..23] + s[24..]
  }

  lemma LowerDigits(s: string)
    requires |s| == 36
    ensures Lower(Digits(s)) == Digits(Lower(s))
  {}

  lemma FormatDigits(u: Uuid)
    ensures Digits(Format(u)) == Hex(u)
    ensures Format(u)[8] == '-' && Format(u)[13] == '-' && Format(u)[18] == '-' && Format(u)[23] == '-'
  {
    FormatParts(u);
    HexParts(u);
  }

  lemma SameText(a: string, b: string)
    requires |a| == 36 && |b| == 36 && Digits(a) == Digits(b)
    requires a[8] == b[8] && a[13] == b[13] && a[18] == b[18] && a[23] == b[23]
    ensures a == b
  {
    var x, y := Digits(a), Digits(b);
    assert a[..8] == x[..8] && a[9..13] == x[8..12] && a[14..18] == x[12..16] && a[19..23] == x[16..20];
    assert b[..8] == y[..8] && b[9..13] == y[8..12] && b[14..18] == y[12..16] && b[19..23] == y[16..20];
    assert a[24..] == x[20..] && b[24..] == y[20..];
    assert a == a[..8] + [a[8]] + a[9..13] + [a[13]] + a[14..18] + [a[18]] + a[19..23] + [a[23]] + a[24..];
    assert b == b[..8] + [b[8]] + b[9..13] + [b[13]] + b[14..18] + [b[18]] + b[19..23] + [b[23]] + b[24..];
  }

  lemma ParseHyphenatedIff(s: string, u: Uuid)
    requires |s| == 36
    ensures ParseHyphenated(s) == Some(u) <==> Lower(s) == Format(u)
  {
    ParseHexIff(Digits(s), u);
    LowerDigits(s);
    FormatDigits(u);
    if ParseHyphenated(s) == Some(u) {
      SameText(Lower(s), Format(u));
    }
  }

  /** The digits alone, the hyphenated form, that in braces, and that as a URN; letters of either case for digits. */
  lemma ParsesExactly(s: string, u: Uuid)
    ensures Parse(s) == Some(u) <==>
      || Lower(s) == Hex(u) || Lower(s) == Format(u) || Lower(s) == "{" + Format(u) + "}"
      || ("urn:uuid:" <= s && Lower(s) == "urn:uuid:" + Format(u))
  {
    if |s| == 32 {
      ParseHexIff(s, u);
    } else if |s| == 36 {
      ParseHyphenatedIff(s, u);
    } else if |s| == 38 {
      ParseHyphenatedIff(s[1..37], u);
      BracedIff(s, Format(u));
    } else if |s| == 45 {
      ParseHyphenatedIff(s[9..], u);
      UrnIff(s, Format(u));
    }
  }

  lemma BracedIff(s: string, t: string)
    requires |s| == 38 && |t| == 36
    ensures Lower(s) == "{" + t + "}" <==> s[0] == '{' && s[37] == '}' && Lower(s[1..37]) == t
  {
    assert Lower(s)[1..37] == Lower(s[1..37]);
    assert ("{" + t + "}")[1..37] == t;
    assert Lower(s) == [Lower(s)[0]] + Lower(s)[1..37] + [Lower(s)[37]];
  }

  lemma UrnIff(s: string, t: string)
    requires |s| == 45 && |t| == 36
    ensures "urn:uuid:" <= s && Lower(s) == "urn:uuid:" + t <==> s[..9] == "urn:uuid:" && Lower(s[9..]) == t
  {
    assert Lower(s)[9..] == Lower(s[9..]) && Lower(s)[..9] == Lower(s[..9]);
    assert ("urn:uuid:" + t)[9..] == t && Lower("urn:uuid:") == "urn:uuid:";
    assert Lower(s) == Lower(s)[..9] + Lower(s)[9..];
  }

  predicate IsUuidChar(c: char) {
    '0' <= c <= '9' || 'a' <= c <= 'f' || c == '-'
  }

  lemma FormatChars(u: Uuid)
    ensures forall i :: 0 <= i < 36 ==> IsUuidChar(Format(u)[i])
    ensures forall sep: char :: !IsUuidChar(sep) ==> !Contains(Format(u), sep)
  {
    assert forall n: Nibble :: IsUuidChar(HexDigit(n));
  }
}
