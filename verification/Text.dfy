/** String splitting, joining and trimming as the source uses them. */
module Text {
  predicate Contains(s: string, c: char) {
    exists i :: 0 <= i < |s| && s[i] == c
  }

  /** The pieces of `s` between separators; there is always at least one. */
  function Split(s: string, sep: char): (r: seq<string>)
    ensures |r| > 0
    ensures forall i :: 0 <= i < |r| ==> !Contains(r[i], sep)
  {
    if s == "" then [""]
    else
      var rest := Split(s[1..], sep);
      if s[0] == sep then [""] + rest else [[s[0]] + rest[0]] + rest[1..]
  }

  function Join(parts: seq<string>, sep: char): string {
    if parts == [] then ""
    else if |parts| == 1 then parts[0]
    else parts[0] + [sep] + Join(parts[1..], sep)
  }

  lemma {:induction false} JoinSplit(s: string, sep: char)
    ensures Join(Split(s, sep), sep) == s
  {
    if s != "" {
      var rest := Split(s[1..], sep);
      JoinSplit(s[1..], sep);
      if s[0] != sep {
        assert Split(s, sep)[1..] == rest[1..];
      } else {
        assert Split(s, sep)[1..] == rest;
      }
    }
  }

  lemma {:induction false} SplitCons(part: string, rest: string, sep: char)
    requires !Contains(part, sep)
    ensures Split(part + [sep] + rest, sep) == [part] + Split(rest, sep)
  {
    var s := part + [sep] + rest;
    if part == "" {
      assert s[0] == sep && s[1..] == rest;
    } else {
      assert part[0] == s[0] && s[0] != sep;
      assert s[1..] == part[1..] + [sep] + rest;
      forall i | 0 <= i < |part[1..]| ensures part[1..][i] != sep {
        assert part[1..][i] == part[i + 1];
      }
      SplitCons(part[1..], rest, sep);
      var r := [part[1..]] + Split(rest, sep);
      assert r[1..] == Split(rest, sep) && [s[0]] + r[0] == part;
    }
  }

  lemma {:induction false} SplitPlain(s: string, sep: char)
    requires !Contains(s, sep)
    ensures Split(s, sep) == [s]
  {
    if s != "" {
      assert s[0] != sep;
      forall i | 0 <= i < |s[1..]| ensures s[1..][i] != sep {
        assert s[1..][i] == s[i + 1];
      }
      SplitPlain(s[1..], sep);
      assert [s[0]] + s[1..] == s;
    }
  }

  lemma SplitFour(a: string, b: string, c: string, d: string, sep: char)
    requires !Contains(a, sep) && !Contains(b, sep) && !Contains(c, sep) && !Contains(d, sep)
    ensures Split(a + [sep] + (b + [sep] + (c + [sep] + d)), sep) == [a, b, c, d]
  {
    SplitPlain(d, sep);
    SplitCons(c, d, sep);
    SplitCons(b, c + [sep] + d, sep);
    SplitCons(a, b + [sep] + (c + [sep] + d), sep);
  }

  lemma {:induction false} SplitJoin(parts: seq<string>, sep: char)
    requires parts != [] && forall i :: 0 <= i < |parts| ==> !Contains(parts[i], sep)
    ensures Split(Join(parts, sep), sep) == parts
  {
    if |parts| == 1 {
      SplitPlain(parts[0], sep);
    } else {
      SplitJoin(parts[1..], sep);
      SplitCons(parts[0], Join(parts[1..], sep), sep);
    }
  }

  /** The characters with Unicode's White_Space property, which `trim` removes. */
  predicate IsWhitespace(c: char) {
    || '\U{0009}' <= c <= '\U{000D}' || c == ' ' || c == '\U{0085}' || c == '\U{00A0}' || c == '\U{1680}'
    || '\U{2000}' <= c <= '\U{200A}' || c == '\U{2028}' || c == '\U{2029}' || c == '\U{202F}'
    || c == '\U{205F}' || c == '\U{3000}'
  }

  /** `trim` leaves nothing. */
  predicate IsBlank(s: string) {
    forall i :: 0 <= i < |s| ==> IsWhitespace(s[i])
  }

  function TrimStart(s: string): (r: string)
    ensures r == "" || !IsWhitespace(r[0])
    ensures r == "" <==> IsBlank(s)
  {
    if s != "" && IsWhitespace(s[0]) then TrimStart(s[1..]) else s
  }

  function TrimEnd(s: string): (r: string)
    ensures r <= s && (r == "" || !IsWhitespace(r[|r| - 1]))
    ensures r == "" <==> IsBlank(s)
  {
    if s != "" && IsWhitespace(s[|s| - 1]) then TrimEnd(s[..|s| - 1]) else s
  }

  /** Nothing is left exactly of blank strings, and what is left is never blank. */
  function Trim(s: string): (r: string)
    ensures r == "" <==> IsBlank(s)
    ensures r == "" || (!IsWhitespace(r[0]) && !IsBlank(r))
  {
    TrimEnd(TrimStart(s))
  }

  lemma {:induction false} TrimStartDropsBlank(s: string) returns (i: nat)
    ensures i <= |s| && TrimStart(s) == s[i..] && IsBlank(s[..i])
  {
    i := 0;
    if s != "" && IsWhitespace(s[0]) {
      var n := TrimStartDropsBlank(s[1..]);
      i := n + 1;
      assert s[..i] == [s[0]] + s[1..][..n] && s[1..][n..] == s[i..];
    }
  }

  lemma {:induction false} TrimEndDropsBlank(s: string)
    ensures IsBlank(s[|TrimEnd(s)|..])
  {
    if s != "" && IsWhitespace(s[|s| - 1]) {
      var front := s[..|s| - 1];
      TrimEndDropsBlank(front);
      assert s[|TrimEnd(s)|..] == front[|TrimEnd(s)|..] + [s[|s| - 1]];
    }
  }

  /** What is left is the inner part of the string, with white space at neither end and only white space around it. */
  lemma TrimIsInnerPart(s: string) returns (i: nat, j: nat)
    ensures i <= j <= |s| && Trim(s) == s[i..j] && IsBlank(s[..i]) && IsBlank(s[j..])
    ensures i < j ==> !IsWhitespace(s[i]) && !IsWhitespace(s[j - 1])
  {
    i := TrimStartDropsBlank(s);
    TrimEndDropsBlank(s[i..]);
    j := i + |Trim(s)|;
    assert s[i..][..j - i] == s[i..j] && s[i..][j - i..] == s[j..];
  }

  /** The decimal digits of a natural number. */
  function DecimalNat(n: nat): (r: string)
    ensures r != ""
    ensures forall i :: 0 <= i < |r| ==> '0' <= r[i] <= '9'
  {
    if n < 10 then ['0' + n as char] else DecimalNat(n / 10) + ['0' + (n % 10) as char]
  }

  function Decimal(n: int): string {
    if n < 0 then "-" + DecimalNat(-n) else DecimalNat(n)
  }

  lemma {:induction false} DecimalNatInjective(a: nat, b: nat)
    requires DecimalNat(a) == DecimalNat(b)
    ensures a == b
  {
    var x, y := DecimalNat(a), DecimalNat(b);
    assert x[|x| - 1] == '0' + (a % 10) as char && y[|y| - 1] == '0' + (b % 10) as char;
    assert a % 10 == b % 10;
    if a >= 10 && b >= 10 {
      assert x[..|x| - 1] == DecimalNat(a / 10) && y[..|y| - 1] == DecimalNat(b / 10);
      DecimalNatInjective(a / 10, b / 10);
    }
  }

  lemma DecimalSign(n: int)
    ensures Decimal(n) != "" && (Decimal(n)[0] == '-' <==> n < 0)
  {}

  lemma DecimalInjective(a: int, b: int)
    requires Decimal(a) == Decimal(b)
    ensures a == b
  {
    DecimalSign(a);
    DecimalSign(b);
    if a < 0 {
      assert Decimal(a)[1..] == DecimalNat(-a) && Decimal(b)[1..] == DecimalNat(-b);
      DecimalNatInjective(-a, -b);
    } else {
      DecimalNatInjective(a, b);
    }
  }
}
