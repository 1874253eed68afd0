/** The URL-safe base64 alphabet without padding (section 5 of RFC 4648), decoded strictly. */
module Base64Url {
  import opened ByteStrings
  import opened Wrappers

  type Sextet = x: int | 0 <= x < 64

  function Symbol(v: Sextet): char {
    if v < 26 then (65 + v) as char
    else if v < 52 then (97 + v - 26) as char
    else if v < 62 then (48 + v - 52) as char
    else if v == 62 then '-' else '_'
  }

  function SymbolValue(c: char): Option<Sextet> {
    if 'A' <= c <= 'Z' then Some(c as int - 65)
    else if 'a' <= c <= 'z' then Some(c as int - 97 + 26)
    else if '0' <= c <= '9' then Some(c as int - 48 + 52)
    else if c == '-' then Some(62)
    else if c == '_' then Some(63)
    else None
  }

  // A group of three bytes a, b, c is the four sextets below.

  function First(a: Byte): Sextet { a / 4 }
  function Second(a: Byte, b: Byte): Sextet { a % 4 * 16 + b / 16 }
  function Third(b: Byte, c: Byte): Sextet { b % 16 * 4 + c / 64 }
  function Fourth(c: Byte): Sextet { c % 64 }

  function High(w: Sextet, x: Sextet): Byte { w * 4 + x / 16 }
  function Middle(x: Sextet, y: Sextet): Byte { x % 16 * 16 + y / 4 }
  function Low(y: Sextet, z: Sextet): Byte { y % 4 * 64 + z }

  /** Six bits at a time, most significant first; the last group is filled up with zero bits. */
  function Sextets(b: Bytes): seq<Sextet> {
    if |b| == 0 then []
    else if |b| == 1 then [First(b[0]), Second(b[0], 0)]
    else if |b| == 2 then [First(b[0]), Second(b[0], b[1]), Third(b[1], 0)]
    else [First(b[0]), Second(b[0], b[1]), Third(b[1], b[2]), Fourth(b[2])] + Sextets(b[3..])
  }

  function Encode(b: Bytes): string {
    var v := Sextets(b);
    seq(|v|, i requires 0 <= i < |v| => Symbol(v[i]))
  }

  /** The sextets of a string of symbols. */
  function SymbolValues(s: string): Option<seq<Sextet>> {
    if s == "" then Some([])
    else match (SymbolValue(s[0]), SymbolValues(s[1..]))
         case (Some(v), Some(rest)) => Some([v] + rest)
         case _ => None
  }

  /** A lone last sextet and fill bits that are not zero are refused. */
  function FromSextets(v: seq<Sextet>): Option<Bytes> {
    if |v| == 0 then Some([])
    else if |v| == 1 then None
    else if |v| == 2 then if v[1] % 16 == 0 then Some([High(v[0], v[1])]) else None
    else if |v| == 3 then if v[2] % 4 == 0 then Some([High(v[0], v[1]), Middle(v[1], v[2])]) else None
    else
      match FromSextets(v[4..])
      case None => None
      case Some(rest) => Some([High(v[0], v[1]), Middle(v[1], v[2]), Low(v[2], v[3])] + rest)
  }

  function Decode(s: string): Option<Bytes> {
    match SymbolValues(s)
    case None => None
    case Some(v) => FromSextets(v)
  }

  /** Examples of section 10 of RFC 4648, and one with both special symbols. */
  lemma Examples()
    ensures Encode([]) == "" && Encode([102]) == "Zg" && Encode([102, 111]) == "Zm8"
    ensures Encode([102, 111, 111]) == "Zm9v" && Encode([251, 255]) == "-_8"
  {}

  lemma LongerExamples()
    ensures Encode([102, 111, 111, 98, 97, 114]) == "Zm9vYmFy"
  {
    assert [102, 111, 111, 98, 97, 114][3..] == [98, 97, 114];
  }

  // ---------- strict decoding is the exact inverse ----------

  lemma SymbolRoundTrip(v: Sextet)
    ensures SymbolValue(Symbol(v)) == Some(v)
  {}

  lemma ValueRoundTrip(c: char)
    requires SymbolValue(c).Some?
    ensures Symbol(SymbolValue(c).value) == c
  {}

  lemma HighRoundTrip(a: Byte, b: Byte)
    ensures High(First(a), Second(a, b)) == a
  {}

  lemma GroupRoundTrip(a: Byte, b: Byte, c: Byte)
    ensures High(First(a), Second(a, b)) == a && Middle(Second(a, b), Third(b, c)) == b
    ensures Low(Third(b, c), Fourth(c)) == c
  {}

  lemma FillIsZero(a: Byte)
    ensures Second(a, 0) % 16 == 0 && Third(a, 0) % 4 == 0
  {}

  lemma SextetRoundTrip(w: Sextet, x: Sextet, y: Sextet, z: Sextet)
    ensures First(High(w, x)) == w && Second(High(w, x), Middle(x, y)) == x
    ensures Third(Middle(x, y), Low(y, z)) == y && Fourth(Low(y, z)) == z
    ensures x % 16 == 0 ==> Second(High(w, x), 0) == x
    ensures y % 4 == 0 ==> Third(Middle(x, y), 0) == y
  {}

  lemma OneByteRoundTrip(a: Byte)
    ensures FromSextets([First(a), Second(a, 0)]) == Some([a])
  {
    var v := [First(a), Second(a, 0)];
    HighRoundTrip(a, 0);
    FillIsZero(a);
    assert FromSextets(v) == Some([High(v[0], v[1])]);
  }

  lemma TwoBytesRoundTrip(a: Byte, b: Byte)
    ensures FromSextets([First(a), Second(a, b), Third(b, 0)]) == Some([a, b])
  {
    GroupRoundTrip(a, b, 0);
    FillIsZero(b);
  }

  lemma {:induction false} FromSextetsRoundTrip(b: Bytes)
    ensures FromSextets(Sextets(b)) == Some(b)
  {
    if |b| == 1 {
      OneByteRoundTrip(b[0]);
      assert b == [b[0]];
    } else if |b| == 2 {
      TwoBytesRoundTrip(b[0], b[1]);
      assert b == [b[0], b[1]];
    } else if |b| >= 3 {
      GroupRoundTrip(b[0], b[1], b[2]);
      FromSextetsRoundTrip(b[3..]);
      assert Sextets(b)[4..] == Sextets(b[3..]);
      assert b == [b[0], b[1], b[2]] + b[3..];
    }
  }

  lemma TwoSextetsRoundTrip(w: Sextet, x: Sextet)
    requires x % 16 == 0
    ensures Sextets([High(w, x)]) == [w, x]
  {
    SextetRoundTrip(w, x, 0, 0);
  }

  lemma ThreeSextetsRoundTrip(w: Sextet, x: Sextet, y: Sextet)
    requires y % 4 == 0
    ensures Sextets([High(w, x), Middle(x, y)]) == [w, x, y]
  {
    SextetRoundTrip(w, x, y, 0);
  }

  lemma GroupSextets(w: Sextet, x: Sextet, y: Sextet, z: Sextet, rest: Bytes)
    ensures Sextets([High(w, x), Middle(x, y), Low(y, z)] + rest) == [w, x, y, z] + Sextets(rest)
  {
    SextetRoundTrip(w, x, y, z);
    var b := [High(w, x), Middle(x, y), Low(y, z)] + rest;
    assert b[3..] == rest && b[0] == High(w, x) && b[1] == Middle(x, y) && b[2] == Low(y, z);
  }

  lemma {:induction false} SextetsRoundTrip(v: seq<Sextet>)
    requires FromSextets(v).Some?
    ensures Sextets(FromSextets(v).value) == v
  {
    if |v| == 0 {
    } else if |v| == 2 {
      TwoSextetsRoundTrip(v[0], v[1]);
      assert v == [v[0], v[1]];
    } else if |v| == 3 {
      ThreeSextetsRoundTrip(v[0], v[1], v[2]);
      assert v == [v[0], v[1], v[2]];
    } else {
      SextetsRoundTrip(v[4..]);
      GroupSextets(v[0], v[1], v[2], v[3], FromSextets(v[4..]).value);
      assert v == [v[0], v[1], v[2], v[3]] + v[4..];
    }
  }

  lemma {:induction false} SymbolValuesIff(s: string, v: seq<Sextet>)
    ensures SymbolValues(s) == Some(v) <==> |s| == |v| && forall i :: 0 <= i < |v| ==> s[i] == Symbol(v[i])
    decreases |s|
  {
    if s != "" && v != [] {
      SymbolValuesIff(s[1..], v[1..]);
      SymbolRoundTrip(v[0]);
      if SymbolValue(s[0]).Some? {
        ValueRoundTrip(s[0]);
      }
      if |s| == |v| && forall i :: 0 <= i < |v| ==> s[i] == Symbol(v[i]) {
        assert s[0] == Symbol(v[0]);
        assert forall i :: 0 <= i < |v[1..]| ==> s[1..][i] == Symbol(v[1..][i]);
        assert [v[0]] + v[1..] == v;
      }
      if SymbolValues(s) == Some(v) {
        assert SymbolValues(s[1..]).value == v[1..];
        forall i | 0 <= i < |v| ensures s[i] == Symbol(v[i]) {
          if i > 0 {
            assert s[i] == s[1..][i - 1] && v[i] == v[1..][i - 1];
          }
        }
      }
    }
  }

  /** The decoder accepts exactly the encoder's output: every byte string has one spelling. */
  lemma DecodeIff(s: string, b: Bytes)
    ensures Decode(s) == Some(b) <==> s == Encode(b)
  {
    SymbolValuesIff(s, Sextets(b));
    FromSextetsRoundTrip(b);
    if Decode(s) == Some(b) {
      SextetsRoundTrip(SymbolValues(s).value);
    }
  }

  lemma EncodeInjective(a: Bytes, b: Bytes)
    requires Encode(a) == Encode(b)
    ensures a == b
  {
    DecodeIff(Encode(a), a);
    DecodeIff(Encode(a), b);
  }

  lemma EncodedNotDot(b: Bytes, i: nat)
    requires i < |Encode(b)|
    ensures Encode(b)[i] != '.'
  {
    SymbolRoundTrip(Sextets(b)[i]);
  }
}
