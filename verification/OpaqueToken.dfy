/**
  The auditor invite secret: `ppat_`, thirty random base-62 characters, and the CRC-32 of those
  35 characters as six base-62 digits. Strings are their bytes. SHA-256 is an arbitrary function
  `sha`, since nothing here depends on what it computes.
 */
module OpaqueToken {
  import opened ByteStrings
  import opened Numbers
  import opened Wrappers
  import opened Crc

  const PREFIX: Bytes := [112, 112, 97, 116, 95]
  const RANDOM_LENGTH := 30
  const CHECKSUM_LENGTH := 6
  const TOKEN_LENGTH := 41
  const ACCEPTED_RANDOM_BYTE_BOUND := 248

  datatype Error = Generation | Malformed | ChecksumMismatch

  // ---------- base 62 ----------

  /** Character number `k` of `0-9A-Za-z`. */
  function Symbol(k: nat): Byte
    requires k < 62
  {
    if k < 10 then 48 + k else if k < 36 then 55 + k else 61 + k
  }

  predicate InAlphabet(b: Byte) {
    48 <= b <= 57 || 65 <= b <= 90 || 97 <= b <= 122
  }

  predicate AllInAlphabet(s: Bytes) {
    forall i :: 0 <= i < |s| ==> InAlphabet(s[i])
  }

  lemma SymbolIsAlphabet()
    ensures forall k :: 0 <= k < 62 ==> InAlphabet(Symbol(k))
    ensures forall b: Byte | InAlphabet(b) :: exists k :: 0 <= k < 62 && Symbol(k) == b
  {
    forall b: Byte | InAlphabet(b) ensures exists k :: 0 <= k < 62 && Symbol(k) == b {
      var k := if b <= 57 then b - 48 else if b <= 90 then b - 55 else b - 61;
      assert Symbol(k) == b;
    }
  }

  /** Digits, then capital letters, then small ones, each in their order. */
  lemma SymbolsInOrder(k: nat)
    requires k < 62
    ensures k < 10 ==> Symbol(k) == '0' as int + k
    ensures 10 <= k < 36 ==> Symbol(k) == 'A' as int + (k - 10)
    ensures 36 <= k ==> Symbol(k) == 'a' as int + (k - 36)
    ensures |PREFIX| == |"ppat_"| && forall i :: 0 <= i < |PREFIX| ==> PREFIX[i] == "ppat_"[i] as int
  {}

  lemma SymbolInjective(j: nat, k: nat)
    requires j < 62 && k < 62 && Symbol(j) == Symbol(k)
    ensures j == k
  {}

  /** The `n` low base-62 digits of `value`, most significant first. */
  function Base62(value: nat, n: nat): (r: Bytes)
    ensures |r| == n
    decreases n
  {
    if n == 0 then [] else Base62(value / 62, n - 1) + [Symbol(value % 62)]
  }

  function Pow62(n: nat): nat {
    if n == 0 then 1 else 62 * Pow62(n - 1)
  }

  lemma {:induction false} Base62Alphabet(value: nat, n: nat)
    ensures AllInAlphabet(Base62(value, n))
    decreases n
  {
    if n > 0 {
      Base62Alphabet(value / 62, n - 1);
    }
  }

  lemma {:induction false} Base62Injective(a: nat, b: nat, n: nat)
    requires a < Pow62(n) && b < Pow62(n)
    requires Base62(a, n) == Base62(b, n)
    ensures a == b
    decreases n
  {
    if n > 0 {
      var x, y := Base62(a, n), Base62(b, n);
      assert x[n - 1] == Symbol(a % 62) && y[n - 1] == Symbol(b % 62);
      assert x[..n - 1] == Base62(a / 62, n - 1) && y[..n - 1] == Base62(b / 62, n - 1);
      SymbolInjective(a % 62, b % 62);
      Base62Injective(a / 62, b / 62, n - 1);
    }
  }

  lemma SixDigitsSuffice()
    ensures Pow2(32) <= Pow62(6)
  {
    assert Pow62(3) == 238_328;
    assert Pow62(6) == 238_328 * 238_328;
    assert Pow2(8) == 256;
    assert Pow2(16) == 0x1_0000;
    assert Pow2(24) == 0x100_0000;
    assert Pow2(32) == 0x1_0000_0000;
  }

  /** Six base-62 digits are enough to tell all 32-bit values apart. */
  lemma ChecksumDigitsInjective(a: Word, b: Word)
    requires Base62(Value(a), CHECKSUM_LENGTH) == Base62(Value(b), CHECKSUM_LENGTH)
    ensures a == b
  {
    SixDigitsSuffice();
    Base62Injective(Value(a), Value(b), 6);
    ValueInjective(a, b);
  }

  method EncodeChecksumBase62(value: nat) returns (encoded: Bytes)
    ensures encoded == Base62(value, CHECKSUM_LENGTH)
  {
    var digits := new Byte[CHECKSUM_LENGTH](_ => Symbol(0));
    var remaining := value;
    var index := CHECKSUM_LENGTH;
    while index > 0
      invariant 0 <= index <= CHECKSUM_LENGTH
      invariant Base62(value, CHECKSUM_LENGTH) == Base62(remaining, index) + digits[index..]
    {
      index := index - 1;
      digits[index] := Symbol(remaining % 62);
      assert digits[index..] == [digits[index]] + digits[index + 1..];
      remaining := remaining / 62;
    }
    encoded := digits[..];
  }

  // ---------- the token ----------

  /** The check characters for a prefix-and-body. */
  function CheckDigits(input: Bytes): (r: Bytes)
    ensures |r| == CHECKSUM_LENGTH
  {
    Base62(Value(Checksum(CRC32_POLY, input)), CHECKSUM_LENGTH)
  }

  function Token(body: Bytes): Bytes {
    PREFIX + body + CheckDigits(PREFIX + body)
  }

  function ParseDigest(sha: Bytes -> Bytes, raw: Bytes): Result<Bytes, Error> {
    if |raw| != TOKEN_LENGTH || !(PREFIX <= raw) then Err(Malformed)
    else if !AllInAlphabet(raw[|PREFIX|..]) then Err(Malformed)
    else
      var checksumStart := |PREFIX| + RANDOM_LENGTH;
      if raw[checksumStart..] != CheckDigits(raw[..checksumStart]) then Err(ChecksumMismatch)
      else Ok(sha(raw))
  }

  predicate IsBody(body: Bytes) {
    |body| == RANDOM_LENGTH && AllInAlphabet(body)
  }

  /** Inputs that differ inside four neighbouring characters get different check characters. */
  lemma CheckDigitsDiffer(good: Bytes, bad: Bytes, start: nat)
    requires good != bad && DifferOnlyIn(good, bad, start, 4)
    ensures CheckDigits(good) != CheckDigits(bad)
  {
    PolynomialsQualify();
    ByteBurstDetected(CRC32_POLY, good, bad, start);
    if CheckDigits(good) == CheckDigits(bad) {
      ChecksumDigitsInjective(Checksum(CRC32_POLY, good), Checksum(CRC32_POLY, bad));
    }
  }

  lemma CheckDigitsAlphabet(input: Bytes)
    ensures AllInAlphabet(CheckDigits(input))
  {
    Base62Alphabet(Value(Checksum(CRC32_POLY, input)), CHECKSUM_LENGTH);
  }

  /** How the parser treats a well-shaped string. */
  lemma ParseShaped(sha: Bytes -> Bytes, body: Bytes, check: Bytes)
    requires IsBody(body) && |check| == CHECKSUM_LENGTH && AllInAlphabet(check)
    ensures ParseDigest(sha, PREFIX + body + check)
         == if check == CheckDigits(PREFIX + body) then Ok(sha(PREFIX + body + check)) else Err(ChecksumMismatch)
  {
    var raw := PREFIX + body + check;
    assert raw[|PREFIX|..] == body + check;
    assert AllInAlphabet(raw[|PREFIX|..]);
    assert raw[..|PREFIX| + RANDOM_LENGTH] == PREFIX + body && raw[|PREFIX| + RANDOM_LENGTH..] == check;
    assert |raw| == TOKEN_LENGTH && PREFIX <= raw;
  }

  /** The parser accepts exactly the tokens that generation can produce, and digests the whole token. */
  lemma ParsesExactlyTokens(sha: Bytes -> Bytes, raw: Bytes)
    ensures ParseDigest(sha, raw).Ok? <==> exists body :: IsBody(body) && raw == Token(body)
    ensures ParseDigest(sha, raw).Ok? ==> ParseDigest(sha, raw).value == sha(raw)
  {
    if ParseDigest(sha, raw).Ok? {
      var body := raw[5..35];
      assert raw[..35] == PREFIX + body;
      assert raw == raw[..35] + raw[35..];
      assert forall i :: 0 <= i < 30 ==> body[i] == raw[5..][i];
      assert IsBody(body) && raw == Token(body);
    }
    if body :| IsBody(body) && raw == Token(body) {
      CheckDigitsAlphabet(PREFIX + body);
      ParseShaped(sha, body, CheckDigits(PREFIX + body));
    }
  }

  /**
    Damage to at most four neighbouring characters of the random body, each replaced by another
    alphabet character, is always reported as a checksum mismatch.
   */
  lemma BodyDamageDetected(sha: Bytes -> Bytes, body: Bytes, damaged: Bytes, start: nat)
    requires IsBody(body) && IsBody(damaged) && body != damaged
    requires DifferOnlyIn(body, damaged, start, 4)
    ensures ParseDigest(sha, PREFIX + damaged + CheckDigits(PREFIX + body)) == Err(ChecksumMismatch)
  {
    var good, bad := PREFIX + body, PREFIX + damaged;
    assert good[5..] == body && bad[5..] == damaged;
    assert DifferOnlyIn(good, bad, start + 5, 4);
    CheckDigitsDiffer(good, bad, start + 5);
    CheckDigitsAlphabet(good);
    ParseShaped(sha, damaged, CheckDigits(good));
  }

  lemma UpdateMiddle<T>(a: seq<T>, b: seq<T>, c: seq<T>, i: nat, x: T)
    requires i < |b|
    ensures (a + b + c)[|a| + i := x] == a + b[i := x] + c
  {}

  /** Changing one body character of a generated token is always reported as a checksum mismatch. */
  lemma OneCharacterDetected(sha: Bytes -> Bytes, body: Bytes, i: nat, c: Byte)
    requires IsBody(body) && i < RANDOM_LENGTH && InAlphabet(c) && c != body[i]
    ensures ParseDigest(sha, Token(body)[|PREFIX| + i := c]) == Err(ChecksumMismatch)
  {
    var damaged := body[i := c];
    BodyDamageDetected(sha, body, damaged, i);
    UpdateMiddle(PREFIX, body, CheckDigits(PREFIX + body), i, c);
  }

  // ---------- rejection sampling ----------

  /** What one call of the random source did: it filled the thirty-byte buffer or failed. */
  datatype Fill = Filled(bytes: Bytes) | FillError

  /** The characters that a stream of random bytes contributes. */
  function Accepted(bytes: Bytes): Bytes {
    if bytes == [] then []
    else if bytes[0] >= ACCEPTED_RANDOM_BYTE_BOUND then Accepted(bytes[1..])
    else [Symbol(bytes[0] % 62)] + Accepted(bytes[1..])
  }

  predicate AllFilled(fills: seq<Fill>) {
    forall i :: 0 <= i < |fills| ==> fills[i].Filled? && |fills[i].bytes| == RANDOM_LENGTH
  }

  /** All bytes the random source delivered, in order. */
  function Stream(fills: seq<Fill>): Bytes
    requires AllFilled(fills)
  {
    if fills == [] then [] else Stream(fills[..|fills| - 1]) + fills[|fills| - 1].bytes
  }

  lemma {:induction false} AcceptedConcat(a: Bytes, b: Bytes)
    ensures Accepted(a + b) == Accepted(a) + Accepted(b)
  {
    if a == [] {
      assert a + b == b;
    } else {
      assert (a + b)[0] == a[0] && (a + b)[1..] == a[1..] + b;
      AcceptedConcat(a[1..], b);
    }
  }

  lemma {:induction false} AcceptedAlphabet(bytes: Bytes)
    ensures AllInAlphabet(Accepted(bytes))
  {
    if bytes != [] {
      AcceptedAlphabet(bytes[1..]);
      SymbolIsAlphabet();
    }
  }

  /** Every character of the alphabet has exactly four accepted byte values, so the draw is uniform. */
  lemma Uniform(k: nat)
    requires k < 62
    ensures |set b: Byte | b < ACCEPTED_RANDOM_BYTE_BOUND && Symbol(b % 62) == Symbol(k)| == 4
  {
    var four: set<Byte> := {k, k + 62, k + 124, k + 186};
    var drawn := set b: Byte | b < ACCEPTED_RANDOM_BYTE_BOUND && Symbol(b % 62) == Symbol(k);
    forall b: Byte | b in drawn ensures b in four {
      SymbolInjective(b % 62, k);
    }
    forall b: Byte | b in four ensures b in drawn {
      assert b % 62 == k;
    }
    assert drawn == four;
  }

  /** `Starved`: the supplied fills ran out before thirty characters were accepted. */
  datatype Sampling = Body(chars: Bytes) | Failed | Starved

  /** The first `used` fills were consumed and, before the last of them, the body was incomplete. */
  ghost predicate Consumed(fills: seq<Fill>, used: nat) {
    && used <= |fills| && AllFilled(fills[..used])
    && (used > 0 ==> AllFilled(fills[..used - 1]) && |Accepted(Stream(fills[..used - 1]))| < RANDOM_LENGTH)
  }

  lemma StreamStep(fills: seq<Fill>, used: nat)
    requires used < |fills| && AllFilled(fills[..used]) && fills[used].Filled? && |fills[used].bytes| == RANDOM_LENGTH
    ensures AllFilled(fills[..used + 1])
    ensures Accepted(Stream(fills[..used + 1])) == Accepted(Stream(fills[..used])) + Accepted(fills[used].bytes)
  {
    var longer := fills[..used + 1];
    assert longer == fills[..used] + [fills[used]];
    assert longer[..|longer| - 1] == fills[..used] && longer[|longer| - 1] == fills[used];
    assert Stream(longer) == Stream(fills[..used]) + fills[used].bytes;
    AcceptedConcat(Stream(fills[..used]), fills[used].bytes);
  }

  /** One buffer: append accepted characters and stop at thirty. */
  method TakeFrom(body: Bytes, buffer: Bytes) returns (r: Bytes)
    requires |body| < RANDOM_LENGTH
    ensures r == if |body + Accepted(buffer)| >= RANDOM_LENGTH then (body + Accepted(buffer))[..RANDOM_LENGTH]
                 else body + Accepted(buffer)
  {
    r := body;
    var i := 0;
    while i < |buffer|
      invariant 0 <= i <= |buffer|
      invariant r == body + Accepted(buffer[..i])
      invariant |r| < RANDOM_LENGTH
    {
      assert buffer[..i + 1] == buffer[..i] + [buffer[i]];
      AcceptedConcat(buffer[..i], [buffer[i]]);
      assert [buffer[i]][1..] == [];
      if buffer[i] < ACCEPTED_RANDOM_BYTE_BOUND {
        r := r + [Symbol(buffer[i] % 62)];
        if |r| == RANDOM_LENGTH {
          AcceptedConcat(buffer[..i + 1], buffer[i + 1..]);
          assert buffer == buffer[..i + 1] + buffer[i + 1..];
          assert body + Accepted(buffer) == r + Accepted(buffer[i + 1..]);
          return;
        }
      }
      i := i + 1;
    }
    assert buffer[..|buffer|] == buffer;
  }

  /**
    The sampling loop, run on the fills that the random source will deliver. A finished body is
    exactly the first thirty accepted characters of the whole stream, and no fill beyond the one
    that completes it is requested.
   */
  method GenerateTokenBody(fills: seq<Fill>) returns (r: Sampling, used: nat)
    requires forall i :: 0 <= i < |fills| && fills[i].Filled? ==> |fills[i].bytes| == RANDOM_LENGTH
    ensures Consumed(fills, used)
    ensures r.Body? ==> used > 0 && |Accepted(Stream(fills[..used]))| >= RANDOM_LENGTH
                        && r.chars == Accepted(Stream(fills[..used]))[..RANDOM_LENGTH] && IsBody(r.chars)
    ensures r.Failed? ==> used < |fills| && fills[used].FillError? && |Accepted(Stream(fills[..used]))| < RANDOM_LENGTH
    ensures r.Starved? ==> used == |fills| && |Accepted(Stream(fills))| < RANDOM_LENGTH
  {
    var body: Bytes := [];
    used := 0;
    while |body| < RANDOM_LENGTH
      invariant Consumed(fills, used)
      invariant |body| < RANDOM_LENGTH ==> body == Accepted(Stream(fills[..used]))
      invariant |body| >= RANDOM_LENGTH ==> used > 0 && |Accepted(Stream(fills[..used]))| >= RANDOM_LENGTH
                                            && body == Accepted(Stream(fills[..used]))[..RANDOM_LENGTH]
      decreases |fills| - used, RANDOM_LENGTH - |body|
    {
      if used == |fills| {
        assert fills[..used] == fills;
        return Starved, used;
      }
      if fills[used].FillError? {
        return Failed, used;
      }
      StreamStep(fills, used);
      body := TakeFrom(body, fills[used].bytes);
      used := used + 1;
    }
    AcceptedAlphabet(Stream(fills[..used]));
    r := Body(body);
  }

  /** A secret built from a sampled body parses to the digest that was stored for it. */
  method GenerateSecret(sha: Bytes -> Bytes, fills: seq<Fill>) returns (secret: Result<Bytes, Error>, used: nat)
    requires forall i :: 0 <= i < |fills| && fills[i].Filled? ==> |fills[i].bytes| == RANDOM_LENGTH
    ensures secret.Ok? ==> ParseDigest(sha, secret.value) == Ok(sha(secret.value))
    ensures Consumed(fills, used)
    ensures secret.Err? ==>
      && secret.error == Generation && |Accepted(Stream(fills[..used]))| < RANDOM_LENGTH
      && (used == |fills| || fills[used].FillError?)
    ensures secret.Ok? ==> |Accepted(Stream(fills[..used]))| >= RANDOM_LENGTH
                           && secret.value == Token(Accepted(Stream(fills[..used]))[..RANDOM_LENGTH])
  {
    var body;
    body, used := GenerateTokenBody(fills);
    if body.Body? {
      var input := PREFIX + body.chars;
      var check := EncodeChecksumBase62(Value(Checksum(CRC32_POLY, input)));
      ParsesExactlyTokens(sha, Token(body.chars));
      secret := Ok(input + check);
    } else {
      assert body.Starved? ==> fills[..used] == fills;
      secret := Err(Generation);
    }
  }
}
