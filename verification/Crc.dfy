/**
  Cyclic redundancy checks over a reflected 32-bit polynomial, as computed by the table-driven
  loop of scripts/content-digest-crc32c.py and, with another polynomial, by the token checksum.

  A word is its 32 bits, least significant first. The reference definition is the shift register
  that consumes one bit at a time. The table loop is proved equal to it, and error detection is
  proved once for every polynomial whose top bit is set (bit 31 of the reflected form is the
  constant term, which every CRC polynomial has).
 */
module Crc {
  import opened ByteStrings
  import opened Numbers

  type Word = w: seq<bool> | |w| == 32 witness Repeat(false, 32)

  const CRC32C_POLY: Word := ToBits(0x82F6_3B78, 32)
  const CRC32_POLY: Word := ToBits(0xEDB8_8320, 32)
  const ALL_ONES: Word := Repeat(true, 32)

  // ---------- words and numbers ----------

  /** The low `n` bits of `v`, least significant first. */
  function ToBits(v: nat, n: nat): (r: seq<bool>)
    ensures |r| == n
    decreases n
  {
    if n == 0 then [] else [v % 2 == 1] + ToBits(v / 2, n - 1)
  }

  function BitValue(bit: bool): nat {
    if bit then 1 else 0
  }

  /** The number whose bit `i` is `bits[i]`. */
  function Value(bits: seq<bool>): (r: nat)
    ensures r < Pow2(|bits|)
  {
    if bits == [] then 0 else 2 * Value(bits[1..]) + BitValue(bits[0])
  }

  lemma {:induction false} ValueToBits(v: nat, n: nat)
    requires v < Pow2(n)
    ensures Value(ToBits(v, n)) == v
    decreases n
  {
    if n > 0 {
      ValueToBits(v / 2, n - 1);
      assert ToBits(v, n)[1..] == ToBits(v / 2, n - 1);
    }
  }

  lemma {:induction false} ToBitsValue(bits: seq<bool>)
    ensures ToBits(Value(bits), |bits|) == bits
  {
    if bits != [] {
      ToBitsValue(bits[1..]);
      assert bits == [bits[0]] + bits[1..];
    }
  }

  lemma ValueInjective(xs: seq<bool>, ys: seq<bool>)
    requires |xs| == |ys| && Value(xs) == Value(ys)
    ensures xs == ys
  {
    ToBitsValue(xs);
    ToBitsValue(ys);
  }

  function Xor(a: Word, b: Word): Word {
    seq(32, i requires 0 <= i < 32 => a[i] != b[i])
  }

  function Repeat(bit: bool, n: nat): (r: seq<bool>)
    ensures |r| == n && forall i :: 0 <= i < n ==> r[i] == bit
  {
    seq(n, _ => bit)
  }

  /** Up to 32 bits as a word. */
  function Pad(bits: seq<bool>): Word
    requires |bits| <= 32
  {
    bits + Repeat(false, 32 - |bits|)
  }

  /** The word shifted right by `n`. */
  function Down(c: Word, n: nat): Word
    requires n <= 32
  {
    Pad(c[n..])
  }

  // ---------- the bit-serial register ----------

  function Shift(poly: Word, c: Word): Word {
    if c[0] then Xor(Down(c, 1), poly) else Down(c, 1)
  }

  function ShiftN(poly: Word, c: Word, n: nat): Word
    decreases n
  {
    if n == 0 then c else ShiftN(poly, Shift(poly, c), n - 1)
  }

  /** Register contents after feeding `bits`, first bit first. */
  function Feed(poly: Word, c: Word, bits: seq<bool>): Word
    decreases |bits|
  {
    if bits == [] then c else Feed(poly, Shift(poly, Xor(c, Pad(bits[..1]))), bits[1..])
  }

  function ByteBits(b: Byte): (r: seq<bool>)
    ensures |r| == 8
  {
    ToBits(b, 8)
  }

  function AllBits(data: Bytes): (r: seq<bool>)
    ensures |r| == 8 * |data|
  {
    if data == [] then [] else ByteBits(data[0]) + AllBits(data[1..])
  }

  /** The checksum by definition: preset the register, feed every bit, invert. */
  function Checksum(poly: Word, data: Bytes): Word {
    Xor(Feed(poly, ALL_ONES, AllBits(data)), ALL_ONES)
  }

  // ---------- algebra of the register ----------

  lemma XorCancel(a: Word, b: Word, x: Word)
    requires Xor(a, x) == Xor(b, x)
    ensures a == b
  {
    forall i | 0 <= i < 32 ensures a[i] == b[i] {
      assert Xor(a, x)[i] == Xor(b, x)[i];
    }
  }

  lemma XorComm(a: Word, b: Word)
    ensures Xor(a, b) == Xor(b, a)
  {}

  lemma ShiftAt(poly: Word, c: Word, i: nat)
    requires i < 32
    ensures Shift(poly, c)[i] == ((i < 31 && c[i + 1]) != (c[0] && poly[i]))
  {}

  lemma ShiftLinear(poly: Word, a: Word, b: Word)
    ensures Shift(poly, Xor(a, b)) == Xor(Shift(poly, a), Shift(poly, b))
  {
    forall i | 0 <= i < 32
      ensures Shift(poly, Xor(a, b))[i] == Xor(Shift(poly, a), Shift(poly, b))[i]
    {
      ShiftAt(poly, a, i);
      ShiftAt(poly, b, i);
      ShiftAt(poly, Xor(a, b), i);
    }
  }

  lemma {:induction false} ShiftNLinear(poly: Word, a: Word, b: Word, n: nat)
    ensures ShiftN(poly, Xor(a, b), n) == Xor(ShiftN(poly, a, n), ShiftN(poly, b, n))
    decreases n
  {
    if n > 0 {
      ShiftLinear(poly, a, b);
      ShiftNLinear(poly, Shift(poly, a), Shift(poly, b), n - 1);
    }
  }

  /** The bit that falls out reappears as the top bit, so no two registers collide. */
  lemma ShiftInjective(poly: Word, a: Word, b: Word)
    requires poly[31]
    requires Shift(poly, a) == Shift(poly, b)
    ensures a == b
  {
    ShiftAt(poly, a, 31);
    ShiftAt(poly, b, 31);
    forall i | 0 <= i < 32 ensures a[i] == b[i] {
      if i > 0 {
        ShiftAt(poly, a, i - 1);
        ShiftAt(poly, b, i - 1);
      }
    }
  }

  lemma {:induction false} ShiftNInjective(poly: Word, a: Word, b: Word, n: nat)
    requires poly[31]
    requires ShiftN(poly, a, n) == ShiftN(poly, b, n)
    ensures a == b
    decreases n
  {
    if n > 0 {
      ShiftNInjective(poly, Shift(poly, a), Shift(poly, b), n - 1);
      ShiftInjective(poly, a, b);
    }
  }

  /** Feeding the same bits keeps different registers different. */
  lemma {:induction false} FeedInjective(poly: Word, a: Word, b: Word, bits: seq<bool>)
    requires poly[31]
    requires Feed(poly, a, bits) == Feed(poly, b, bits)
    ensures a == b
    decreases |bits|
  {
    if bits != [] {
      var x := Pad(bits[..1]);
      FeedInjective(poly, Shift(poly, Xor(a, x)), Shift(poly, Xor(b, x)), bits[1..]);
      ShiftInjective(poly, Xor(a, x), Xor(b, x));
      XorCancel(a, b, x);
    }
  }

  lemma {:induction false} FeedConcat(poly: Word, c: Word, xs: seq<bool>, ys: seq<bool>)
    ensures Feed(poly, c, xs + ys) == Feed(poly, Feed(poly, c, xs), ys)
    decreases |xs|
  {
    if xs == [] {
      assert xs + ys == ys;
    } else {
      assert (xs + ys)[..1] == xs[..1] && (xs + ys)[1..] == xs[1..] + ys;
      FeedConcat(poly, Shift(poly, Xor(c, Pad(xs[..1]))), xs[1..], ys);
    }
  }

  // ---------- feeding many bits at once ----------

  /** The first bit meets the register's lowest bit; the others just move down. */
  lemma ShiftPadded(poly: Word, c: Word, bits: seq<bool>)
    requires 0 < |bits| <= 32
    ensures Shift(poly, Xor(c, Pad(bits))) == Xor(Shift(poly, Xor(c, Pad(bits[..1]))), Pad(bits[1..]))
  {
    var l, r := Xor(c, Pad(bits)), Xor(c, Pad(bits[..1]));
    forall i | 0 <= i < 32
      ensures Shift(poly, l)[i] == Xor(Shift(poly, r), Pad(bits[1..]))[i]
    {
      ShiftAt(poly, l, i);
      ShiftAt(poly, r, i);
    }
  }

  lemma XorNothing(c: Word)
    ensures Xor(c, Pad([])) == c
  {}

  lemma ShiftNFirst(poly: Word, c: Word, n: nat)
    requires n > 0
    ensures ShiftN(poly, c, n) == ShiftN(poly, Shift(poly, c), n - 1)
  {}

  lemma {:induction false} FeedIsPaddedShift(poly: Word, c: Word, bits: seq<bool>)
    requires |bits| <= 32
    ensures Feed(poly, c, bits) == ShiftN(poly, Xor(c, Pad(bits)), |bits|)
    decreases |bits|
  {
    if bits == [] {
      XorNothing(c);
    } else {
      var d := Shift(poly, Xor(c, Pad(bits[..1])));
      assert Feed(poly, c, bits) == Feed(poly, d, bits[1..]);
      FeedIsPaddedShift(poly, d, bits[1..]);
      ShiftPadded(poly, c, bits);
      ShiftNFirst(poly, Xor(c, Pad(bits)), |bits|);
    }
  }

  // ---------- the table ----------

  lemma {:induction false} ShiftNLowZero(poly: Word, c: Word, n: nat)
    requires n <= 32 && forall i :: 0 <= i < n ==> !c[i]
    ensures ShiftN(poly, c, n) == Down(c, n)
    decreases n
  {
    if n > 0 {
      ShiftNLowZero(poly, Down(c, 1), n - 1);
      assert Down(Down(c, 1), n - 1) == Down(c, n);
    }
  }

  /** One table step is eight register steps. */
  lemma TableStep(poly: Word, c: Word, bits: seq<bool>)
    requires |bits| == 8
    ensures Xor(ShiftN(poly, Pad(Xor(c, Pad(bits))[..8]), 8), Down(c, 8)) == Feed(poly, c, bits)
  {
    var x := Xor(c, Pad(bits));
    var lo, hi := Pad(x[..8]), Repeat(false, 8) + x[8..];
    assert Xor(lo, hi) == x;
    assert Down(hi, 8) == Down(c, 8);
    FeedIsPaddedShift(poly, c, bits);
    ShiftNLinear(poly, lo, hi, 8);
    ShiftNLowZero(poly, hi, 8);
  }

  lemma {:induction false} ShiftNLast(poly: Word, c: Word, n: nat)
    ensures ShiftN(poly, c, n + 1) == Shift(poly, ShiftN(poly, c, n))
    decreases n
  {
    if n > 0 {
      ShiftNLast(poly, Shift(poly, c), n - 1);
    }
  }

  method TableEntry(poly: Word, value: Byte) returns (crc: Word)
    ensures crc == Entry(poly, value)
  {
    crc := Pad(ByteBits(value));
    for k := 0 to 8
      invariant crc == ShiftN(poly, Pad(ByteBits(value)), k)
    {
      ShiftNLast(poly, Pad(ByteBits(value)), k);
      if crc[0] {
        crc := Xor(Down(crc, 1), poly);
      } else {
        crc := Down(crc, 1);
      }
    }
  }

  /** Entry `v` is the register after shifting the byte `v` through. */
  ghost predicate IsTable(poly: Word, table: seq<Word>) {
    |table| == 256 && forall v: Byte {:trigger table[v]} :: table[v] == Entry(poly, v)
  }

  function Entry(poly: Word, v: Byte): Word {
    ShiftN(poly, Pad(ByteBits(v)), |ByteBits(v)|)
  }

  method Table(poly: Word) returns (table: seq<Word>)
    ensures IsTable(poly, table)
  {
    table := [];
    for value := 0 to 256
      invariant |table| == value
      invariant forall v: Byte {:trigger table[v]} :: v < value ==> table[v] == Entry(poly, v)
    {
      var crc := TableEntry(poly, value);
      table := table + [crc];
    }
  }

  function Flatten(chunks: seq<Bytes>): Bytes {
    if chunks == [] then [] else chunks[0] + Flatten(chunks[1..])
  }

  lemma {:induction false} AllBitsConcat(a: Bytes, b: Bytes)
    ensures AllBits(a + b) == AllBits(a) + AllBits(b)
  {
    if a == [] {
      assert a + b == b;
    } else {
      assert (a + b)[0] == a[0] && (a + b)[1..] == a[1..] + b;
      AllBitsConcat(a[1..], b);
    }
  }

  lemma FeedBytes(poly: Word, c: Word, a: Bytes, b: Bytes)
    ensures Feed(poly, c, AllBits(a + b)) == Feed(poly, Feed(poly, c, AllBits(a)), AllBits(b))
  {
    AllBitsConcat(a, b);
    FeedConcat(poly, c, AllBits(a), AllBits(b));
  }

  lemma {:induction false} FlattenSnoc(chunks: seq<Bytes>, chunk: Bytes)
    ensures Flatten(chunks + [chunk]) == Flatten(chunks) + chunk
  {
    if chunks == [] {
      assert chunks + [chunk] == [chunk] && [chunk][1..] == [];
      assert Flatten([chunk]) == chunk + Flatten([]);
    } else {
      assert (chunks + [chunk])[0] == chunks[0] && (chunks + [chunk])[1..] == chunks[1..] + [chunk];
      FlattenSnoc(chunks[1..], chunk);
    }
  }

  /** The loop body of the script: look the low byte up and fold in the shifted register. */
  method UpdateByte(poly: Word, table: seq<Word>, crc: Word, byte: Byte) returns (next: Word)
    requires IsTable(poly, table)
    ensures next == Feed(poly, crc, ByteBits(byte))
  {
    var low := Xor(crc, Pad(ByteBits(byte)))[..8];
    ToBitsValue(low);
    assert Pow2(8) == 256;
    var index: Byte := Value(low);
    TableStep(poly, crc, ByteBits(byte));
    next := Xor(table[index], Down(crc, 8));
  }

  method UpdateChunk(poly: Word, table: seq<Word>, crc: Word, chunk: Bytes) returns (next: Word)
    requires IsTable(poly, table)
    ensures next == Feed(poly, crc, AllBits(chunk))
  {
    next := crc;
    for j := 0 to |chunk|
      invariant next == Feed(poly, crc, AllBits(chunk[..j]))
    {
      FeedBytes(poly, crc, chunk[..j], [chunk[j]]);
      assert AllBits([chunk[j]]) == ByteBits(chunk[j]);
      assert chunk[..j + 1] == chunk[..j] + [chunk[j]];
      next := UpdateByte(poly, table, next, chunk[j]);
    }
    assert chunk[..|chunk|] == chunk;
  }

  /**
    The script's loop, for any polynomial, over a file that is read in chunks. The result is the
    bit-serial checksum of the concatenation, so where the reads split the file does not matter.
   */
  method TableChecksum(poly: Word, chunks: seq<Bytes>) returns (crc: Word)
    ensures crc == Checksum(poly, Flatten(chunks))
  {
    var table := Table(poly);
    crc := ALL_ONES;
    for i := 0 to |chunks|
      invariant crc == Feed(poly, ALL_ONES, AllBits(Flatten(chunks[..i])))
    {
      FlattenSnoc(chunks[..i], chunks[i]);
      assert chunks[..i + 1] == chunks[..i] + [chunks[i]];
      FeedBytes(poly, ALL_ONES, Flatten(chunks[..i]), chunks[i]);
      crc := UpdateChunk(poly, table, crc, chunks[i]);
    }
    assert chunks[..|chunks|] == chunks;
    crc := Xor(crc, ALL_ONES);
  }

  method Crc32c(chunks: seq<Bytes>) returns (crc: Word)
    ensures crc == Checksum(CRC32C_POLY, Flatten(chunks))
  {
    crc := TableChecksum(CRC32C_POLY, chunks);
  }

  // ---------- error detection ----------

  lemma ByteBitsInjective(a: Byte, b: Byte)
    requires ByteBits(a) == ByteBits(b)
    ensures a == b
  {
    assert Pow2(8) == 256;
    ValueToBits(a, 8);
    ValueToBits(b, 8);
  }

  lemma {:induction false} AllBitsInjective(a: Bytes, b: Bytes)
    requires |a| == |b| && AllBits(a) == AllBits(b)
    ensures a == b
  {
    if a != [] {
      assert AllBits(a)[..8] == ByteBits(a[0]) && AllBits(b)[..8] == ByteBits(b[0]);
      assert AllBits(a)[8..] == AllBits(a[1..]) && AllBits(b)[8..] == AllBits(b[1..]);
      ByteBitsInjective(a[0], b[0]);
      AllBitsInjective(a[1..], b[1..]);
      assert a == [a[0]] + a[1..] && b == [b[0]] + b[1..];
    }
  }

  /** Every difference between `xs` and `ys` lies in the window of `width` places from `start`. */
  ghost predicate DifferOnlyIn<T>(xs: seq<T>, ys: seq<T>, start: nat, width: nat) {
    && |xs| == |ys|
    && forall k :: 0 <= k < |xs| && !(start <= k < start + width) ==> xs[k] == ys[k]
  }

  lemma FeedWindow(poly: Word, c: Word, xs: seq<bool>, ys: seq<bool>)
    requires poly[31]
    requires |xs| == |ys| <= 32 && xs != ys
    ensures Feed(poly, c, xs) != Feed(poly, c, ys)
  {
    FeedIsPaddedShift(poly, c, xs);
    FeedIsPaddedShift(poly, c, ys);
    assert Pad(xs)[..|xs|] == xs && Pad(ys)[..|xs|] == ys;
    XorComm(c, Pad(xs));
    XorComm(c, Pad(ys));
    if Feed(poly, c, xs) == Feed(poly, c, ys) {
      ShiftNInjective(poly, Xor(c, Pad(xs)), Xor(c, Pad(ys)), |xs|);
      XorCancel(Pad(xs), Pad(ys), c);
    }
  }

  lemma FeedBurst(poly: Word, c: Word, pre: seq<bool>, xs: seq<bool>, ys: seq<bool>, post: seq<bool>)
    requires poly[31]
    requires |xs| == |ys| <= 32 && xs != ys
    ensures Feed(poly, c, pre + (xs + post)) != Feed(poly, c, pre + (ys + post))
  {
    var d := Feed(poly, c, pre);
    FeedConcat(poly, c, pre, xs + post);
    FeedConcat(poly, c, pre, ys + post);
    FeedConcat(poly, d, xs, post);
    FeedConcat(poly, d, ys, post);
    FeedWindow(poly, d, xs, ys);
    if Feed(poly, Feed(poly, d, xs), post) == Feed(poly, Feed(poly, d, ys), post) {
      FeedInjective(poly, Feed(poly, d, xs), Feed(poly, d, ys), post);
    }
  }

  lemma FeedDiffers(poly: Word, c: Word, xs: seq<bool>, ys: seq<bool>, start: nat)
    requires poly[31]
    requires xs != ys && DifferOnlyIn(xs, ys, start, 32)
    ensures Feed(poly, c, xs) != Feed(poly, c, ys)
  {
    var lo := if start < |xs| then start else |xs|;
    var hi := if start + 32 < |xs| then start + 32 else |xs|;
    assert xs == xs[..lo] + (xs[lo..hi] + xs[hi..]) && ys == ys[..lo] + (ys[lo..hi] + ys[hi..]);
    assert xs[..lo] == ys[..lo] && xs[hi..] == ys[hi..];
    FeedBurst(poly, c, xs[..lo], xs[lo..hi], ys[lo..hi], xs[hi..]);
  }

  /** A burst of up to 32 damaged bits, at any bit offset, always changes the checksum. */
  lemma BurstDetected(poly: Word, a: Bytes, b: Bytes, start: nat)
    requires poly[31]
    requires a != b && |a| == |b|
    requires DifferOnlyIn(AllBits(a), AllBits(b), start, 32)
    ensures Checksum(poly, a) != Checksum(poly, b)
  {
    if AllBits(a) == AllBits(b) {
      AllBitsInjective(a, b);
    }
    FeedDiffers(poly, ALL_ONES, AllBits(a), AllBits(b), start);
    if Checksum(poly, a) == Checksum(poly, b) {
      XorCancel(Feed(poly, ALL_ONES, AllBits(a)), Feed(poly, ALL_ONES, AllBits(b)), ALL_ONES);
    }
  }

  lemma AllBitsThree(pre: Bytes, mid: Bytes, post: Bytes)
    ensures AllBits(pre + (mid + post)) == AllBits(pre) + (AllBits(mid) + AllBits(post))
  {
    AllBitsConcat(pre, mid + post);
    AllBitsConcat(mid, post);
  }

  lemma BitsDifferOnlyIn(pre: seq<bool>, xs: seq<bool>, ys: seq<bool>, post: seq<bool>)
    requires |xs| == |ys| <= 32
    ensures DifferOnlyIn(pre + (xs + post), pre + (ys + post), |pre|, 32)
  {}

  /** Damage confined to four consecutive bytes always changes the checksum. */
  lemma ByteBurstDetected(poly: Word, a: Bytes, b: Bytes, start: nat)
    requires poly[31]
    requires a != b && DifferOnlyIn(a, b, start, 4)
    ensures Checksum(poly, a) != Checksum(poly, b)
  {
    var lo := if start < |a| then start else |a|;
    var hi := if start + 4 < |a| then start + 4 else |a|;
    OneWindow(a, b, start, lo, hi);
    WindowDetected(poly, a[..lo], a[lo..hi], b[lo..hi], a[hi..]);
  }

  lemma OneWindow(a: Bytes, b: Bytes, start: nat, lo: nat, hi: nat)
    requires DifferOnlyIn(a, b, start, 4) && lo <= hi <= |a| && lo <= start && start + 4 >= hi
    requires lo == start || lo == |a|
    requires hi == start + 4 || hi == |a|
    ensures |b| == |a| && a == a[..lo] + (a[lo..hi] + a[hi..]) && b == a[..lo] + (b[lo..hi] + a[hi..])
  {
    assert b == b[..lo] + (b[lo..hi] + b[hi..]) && b[..lo] == a[..lo] && b[hi..] == a[hi..];
  }

  lemma WindowDetected(poly: Word, pre: Bytes, xs: Bytes, ys: Bytes, post: Bytes)
    requires poly[31] && |xs| == |ys| <= 4 && pre + (xs + post) != pre + (ys + post)
    ensures Checksum(poly, pre + (xs + post)) != Checksum(poly, pre + (ys + post))
  {
    AllBitsThree(pre, xs, post);
    AllBitsThree(pre, ys, post);
    BitsDifferOnlyIn(AllBits(pre), AllBits(xs), AllBits(ys), AllBits(post));
    BurstDetected(poly, pre + (xs + post), pre + (ys + post), |AllBits(pre)|);
  }

  /** Both polynomials in use qualify. */
  lemma PolynomialsQualify()
    ensures CRC32C_POLY[31] && CRC32_POLY[31]
  {
    assert Pow2(8) == 256 && Pow2(16) == 0x1_0000;
    assert Pow2(24) == 0x100_0000;
    assert Pow2(31) == 0x8000_0000;
    TopBit(0x82F6_3B78, 31);
    TopBit(0xEDB8_8320, 31);
  }

  lemma {:induction false} TopBit(v: nat, n: nat)
    requires Pow2(n) <= v < 2 * Pow2(n)
    ensures ToBits(v, n + 1)[n]
    decreases n
  {
    if n > 0 {
      TopBit(v / 2, n - 1);
    }
  }

  // ---------- the preset and the inversion ----------

  /** Both constants cancel on the empty input. */
  lemma EmptyIsZero(poly: Word)
    ensures Checksum(poly, []) == Repeat(false, 32)
  {}

  lemma FirstBit(v: nat, n: nat, half: nat, bit: bool)
    requires n > 0 && v == 2 * half + BitValue(bit)
    ensures ToBits(v, n) == [bit] + ToBits(half, n - 1)
  {}

  lemma FourBits(v: nat, n: nat, rest: nat, a: bool, b: bool, c: bool, d: bool)
    requires n >= 4 && v == 16 * rest + 8 * BitValue(d) + 4 * BitValue(c) + 2 * BitValue(b) + BitValue(a)
    ensures ToBits(v, n) == [a, b, c, d] + ToBits(rest, n - 4)
  {
    var v1 := 8 * rest + 4 * BitValue(d) + 2 * BitValue(c) + BitValue(b);
    var v2 := 4 * rest + 2 * BitValue(d) + BitValue(c);
    var v3 := 2 * rest + BitValue(d);
    FirstBit(v, n, v1, a);
    FirstBit(v1, n - 1, v2, b);
    FirstBit(v2, n - 2, v3, c);
    FirstBit(v3, n - 3, rest, d);
    Prepended(a, b, c, d, ToBits(rest, n - 4));
  }

  lemma Prepended(a: bool, b: bool, c: bool, d: bool, rest: seq<bool>)
    ensures [a] + ([b] + ([c] + ([d] + rest))) == [a, b, c, d] + rest
  {}

  /** One shift, on the bits below `n`. */
  lemma LowBits(poly: Word, c: Word, n: nat)
    requires n < 32
    ensures forall i :: 0 <= i < n ==> Shift(poly, c)[i] == (c[i + 1] != (c[0] && poly[i]))
  {
    forall i | 0 <= i < n ensures Shift(poly, c)[i] == (c[i + 1] != (c[0] && poly[i])) {
      ShiftAt(poly, c, i);
    }
  }

  lemma EightShifts(poly: Word, c4: Word)
    requires c4 == Shift(poly, Shift(poly, Shift(poly, Shift(poly, ALL_ONES))))
    ensures ShiftN(poly, ALL_ONES, 8) == Shift(poly, Shift(poly, Shift(poly, Shift(poly, c4))))
  {
    assert ShiftN(poly, ALL_ONES, 8) == ShiftN(poly, c4, 4);
  }

  /** Eight zero bits move the preset register, for the low bits of either polynomial. */
  lemma ZeroByteMoves(poly: Word)
    requires !poly[0] && !poly[1] && !poly[2] && poly[5] && !poly[7]
    requires poly[3] == poly[4] == poly[6]
    ensures ShiftN(poly, ALL_ONES, 8) != ALL_ONES
  {
    var c1 := Shift(poly, ALL_ONES);
    var c2 := Shift(poly, c1);
    var c3 := Shift(poly, c2);
    var c4 := Shift(poly, c3);
    var c5 := Shift(poly, c4);
    var c6 := Shift(poly, c5);
    var c7 := Shift(poly, c6);
    EightShifts(poly, c4);
    LowBits(poly, ALL_ONES, 8);
    LowBits(poly, c1, 7);
    LowBits(poly, c2, 6);
    LowBits(poly, c3, 5);
    LowBits(poly, c4, 4);
    LowBits(poly, c5, 3);
    LowBits(poly, c6, 2);
    LowBits(poly, c7, 1);
    assert !Shift(poly, c7)[0];
  }

  lemma LowBitsCastagnoli(poly: Word, v: nat)
    requires poly == ToBits(v, 32) && v == 0x82F6_3B78
    ensures poly[..8] == [false, false, false, true] + [true, true, true, false]
  {
    var w := 0x82F_63B7;
    FourBits(v, 32, w, false, false, false, true);
    FourBits(w, 28, 0x82_F63B, true, true, true, false);
  }

  lemma LowBitsIeee(poly: Word, v: nat)
    requires poly == ToBits(v, 32) && v == 0xEDB8_8320
    ensures poly[..8] == [false, false, false, false] + [false, true, false, false]
  {
    var w := 0xEDB_8832;
    FourBits(v, 32, w, false, false, false, false);
    FourBits(w, 28, 0xED_B883, false, true, false, false);
  }

  /** The preset is there so that a zero byte in front of the input is noticed. */
  lemma LeadingZeroDetected(poly: Word, data: Bytes)
    requires poly == CRC32C_POLY || poly == CRC32_POLY
    ensures Checksum(poly, [0] + data) != Checksum(poly, data)
  {
    PolynomialsQualify();
    if poly == CRC32C_POLY {
      LowBitsCastagnoli(poly, 0x82F6_3B78);
    } else {
      LowBitsIeee(poly, 0xEDB8_8320);
    }
    SameByteMoves(poly, poly[..8]);
    MovedDetected(poly, data, 0);
  }

  lemma SameByteMoves(poly: Word, low: seq<bool>)
    requires poly[..8] == low
    requires low == [false, false, false, true] + [true, true, true, false]
             || low == [false, false, false, false] + [false, true, false, false]
    ensures ShiftN(poly, ALL_ONES, 8) != ALL_ONES
  {
    assert forall i :: 0 <= i < 8 ==> poly[i] == low[i];
    ZeroByteMoves(poly);
  }

  lemma MovedDetected(poly: Word, data: Bytes, zero: Byte)
    requires poly[31] && zero == 0 && ShiftN(poly, ALL_ONES, 8) != ALL_ONES
    ensures Checksum(poly, [zero] + data) != Checksum(poly, data)
  {
    FeedBytes(poly, ALL_ONES, [zero], data);
    ZeroByteShifts(poly, zero);
    if Checksum(poly, [zero] + data) == Checksum(poly, data) {
      XorCancel(Feed(poly, ALL_ONES, AllBits([zero] + data)), Feed(poly, ALL_ONES, AllBits(data)), ALL_ONES);
      FeedInjective(poly, ShiftN(poly, ALL_ONES, 8), ALL_ONES, AllBits(data));
    }
  }

  lemma ZeroByteShifts(poly: Word, zero: Byte)
    requires zero == 0
    ensures Feed(poly, ALL_ONES, AllBits([zero])) == ShiftN(poly, ALL_ONES, 8)
  {
    var bits := ByteBits(zero);
    ZeroBits(zero);
    assert AllBits([zero]) == bits + AllBits([zero][1..]) && bits + [] == bits;
    FeedIsPaddedShift(poly, ALL_ONES, bits);
    assert Xor(ALL_ONES, Pad(bits)) == ALL_ONES;
  }

  lemma ZeroBits(zero: Byte)
    requires zero == 0
    ensures ByteBits(zero) == Repeat(false, 8)
  {
    FourBits(zero, 8, zero, false, false, false, false);
    FourBits(zero, 4, zero, false, false, false, false);
  }
}
