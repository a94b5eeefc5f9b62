/** The PNG checksum (image-canonical.ts:85-99): a 256-entry table and one lookup per byte.
    The reference is the shift register of RFC 2083 section 3.4, which takes one message bit at a time.
    A 32-bit word is the list of its bits, least significant first, so XOR-linearity is a pointwise fact. */
module Crc {
  import opened Bytes

  type Word = w: seq<bool> | |w| == 32 witness Zeros(32)

  /** The bits of 0xedb88320. */
  const POLYNOMIAL: Word :=
    [ false, false, false, false, false, true, false, false,
      true, true, false, false, false, false, false, true,
      false, false, false, true, true, true, false, true,
      true, false, true, true, false, true, true, true ]

  function Ones(n: nat): (z: seq<bool>)
    ensures |z| == n && forall i :: 0 <= i < n ==> z[i]
  {
    if n == 0 then [] else [true] + Ones(n - 1)
  }

  const ALL_ONES: Word := Ones(32)

  function Zeros(n: nat): (z: seq<bool>)
    ensures |z| == n && forall i :: 0 <= i < n ==> !z[i]
  {
    if n == 0 then [] else [false] + Zeros(n - 1)
  }

  function Xor(a: Word, b: Word): Word {
    seq(32, i requires 0 <= i < 32 => a[i] != b[i])
  }

  /** At most 32 bits at the low end of a word. */
  function Widen(bits: seq<bool>): Word
    requires |bits| <= 32
  {
    bits + Zeros(32 - |bits|)
  }

  /** The unsigned shift `c >>> n`. */
  function ShiftRight(c: Word, n: nat): Word
    requires n <= 32
  {
    c[n..] + Zeros(n)
  }

  /** One clock of the register: shift right, and add the polynomial when a one falls out. */
  function Shift(c: Word): Word {
    if c[0] then Xor(POLYNOMIAL, ShiftRight(c, 1)) else ShiftRight(c, 1)
  }

  function ShiftN(c: Word, n: nat): Word
    decreases n
  {
    if n == 0 then c else ShiftN(Shift(c), n - 1)
  }

  /** Bit 0 first. */
  function LowBits(b: nat, n: nat): (bits: seq<bool>)
    ensures |bits| == n
    decreases n
  {
    if n == 0 then [] else [b % 2 == 1] + LowBits(b / 2, n - 1)
  }

  function BitsOf(b: Byte): (bits: seq<bool>)
    ensures |bits| == 8
  {
    LowBits(b, 8)
  }

  function ValueOf(bits: seq<bool>): nat {
    if bits == [] then 0 else (if bits[0] then 1 else 0) + 2 * ValueOf(bits[1..])
  }

  ghost function Power2(n: nat): nat {
    if n == 0 then 1 else 2 * Power2(n - 1)
  }

  lemma {:induction false} ValueBound(bits: seq<bool>)
    ensures ValueOf(bits) < Power2(|bits|)
  {
    if bits != [] {
      ValueBound(bits[1..]);
    }
  }

  lemma {:induction false} BitsOfValue(bits: seq<bool>)
    ensures LowBits(ValueOf(bits), |bits|) == bits
  {
    if bits != [] {
      BitsOfValue(bits[1..]);
      assert ValueOf(bits) / 2 == ValueOf(bits[1..]);
    }
  }

  lemma {:induction false} ValueOfBits(b: nat, n: nat)
    requires b < Power2(n)
    ensures ValueOf(LowBits(b, n)) == b
    decreases n
  {
    if n > 0 {
      ValueOfBits(b / 2, n - 1);
      assert LowBits(b, n)[1..] == LowBits(b / 2, n - 1);
    }
  }

  lemma Power2Eight()
    ensures Power2(8) == 256
  {
    assert Power2(4) == 16;
  }

  function ByteOf(bits: seq<bool>): (b: Byte)
    requires |bits| == 8
    ensures BitsOf(b) == bits
  {
    ValueBound(bits);
    Power2Eight();
    BitsOfValue(bits);
    ValueOf(bits)
  }

  // ---------- Reference: one message bit per clock ----------

  function Bits(data: Buffer): seq<bool> {
    if data == [] then [] else BitsOf(data[0]) + Bits(data[1..])
  }

  /** The register after `bits`: each bit is added to the low end before the clock. */
  function Register(c: Word, bits: seq<bool>): Word
    decreases bits
  {
    if bits == [] then c else Register(Shift(Xor(c, Widen(bits[..1]))), bits[1..])
  }

  function PolynomialCrc(data: Buffer): Word {
    Xor(Register(ALL_ONES, Bits(data)), ALL_ONES)
  }

  // ---------- The table form ----------

  function TableEntry(n: Byte): Word {
    ShiftN(Widen(BitsOf(n)), |BitsOf(n)|)
  }

  function LowByte(c: Word, b: Byte): Byte {
    ByteOf(Xor(c, Widen(BitsOf(b)))[..8])
  }

  function Absorb(c: Word, b: Byte): Word {
    Xor(TableEntry(LowByte(c, b)), ShiftRight(c, 8))
  }

  function Fold(c: Word, data: Buffer): Word
    decreases data
  {
    if data == [] then c else Fold(Absorb(c, data[0]), data[1..])
  }

  function Crc32(data: Buffer): Word {
    Xor(Fold(ALL_ONES, data), ALL_ONES)
  }

  /** The four bytes `writeUInt32BE` stores. */
  function BigEndian(w: Word): (r: Buffer)
    ensures |r| == 4
  {
    [ByteOf(w[24..]), ByteOf(w[16..24]), ByteOf(w[8..16]), ByteOf(w[..8])]
  }

  /** The first `n` entries of the table. */
  function Entries(n: nat): (r: seq<Word>)
    requires n <= 256
    ensures |r| == n
  {
    if n == 0 then [] else Entries(n - 1) + [TableEntry(n - 1)]
  }

  lemma {:induction false} EntryAt(n: nat, k: Byte)
    requires k < n <= 256
    ensures Entries(n)[k] == TableEntry(k)
  {
    if k < n - 1 {
      EntryAt(n - 1, k);
    }
  }

  method BuildTable() returns (table: array<seq<bool>>)
    ensures fresh(table) && table.Length == 256 && table[..] == Entries(table.Length)
  {
    table := new seq<bool>[256];
    FillTable(table);
  }

  method FillTable(table: array<seq<bool>>)
    requires table.Length == 256
    modifies table
    ensures table[..] == Entries(table.Length)
  {
    var n := 0;
    while n < table.Length
      invariant 0 <= n <= table.Length
      invariant table[..n] == Entries(n)
    {
      table[n] := EightShifts(n);
      n := n + 1;
    }
  }

  /** The inner loop of the table: eight clocks from the entry's own index. */
  method EightShifts(n: Byte) returns (c: Word)
    ensures c == TableEntry(n)
  {
    c := Widen(BitsOf(n));
    var k := 0;
    while k < 8
      invariant 0 <= k <= 8
      invariant ShiftN(c, 8 - k) == TableEntry(n)
    {
      c := if c[0] then Xor(POLYNOMIAL, ShiftRight(c, 1)) else ShiftRight(c, 1);
      k := k + 1;
    }
  }

  /** The source's loop over the bytes computes the polynomial checksum. */
  method ComputeCrc32(table: array<seq<bool>>, data: Buffer) returns (r: Word)
    requires table.Length == 256 && table[..] == Entries(table.Length)
    ensures r == Crc32(data) == PolynomialCrc(data)
  {
    var crc: Word := ALL_ONES;
    var i := 0;
    while i < |data|
      invariant 0 <= i <= |data|
      invariant Fold(crc, data[i..]) == Fold(ALL_ONES, data)
    {
      assert data[i..][1..] == data[i + 1..];
      EntryAt(table.Length, LowByte(crc, data[i]));
      crc := Xor(table[LowByte(crc, data[i])], ShiftRight(crc, 8));
      i := i + 1;
    }
    TableIsPolynomial(data);
    r := Xor(crc, ALL_ONES);
  }

  // ---------- Linearity of the register ----------

  lemma {:induction false} ShiftNLinear(x: Word, y: Word, n: nat)
    ensures ShiftN(Xor(x, y), n) == Xor(ShiftN(x, n), ShiftN(y, n))
    decreases n
  {
    if n > 0 {
      assert Shift(Xor(x, y)) == Xor(Shift(x), Shift(y));
      ShiftNLinear(Shift(x), Shift(y), n - 1);
    }
  }

  /** Zero low bits shift out without any feedback. */
  lemma {:induction false} ZerosShiftOut(c: Word, n: nat)
    requires n <= 32 && forall i :: 0 <= i < n ==> !c[i]
    ensures ShiftN(c, n) == ShiftRight(c, n)
    decreases n
  {
    if n > 0 {
      ZerosShiftOut(Shift(c), n - 1);
      assert ShiftRight(ShiftRight(c, 1), n - 1) == ShiftRight(c, n);
    } else {
      assert ShiftRight(c, 0) == c;
    }
  }

  /** One table lookup is eight clocks of the register with the whole byte added at once. */
  lemma AbsorbIsShift(c: Word, b: Byte)
    ensures Absorb(c, b) == ShiftN(Xor(c, Widen(BitsOf(b))), 8)
  {
    var x := Xor(c, Widen(BitsOf(b)));
    var low, high := Widen(x[..8]), Zeros(8) + c[8..];
    assert x == Xor(low, high);
    ShiftNLinear(low, high, 8);
    ZerosShiftOut(high, 8);
    assert ShiftRight(high, 8) == ShiftRight(c, 8);
  }

  /** Adding the bits one per clock is adding them all before the first clock. */
  lemma {:induction false} RegisterBits(c: Word, bits: seq<bool>)
    requires |bits| <= 32
    ensures Register(c, bits) == ShiftN(Xor(c, Widen(bits)), |bits|)
    decreases bits
  {
    if bits == [] {
      assert Xor(c, Widen(bits)) == c;
    } else {
      var next := Shift(Xor(c, Widen(bits[..1])));
      assert Shift(Xor(c, Widen(bits))) == Xor(next, Widen(bits[1..]));
      RegisterBits(next, bits[1..]);
    }
  }

  lemma {:induction false} RegisterAppend(c: Word, a: seq<bool>, b: seq<bool>)
    ensures Register(c, a + b) == Register(Register(c, a), b)
    decreases a
  {
    if a == [] {
      assert a + b == b;
    } else {
      assert (a + b)[..1] == a[..1] && (a + b)[1..] == a[1..] + b;
      RegisterAppend(Shift(Xor(c, Widen(a[..1]))), a[1..], b);
    }
  }

  lemma {:induction false} FoldIsRegister(c: Word, data: Buffer)
    ensures Fold(c, data) == Register(c, Bits(data))
    decreases data
  {
    if data != [] {
      AbsorbIsShift(c, data[0]);
      RegisterBits(c, BitsOf(data[0]));
      RegisterAppend(c, BitsOf(data[0]), Bits(data[1..]));
      FoldIsRegister(Absorb(c, data[0]), data[1..]);
    }
  }

  /** The table-driven checksum is the bit-at-a-time polynomial checksum, for every byte sequence. */
  lemma TableIsPolynomial(data: Buffer)
    ensures Crc32(data) == PolynomialCrc(data)
  {
    FoldIsRegister(ALL_ONES, data);
  }

  // ---------- What the checksum detects ----------

  lemma XorCancels(a: Word, b: Word, v: Word)
    requires Xor(a, v) == Xor(b, v)
    ensures a == b
  {
    forall i | 0 <= i < 32 ensures a[i] == b[i] {
      assert Xor(a, v)[i] == Xor(b, v)[i];
    }
  }

  /** The polynomial's top bit is set, so a clock can be undone. */
  lemma ShiftInjective(x: Word, y: Word)
    requires Shift(x) == Shift(y)
    ensures x == y
  {
    assert Shift(x)[31] == x[0] && Shift(y)[31] == y[0];
    forall i | 0 < i < 32 ensures x[i] == y[i] {
      assert Shift(x)[i - 1] == Shift(y)[i - 1];
    }
  }

  lemma {:induction false} ShiftNInjective(x: Word, y: Word, n: nat)
    requires ShiftN(x, n) == ShiftN(y, n)
    ensures x == y
    decreases n
  {
    if n > 0 {
      ShiftNInjective(Shift(x), Shift(y), n - 1);
      ShiftInjective(x, y);
    }
  }

  lemma {:induction false} FoldInjective(c: Word, d: Word, data: Buffer)
    requires Fold(c, data) == Fold(d, data)
    ensures c == d
    decreases data
  {
    if data != [] {
      FoldInjective(Absorb(c, data[0]), Absorb(d, data[0]), data[1..]);
      AbsorbIsShift(c, data[0]);
      AbsorbIsShift(d, data[0]);
      ShiftNInjective(Xor(c, Widen(BitsOf(data[0]))), Xor(d, Widen(BitsOf(data[0]))), 8);
      XorCancels(c, d, Widen(BitsOf(data[0])));
    }
  }

  lemma {:induction false} FoldAppend(c: Word, a: Buffer, b: Buffer)
    ensures Fold(c, a + b) == Fold(Fold(c, a), b)
    decreases a
  {
    if a == [] {
      assert a + b == b;
    } else {
      assert (a + b)[0] == a[0] && (a + b)[1..] == a[1..] + b;
      FoldAppend(Absorb(c, a[0]), a[1..], b);
    }
  }

  lemma BitsOfInjective(x: Byte, y: Byte)
    requires BitsOf(x) == BitsOf(y)
    ensures x == y
  {
    Power2Eight();
    ValueOfBits(x, 8);
    ValueOfBits(y, 8);
  }

  lemma AbsorbInjective(c: Word, x: Byte, y: Byte)
    requires Absorb(c, x) == Absorb(c, y)
    ensures x == y
  {
    AbsorbIsShift(c, x);
    AbsorbIsShift(c, y);
    var wx, wy := Widen(BitsOf(x)), Widen(BitsOf(y));
    ShiftNInjective(Xor(c, wx), Xor(c, wy), 8);
    XorCommutes(wx, c);
    XorCommutes(wy, c);
    XorCancels(wx, wy, c);
    assert wx[..8] == BitsOf(x) && wy[..8] == BitsOf(y);
    BitsOfInjective(x, y);
  }

  lemma XorCommutes(a: Word, b: Word)
    ensures Xor(a, b) == Xor(b, a)
  {
  }

  lemma FoldFirst(c: Word, x: Byte, after: Buffer)
    ensures Fold(c, [x] + after) == Fold(Absorb(c, x), after)
  {
    assert ([x] + after)[1..] == after;
  }

  lemma FoldMiddle(c: Word, before: Buffer, x: Byte, after: Buffer)
    ensures Fold(c, before + [x] + after) == Fold(Absorb(Fold(c, before), x), after)
  {
    assert before + [x] + after == before + ([x] + after);
    FoldAppend(c, before, [x] + after);
    FoldFirst(Fold(c, before), x, after);
  }

  /** A message in which exactly one byte was changed never keeps its checksum, so a chunk with such an error is refused. */
  lemma OneByteErrorDetected(before: Buffer, x: Byte, y: Byte, after: Buffer)
    requires x != y
    ensures Crc32(before + [x] + after) != Crc32(before + [y] + after)
  {
    if Crc32(before + [x] + after) == Crc32(before + [y] + after) {
      var c := Fold(ALL_ONES, before);
      XorCancels(Fold(ALL_ONES, before + [x] + after), Fold(ALL_ONES, before + [y] + after), ALL_ONES);
      FoldMiddle(ALL_ONES, before, x, after);
      FoldMiddle(ALL_ONES, before, y, after);
      FoldInjective(Absorb(c, x), Absorb(c, y), after);
      AbsorbInjective(c, x, y);
    }
  }
}
