/** CRC-16/CCITT-FALSE: polynomial 0x1021, initial value 0xFFFF, no reflection, no final XOR. */
module Crc {
  import opened Words
  import opened ByteValues

  const INITIAL: bv16 := 0xFFFF

  // The word operations are named so that proofs can be made from the facts about them.

  function Xor(a: bv16, b: bv16): bv16 { a ^ b }

  function Doubled(c: bv16): bv16 { c << 1 }

  predicate Top(c: bv16) { c & 0x8000 != 0 }

  function Low(byte: bv8): bv16 { byte as bv16 }

  function High(byte: bv8): bv16 { byte as bv16 << 8 }

  /** One bit of polynomial division. */
  function ShiftBit(c: bv16): bv16 {
    if Top(c) then Xor(Doubled(c), 0x1021) else Doubled(c)
  }

  function ShiftBits(c: bv16, n: nat): bv16 {
    if n == 0 then c else ShiftBit(ShiftBits(c, n - 1))
  }

  function CrcByte(c: bv16, byte: bv8): bv16 { ShiftBits(Xor(c, High(byte)), 8) }

  function CrcFrom(c: bv16, data: seq<bv8>): bv16
    decreases |data|
  {
    if data == [] then c else CrcFrom(CrcByte(c, data[0]), data[1..])
  }

  lemma CrcOfFirst(c: bv16, byte: bv8, rest: seq<bv8>)
    ensures CrcFrom(c, [byte] + rest) == CrcFrom(CrcByte(c, byte), rest)
  {
    assert ([byte] + rest)[1..] == rest;
  }

  lemma EightShifts(c: bv16)
    ensures ShiftBits(c, 8) == ShiftBit(ShiftBit(ShiftBit(ShiftBit(ShiftBit(ShiftBit(ShiftBit(ShiftBit(c))))))))
  {
    hide ShiftBit;
    ShiftTwice(c, 0);
    ShiftTwice(c, 2);
    ShiftTwice(c, 4);
    ShiftTwice(c, 6);
  }

  lemma ShiftTwice(c: bv16, n: nat)
    ensures ShiftBits(c, n + 2) == ShiftBit(ShiftBit(ShiftBits(c, n)))
    ensures ShiftBits(c, 0) == c
  {
    hide ShiftBit;
    assert ShiftBits(c, n + 1) == ShiftBit(ShiftBits(c, n));
  }

  lemma CheckByte1()
    ensures CrcByte(0xFFFF, 0x31) == 0xC782
  {
    EightShifts(0xCEFF);
  }

  lemma CheckByte2()
    ensures CrcByte(0xC782, 0x32) == 0x3DBA
  {
    EightShifts(0xF582);
  }

  lemma CheckByte3()
    ensures CrcByte(0x3DBA, 0x33) == 0x5BCE
  {
    EightShifts(0x0EBA);
  }

  lemma CheckByte4()
    ensures CrcByte(0x5BCE, 0x34) == 0x5349
  {
    EightShifts(0x6FCE);
  }

  lemma CheckByte5()
    ensures CrcByte(0x5349, 0x35) == 0x4560
  {
    EightShifts(0x6649);
  }

  lemma CheckByte6()
    ensures CrcByte(0x4560, 0x36) == 0x2EF4
  {
    EightShifts(0x7360);
  }

  lemma CheckByte7()
    ensures CrcByte(0x2EF4, 0x37) == 0x7718
  {
    EightShifts(0x19F4);
  }

  lemma CheckByte8()
    ensures CrcByte(0x7718, 0x38) == 0xA12B
  {
    EightShifts(0x4F18);
  }

  lemma CheckByte9()
    ensures CrcByte(0xA12B, 0x39) == 0x29B1
  {
    EightShifts(0x982B);
  }

  lemma LastFive()
    ensures CrcFrom(0x5349, [0x35, 0x36, 0x37, 0x38, 0x39]) == 0x29B1
  {
    hide CrcByte;
    CheckByte5();
    CheckByte6();
    CheckByte7();
    CheckByte8();
    CheckByte9();
    CrcOfFirst(0x5349, 0x35, [0x36, 0x37, 0x38, 0x39]);
    assert [0x35] + [0x36, 0x37, 0x38, 0x39] == [0x35, 0x36, 0x37, 0x38, 0x39];
    CrcOfFirst(0x4560, 0x36, [0x37, 0x38, 0x39]);
    assert [0x36] + [0x37, 0x38, 0x39] == [0x36, 0x37, 0x38, 0x39];
    CrcOfFirst(0x2EF4, 0x37, [0x38, 0x39]);
    assert [0x37] + [0x38, 0x39] == [0x37, 0x38, 0x39];
    CrcOfFirst(0x7718, 0x38, [0x39]);
    assert [0x38] + [0x39] == [0x38, 0x39];
    CrcOfFirst(0xA12B, 0x39, []);
    assert [0x39] + [] == [0x39];
  }

  lemma CheckValue()
    ensures CrcFrom(INITIAL, [0x31, 0x32, 0x33, 0x34, 0x35, 0x36, 0x37, 0x38, 0x39]) == 0x29B1
  {
    hide CrcByte;
    var last := [0x35, 0x36, 0x37, 0x38, 0x39];
    LastFive();
    CheckByte1();
    CheckByte2();
    CheckByte3();
    CheckByte4();
    CrcOfFirst(0x5BCE, 0x34, last);
    CrcOfFirst(0x3DBA, 0x33, [0x34] + last);
    CrcOfFirst(0xC782, 0x32, [0x33] + ([0x34] + last));
    CrcOfFirst(0xFFFF, 0x31, [0x32] + ([0x33] + ([0x34] + last)));
    hide CrcFrom;
    assert [0x31] + ([0x32] + ([0x33] + ([0x34] + last))) == [0x31, 0x32, 0x33, 0x34, 0x35, 0x36, 0x37, 0x38, 0x39];
  }

  // ---------------------------------------------------------------------------
  // No step of the division loses information
  // ---------------------------------------------------------------------------

  /** The polynomial is odd, so the bit shifted in tells whether it was added. */
  function Unshift(r: bv16): bv16 {
    if r & 1 != 0 then 0x8000 | ((r ^ 0x1021) >> 1) else r >> 1
  }

  lemma UnshiftPlain(c: bv16)
    requires c & 0x8000 == 0
    ensures (c << 1) & 1 == 0 && (c << 1) >> 1 == c
  {}

  lemma UnshiftReduced(c: bv16)
    requires c & 0x8000 != 0
    ensures ((c << 1) ^ 0x1021) & 1 != 0 && 0x8000 | ((((c << 1) ^ 0x1021) ^ 0x1021) >> 1) == c
  {}

  lemma UnshiftUndoes(c: bv16)
    ensures Unshift(ShiftBit(c)) == c
  {
    if c & 0x8000 == 0 { UnshiftPlain(c); } else { UnshiftReduced(c); }
  }

  lemma ShiftBitInjective(a: bv16, b: bv16)
    requires ShiftBit(a) == ShiftBit(b)
    ensures a == b
  {
    hide ShiftBit, Unshift;
    UnshiftUndoes(a);
    UnshiftUndoes(b);
  }

  lemma {:induction false} ShiftBitsInjective(a: bv16, b: bv16, n: nat)
    requires ShiftBits(a, n) == ShiftBits(b, n)
    ensures a == b
  {
    hide ShiftBit;
    if n > 0 {
      ShiftBitInjective(ShiftBits(a, n - 1), ShiftBits(b, n - 1));
      ShiftBitsInjective(a, b, n - 1);
    }
  }

  lemma XorCancels(a: bv16, b: bv16, x: bv16)
    requires Xor(a, x) == Xor(b, x)
    ensures a == b
  {}

  lemma XorCancelsLeft(c: bv16, x: bv16, y: bv16)
    requires Xor(c, x) == Xor(c, y)
    ensures x == y
  {}

  lemma HighInjective(x: bv8, y: bv8)
    requires High(x) == High(y)
    ensures x == y
  {}

  /** A byte step is injective in the state for fixed data and in the data for a fixed state. */
  lemma CrcByteInjective(c: bv16, d: bv16, x: bv8, y: bv8)
    requires CrcByte(c, x) == CrcByte(d, y) && (c == d || x == y)
    ensures c == d && x == y
  {
    hide ShiftBits, Xor, High;
    ShiftBitsInjective(Xor(c, High(x)), Xor(d, High(y)), 8);
    if x == y {
      XorCancels(c, d, High(x));
    } else {
      XorCancelsLeft(c, High(x), High(y));
      HighInjective(x, y);
    }
  }

  /** The same data keeps different states different. */
  lemma {:induction false} CrcFromInjective(c: bv16, d: bv16, data: seq<bv8>)
    requires CrcFrom(c, data) == CrcFrom(d, data)
    ensures c == d
    decreases |data|
  {
    hide CrcByte;
    if data != [] {
      CrcFromInjective(CrcByte(c, data[0]), CrcByte(d, data[0]), data[1..]);
      CrcByteInjective(c, d, data[0], data[0]);
    }
  }

  lemma {:induction false} CrcFromAppend(c: bv16, a: seq<bv8>, b: seq<bv8>)
    ensures CrcFrom(c, a + b) == CrcFrom(CrcFrom(c, a), b)
    decreases |a|
  {
    hide CrcByte;
    if a == [] {
      assert a + b == b;
    } else {
      assert (a + b)[1..] == a[1..] + b;
      CrcFromAppend(CrcByte(c, a[0]), a[1..], b);
    }
  }

  // ---------------------------------------------------------------------------
  // Two adjacent bytes are one sixteen-bit word
  // ---------------------------------------------------------------------------

  lemma XorBelowTop(v: bv16, y: bv16)
    requires !Top(y)
    ensures Top(Xor(v, y)) == Top(v)
    ensures Doubled(Xor(v, y)) == Xor(Doubled(v), Doubled(y))
  {}

  lemma XorSwaps(a: bv16, b: bv16)
    ensures Xor(Xor(a, b), 0x1021) == Xor(Xor(a, 0x1021), b)
  {}

  /** A bit below the top passes through a division step unreduced. */
  lemma ShiftBitLinear(v: bv16, y: bv16)
    requires !Top(y)
    ensures ShiftBit(Xor(v, y)) == Xor(ShiftBit(v), Doubled(y))
  {
    hide Top, Xor, Doubled;
    XorBelowTop(v, y);
    XorSwaps(Doubled(v), Doubled(y));
  }

  function DoubledTimes(y: bv16, n: nat): bv16 {
    if n == 0 then y else Doubled(DoubledTimes(y, n - 1))
  }

  lemma {:induction false} ManyLinear(v: bv16, y: bv16, n: nat)
    requires forall i :: 0 <= i < n ==> !Top(DoubledTimes(y, i))
    ensures ShiftBits(Xor(v, y), n) == Xor(ShiftBits(v, n), DoubledTimes(y, n))
  {
    hide Top, Xor, Doubled, ShiftBit;
    if n > 0 {
      ManyLinear(v, y, n - 1);
      assert !Top(DoubledTimes(y, n - 1));
      ShiftBitLinear(ShiftBits(v, n - 1), DoubledTimes(y, n - 1));
    }
  }

  lemma EightDoublings(byte: bv8, y1: bv16, y2: bv16, y3: bv16, y4: bv16, y5: bv16, y6: bv16, y7: bv16)
    requires y1 == Doubled(Low(byte)) && y2 == Doubled(y1) && y3 == Doubled(y2) && y4 == Doubled(y3)
    requires y5 == Doubled(y4) && y6 == Doubled(y5) && y7 == Doubled(y6)
    ensures !Top(Low(byte)) && !Top(y1) && !Top(y2) && !Top(y3) && !Top(y4) && !Top(y5) && !Top(y6) && !Top(y7)
    ensures Doubled(y7) == High(byte)
  {}

  lemma NextDoubling(y: bv16, n: nat)
    ensures DoubledTimes(y, n + 1) == Doubled(DoubledTimes(y, n))
  {
    hide Doubled;
  }

  /** Eight doublings take a low byte to the high byte without reaching the top bit before. */
  lemma LowBecomesHigh(byte: bv8)
    ensures DoubledTimes(Low(byte), 8) == High(byte)
    ensures forall i :: 0 <= i < 8 ==> !Top(DoubledTimes(Low(byte), i))
  {
    hide Doubled, Low, High, Top;
    var y := Low(byte);
    assert DoubledTimes(y, 0) == y;
    hide DoubledTimes;
    NextDoubling(y, 0);
    NextDoubling(y, 1);
    NextDoubling(y, 2);
    NextDoubling(y, 3);
    NextDoubling(y, 4);
    NextDoubling(y, 5);
    NextDoubling(y, 6);
    NextDoubling(y, 7);
    EightDoublings(byte, DoubledTimes(y, 1), DoubledTimes(y, 2), DoubledTimes(y, 3), DoubledTimes(y, 4),
                   DoubledTimes(y, 5), DoubledTimes(y, 6), DoubledTimes(y, 7));
    forall i | 0 <= i < 8 ensures !Top(DoubledTimes(y, i)) {
      assert i == 0 || i == 1 || i == 2 || i == 3 || i == 4 || i == 5 || i == 6 || i == 7;
    }
  }

  lemma WordInjective(c: bv16, x: bv8, y: bv8, x': bv8, y': bv8)
    requires Xor(Xor(c, High(x)), Low(y)) == Xor(Xor(c, High(x')), Low(y'))
    ensures x == x' && y == y'
  {}

  /** Two byte steps divide the word made of both bytes by sixteen bits. */
  lemma PairWord(c: bv16, x: bv8, y: bv8)
    ensures CrcByte(CrcByte(c, x), y) == ShiftBits(ShiftBits(Xor(Xor(c, High(x)), Low(y)), 8), 8)
  {
    hide ShiftBits, Xor, High, Low, Top, DoubledTimes;
    LowBecomesHigh(y);
    ManyLinear(Xor(c, High(x)), Low(y), 8);
  }

  /** Two byte steps from one state are injective in the pair of bytes. */
  lemma CrcPairInjective(c: bv16, x: bv8, y: bv8, x': bv8, y': bv8)
    requires CrcByte(CrcByte(c, x), y) == CrcByte(CrcByte(c, x'), y')
    ensures x == x' && y == y'
  {
    hide CrcByte, ShiftBits, Xor, High, Low;
    PairWord(c, x, y);
    PairWord(c, x', y');
    var v, w := Xor(Xor(c, High(x)), Low(y)), Xor(Xor(c, High(x')), Low(y'));
    ShiftBitsInjective(ShiftBits(v, 8), ShiftBits(w, 8), 8);
    ShiftBitsInjective(v, w, 8);
    WordInjective(c, x, y, x', y');
  }

  lemma PairFirst(a: seq<bv8>, x: bv8, y: bv8, b: seq<bv8>)
    ensures CrcFrom(INITIAL, a + [x, y] + b)
         == CrcFrom(CrcByte(CrcByte(CrcFrom(INITIAL, a), x), y), b)
  {
    hide CrcByte;
    var c := CrcFrom(INITIAL, a);
    CrcFromAppend(INITIAL, a + [x, y], b);
    CrcFromAppend(INITIAL, a, [x, y]);
    assert [x, y][1..] == [y] && [y][1..] == [];
    assert CrcFrom(c, [x, y]) == CrcFrom(CrcByte(c, x), [y]);
    assert CrcFrom(CrcByte(c, x), [y]) == CrcFrom(CrcByte(CrcByte(c, x), y), []);
  }

  lemma TwoBitsBytesDetected(a: seq<bv8>, x: bv8, y: bv8, x': bv8, y': bv8, b: seq<bv8>)
    requires x != x' || y != y'
    ensures CrcFrom(INITIAL, a + [x, y] + b) != CrcFrom(INITIAL, a + [x', y'] + b)
  {
    hide CrcByte, CrcFrom;
    var c := CrcFrom(INITIAL, a);
    PairFirst(a, x, y, b);
    PairFirst(a, x', y', b);
    if CrcFrom(INITIAL, a + [x, y] + b) == CrcFrom(INITIAL, a + [x', y'] + b) {
      CrcFromInjective(CrcByte(CrcByte(c, x), y), CrcByte(CrcByte(c, x'), y'), b);
      CrcPairInjective(c, x, y, x', y');
    }
  }

  // ---------------------------------------------------------------------------
  // The CRC of bytes as numbers
  // ---------------------------------------------------------------------------

  function Bits(data: seq<Byte>): (bits: seq<bv8>)
    ensures |bits| == |data|
  {
    seq(|data|, i requires 0 <= i < |data| => ByteOf(data[i]))
  }

  function LowHalf(c: bv16): bv8 { (c & 0xFF) as bv8 }

  function HighHalf(c: bv16): bv8 { (c >> 8) as bv8 }

  lemma HalvesInjective(a: bv16, b: bv16)
    requires LowHalf(a) == LowHalf(b) && HighHalf(a) == HighHalf(b)
    ensures a == b
  {}

  function Number(c: bv16): U16 { Value(LowHalf(c)) + 0x100 * Value(HighHalf(c)) }

  lemma NumberInjective(a: bv16, b: bv16)
    requires Number(a) == Number(b)
    ensures a == b
  {
    hide LowHalf, HighHalf, Value, ByteOf;
    ByteOfValue(LowHalf(a));
    ByteOfValue(LowHalf(b));
    ByteOfValue(HighHalf(a));
    ByteOfValue(HighHalf(b));
    HalvesInjective(a, b);
  }

  function CrcOf(data: seq<Byte>): U16 { Number(CrcFrom(INITIAL, Bits(data))) }

  lemma Digit1()
    ensures ByteOf(0x31) == 0x31
  {
    assert ToBits(0x31, 8) == [true, false, false, false, true, true, false, false];
  }

  lemma Digit2()
    ensures ByteOf(0x32) == 0x32
  {
    assert ToBits(0x32, 8) == [false, true, false, false, true, true, false, false];
  }

  lemma Digit3()
    ensures ByteOf(0x33) == 0x33
  {
    assert ToBits(0x33, 8) == [true, true, false, false, true, true, false, false];
  }

  lemma Digit4()
    ensures ByteOf(0x34) == 0x34
  {
    assert ToBits(0x34, 8) == [false, false, true, false, true, true, false, false];
  }

  lemma Digit5()
    ensures ByteOf(0x35) == 0x35
  {
    assert ToBits(0x35, 8) == [true, false, true, false, true, true, false, false];
  }

  lemma Digit6()
    ensures ByteOf(0x36) == 0x36
  {
    assert ToBits(0x36, 8) == [false, true, true, false, true, true, false, false];
  }

  lemma Digit7()
    ensures ByteOf(0x37) == 0x37
  {
    assert ToBits(0x37, 8) == [true, true, true, false, true, true, false, false];
  }

  lemma Digit8()
    ensures ByteOf(0x38) == 0x38
  {
    assert ToBits(0x38, 8) == [false, false, false, true, true, true, false, false];
  }

  lemma Digit9()
    ensures ByteOf(0x39) == 0x39
  {
    assert ToBits(0x39, 8) == [true, false, false, true, true, true, false, false];
  }

  lemma CheckNumber()
    ensures Number(0x29B1) == 0x29B1
  {
    assert LowHalf(0x29B1) == 0xB1 && HighHalf(0x29B1) == 0x29;
    assert BitsOf(0xB1) == [true, false, false, false, true, true, false, true];
    assert BitsOf(0x29) == [true, false, false, true, false, true, false, false];
    assert FromBits([true, false, false, false, true, true, false, true]) == 0xB1;
    assert FromBits([true, false, false, true, false, true, false, false]) == 0x29;
  }

  /** The check value of CRC-16/CCITT-FALSE: the CRC of the nine ASCII digits "123456789". */
  lemma CheckValueOfDigits()
    ensures CrcOf([0x31, 0x32, 0x33, 0x34, 0x35, 0x36, 0x37, 0x38, 0x39]) == 0x29B1
  {
    hide ByteOf, CrcFrom, Number;
    Digit1();
    Digit2();
    Digit3();
    Digit4();
    Digit5();
    Digit6();
    Digit7();
    Digit8();
    Digit9();
    CheckNumber();
    CheckValue();
    assert Bits([0x31, 0x32, 0x33, 0x34, 0x35, 0x36, 0x37, 0x38, 0x39])
        == [0x31, 0x32, 0x33, 0x34, 0x35, 0x36, 0x37, 0x38, 0x39];
  }

  method Crc16(data: seq<Byte>) returns (crc: U16)
    ensures crc == CrcOf(data)
  {
    hide Xor, Doubled, Top, High, ByteOf, Number;
    var c := INITIAL;
    ghost var bits := Bits(data);
    for i := 0 to |data|
      invariant CrcFrom(INITIAL, bits) == CrcFrom(c, bits[i..])
    {
      ghost var before := c;
      c := Xor(c, High(ByteOf(data[i])));
      ghost var mixed := c;
      for j := 0 to 8
        invariant c == ShiftBits(mixed, j)
      {
        c := if Top(c) then Xor(Doubled(c), 0x1021) else Doubled(c);
      }
      assert c == CrcByte(before, bits[i]);
      assert bits[i..][1..] == bits[i + 1..];
    }
    assert bits[|data|..] == [];
    crc := Number(c);
  }

  /** Corruption confined to two adjacent bytes always changes the CRC. */
  lemma TwoBytesDetected(a: seq<Byte>, x: Byte, y: Byte, x': Byte, y': Byte, b: seq<Byte>)
    requires x != x' || y != y'
    ensures CrcOf(a + [x, y] + b) != CrcOf(a + [x', y'] + b)
  {
    hide CrcFrom, Number, ByteOf, Value;
    ValueOfByteOf(x);
    ValueOfByteOf(y);
    ValueOfByteOf(x');
    ValueOfByteOf(y');
    BitsSplit(a, x, y, b);
    BitsSplit(a, x', y', b);
    TwoBitsBytesDetected(Bits(a), ByteOf(x), ByteOf(y), ByteOf(x'), ByteOf(y'), Bits(b));
    if CrcOf(a + [x, y] + b) == CrcOf(a + [x', y'] + b) {
      NumberInjective(CrcFrom(INITIAL, Bits(a + [x, y] + b)), CrcFrom(INITIAL, Bits(a + [x', y'] + b)));
      assert false;
    }
  }

  lemma BitsSplit(a: seq<Byte>, x: Byte, y: Byte, b: seq<Byte>)
    ensures Bits(a + [x, y] + b) == Bits(a) + [ByteOf(x), ByteOf(y)] + Bits(b)
  {
    hide ByteOf;
  }
}
