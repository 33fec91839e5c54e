/** Bytes as bit vectors, and the numbers their bits stand for. */
module ByteValues {
  /** Binary digits, least significant first. */
  function ToBits(n: nat, count: nat): (bits: seq<bool>)
    ensures |bits| == count
  {
    if count == 0 then [] else [n % 2 == 1] + ToBits(n / 2, count - 1)
  }

  function FromBits(bits: seq<bool>): nat {
    if bits == [] then 0 else (if bits[0] then 1 else 0) + 2 * FromBits(bits[1..])
  }

  function PowerOfTwo(k: nat): nat { if k == 0 then 1 else 2 * PowerOfTwo(k - 1) }

  lemma {:induction false} FromToBits(n: nat, count: nat)
    requires n < PowerOfTwo(count)
    ensures FromBits(ToBits(n, count)) == n
  {
    if count > 0 { FromToBits(n / 2, count - 1); }
  }

  lemma {:induction false} ToFromBits(bits: seq<bool>)
    ensures FromBits(bits) < PowerOfTwo(|bits|)
    ensures ToBits(FromBits(bits), |bits|) == bits
  {
    if bits != [] { ToFromBits(bits[1..]); }
  }

  predicate Bit(b: bv8, mask: bv8) { b & mask != 0 }

  function BitsOf(b: bv8): (bits: seq<bool>)
    ensures |bits| == 8
  {
    [Bit(b, 0x01), Bit(b, 0x02), Bit(b, 0x04), Bit(b, 0x08), Bit(b, 0x10), Bit(b, 0x20), Bit(b, 0x40), Bit(b, 0x80)]
  }

  function Mask(bit: bool, mask: bv8): bv8 { if bit then mask else 0 }

  function Gathered(b0: bool, b1: bool, b2: bool, b3: bool, b4: bool, b5: bool, b6: bool, b7: bool): bv8 {
    Mask(b0, 0x01) | Mask(b1, 0x02) | Mask(b2, 0x04) | Mask(b3, 0x08) |
    Mask(b4, 0x10) | Mask(b5, 0x20) | Mask(b6, 0x40) | Mask(b7, 0x80)
  }

  function Gather(bits: seq<bool>): bv8
    requires |bits| == 8
  {
    Gathered(bits[0], bits[1], bits[2], bits[3], bits[4], bits[5], bits[6], bits[7])
  }

  lemma GatheredBits(b0: bool, b1: bool, b2: bool, b3: bool, b4: bool, b5: bool, b6: bool, b7: bool)
    ensures
      var b := Gathered(b0, b1, b2, b3, b4, b5, b6, b7);
      && Bit(b, 0x01) == b0 && Bit(b, 0x02) == b1 && Bit(b, 0x04) == b2 && Bit(b, 0x08) == b3
      && Bit(b, 0x10) == b4 && Bit(b, 0x20) == b5 && Bit(b, 0x40) == b6 && Bit(b, 0x80) == b7
  {}

  lemma BitsOfGather(bits: seq<bool>)
    requires |bits| == 8
    ensures BitsOf(Gather(bits)) == bits
  {
    hide Gathered, Bit;
    GatheredBits(bits[0], bits[1], bits[2], bits[3], bits[4], bits[5], bits[6], bits[7]);
  }

  lemma GatheredAll(b: bv8)
    ensures Gathered(Bit(b, 0x01), Bit(b, 0x02), Bit(b, 0x04), Bit(b, 0x08),
                     Bit(b, 0x10), Bit(b, 0x20), Bit(b, 0x40), Bit(b, 0x80)) == b
  {}

  lemma GatherBitsOf(b: bv8)
    ensures Gather(BitsOf(b)) == b
  {
    hide Gathered, Bit;
    GatheredAll(b);
  }

  /** The number a byte stands for. */
  function Value(b: bv8): (n: nat)
    ensures n < 0x100
  {
    ToFromBits(BitsOf(b));
    FromBits(BitsOf(b))
  }

  /** The byte that stands for a number. */
  function ByteOf(n: nat): bv8
    requires n < 0x100
  {
    Gather(ToBits(n, 8))
  }

  lemma ValueOfByteOf(n: nat)
    requires n < 0x100
    ensures Value(ByteOf(n)) == n
  {
    hide BitsOf, Gather;
    BitsOfGather(ToBits(n, 8));
    FromToBits(n, 8);
  }

  lemma ByteOfValue(b: bv8)
    ensures ByteOf(Value(b)) == b
  {
    ToFromBits(BitsOf(b));
    GatherBitsOf(b);
    hide BitsOf, Gather;
  }
}
