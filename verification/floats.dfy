/** 32-bit floats as the host sends them: a word, and the real number it stands for. */
module Floats {
  import opened Words

  function Exponent(bits: U32): nat { bits / 0x80_0000 % 0x100 }

  function Mantissa(bits: U32): nat { bits % 0x80_0000 }

  /** Neither infinite nor a NaN. */
  predicate IsFinite(bits: U32) { Exponent(bits) != 0xFF }

  function PowerOfTwo(e: int): real
    decreases if e < 0 then -e else e
  {
    if e == 0 then 1.0
    else if e > 0 then 2.0 * PowerOfTwo(e - 1)
    else PowerOfTwo(e + 1) / 2.0
  }

  /** The value of a finite word; both zeros stand for zero. */
  function RealOf(bits: U32): real {
    var magnitude :=
      if Exponent(bits) == 0 then Mantissa(bits) as real * PowerOfTwo(-149)
      else (0x80_0000 + Mantissa(bits)) as real * PowerOfTwo(Exponent(bits) - 150);
    if bits >= 0x8000_0000 then -magnitude else magnitude
  }

  /** Powers of two double at every step, from one at zero. */
  lemma PowerDoubles(e: int)
    ensures PowerOfTwo(0) == 1.0 && PowerOfTwo(e + 1) == 2.0 * PowerOfTwo(e)
  {}

  /** All words but the infinities and the NaNs behind them. */
  lemma FiniteExactly(bits: U32)
    ensures IsFinite(bits) <==> bits as int % 0x8000_0000 < 0x7F80_0000
  {
    var low: int := bits as int % 0x8000_0000;
    assert bits as int / 0x80_0000 % 0x100 == low / 0x80_0000;
  }

  /** The top bit is the sign. */
  lemma SignNegates(bits: U32)
    requires bits < 0x8000_0000
    ensures RealOf(bits + 0x8000_0000) == -RealOf(bits)
  {
    hide PowerOfTwo;
    assert Exponent(bits + 0x8000_0000) == Exponent(bits) && Mantissa(bits + 0x8000_0000) == Mantissa(bits);
  }

  /** From one word to the next the value grows by one quantum, which doubles with every
      binade but the first. With zero at the word zero this is every value there is. */
  lemma NextWordIsOneQuantumMore(bits: U32)
    requires bits + 1 < 0x7F80_0000
    ensures
      var binade: int := bits as int / 0x80_0000;
      RealOf(bits + 1) - RealOf(bits) == PowerOfTwo((if binade == 0 then 1 else binade) - 150)
  {
    hide PowerOfTwo;
    var binade: int := bits as int / 0x80_0000;
    assert Exponent(bits) == binade;
    if Mantissa(bits) < 0x7F_FFFF {
      assert Exponent(bits + 1) == binade && Mantissa(bits + 1) == Mantissa(bits) + 1;
      OneMore((if binade == 0 then 0 else 0x80_0000) + Mantissa(bits), PowerOfTwo((if binade == 0 then 1 else binade) - 150));
    } else {
      assert Exponent(bits + 1) == binade + 1 && Mantissa(bits + 1) == 0 && Mantissa(bits) == 0x7F_FFFF;
      PowerDoubles(binade - 150);
      var q := PowerOfTwo((if binade == 0 then 1 else binade) - 150);
      assert RealOf(bits + 1) == 8388608.0 * PowerOfTwo(binade - 149);
      if binade == 0 {
        assert RealOf(bits) == 8388607.0 * q;
      } else {
        assert (0x80_0000 + Mantissa(bits)) as real == 16777215.0;
        assert RealOf(bits) == 16777215.0 * q;
      }
    }
  }

  lemma OneMore(n: nat, q: real)
    ensures (n + 1) as real * q - n as real * q == q
  {}

  lemma ZeroIsZero()
    ensures IsFinite(0) && RealOf(0) == 0.0
  {
    hide PowerOfTwo;
    assert Exponent(0) == 0 && Mantissa(0) == 0;
  }

  lemma OneIsOne()
    ensures IsFinite(0x3F80_0000) && RealOf(0x3F80_0000) == 1.0
  {
    assert Exponent(0x3F80_0000) == 127 && Mantissa(0x3F80_0000) == 0;
    assert PowerOfTwo(-23) == 1.0 / 8388608.0 by {
      assert PowerOfTwo(-5) == 1.0 / 32.0;
      HalvedFive(-5);
      HalvedFive(-10);
      HalvedFive(-15);
      assert PowerOfTwo(-23) == PowerOfTwo(-20) / 8.0;
    }
  }

  lemma HalvedFive(e: int)
    requires e <= 0
    ensures PowerOfTwo(e - 5) == PowerOfTwo(e) / 32.0
  {
    assert PowerOfTwo(e - 2) == PowerOfTwo(e) / 4.0;
    assert PowerOfTwo(e - 4) == PowerOfTwo(e - 2) / 4.0;
  }
}
