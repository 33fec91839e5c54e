/** Phase reduction in degrees, as the PLL performs it. */
module Degrees {
  import opened Reals

  const DIRECT_LIMIT: real := 720000000000.0                      // 360 * 2e9
  const FIRST_MODULUS: real := 360000000000000000000000000000000.0 // 360 * 1e30
  const F32_MAX: real := 340282350000000000000000000000000000000.0

  /** Truncation toward zero, saturated to a signed 32-bit word. */
  function ToI32(x: real): (turns: int)
    ensures Abs(x) <= 2147483647.0 ==> Abs(x - turns as real) < 1.0
    ensures Abs(x) <= 2147483647.0 && x >= 0.0 ==> 0.0 <= turns as real <= x
    ensures Abs(x) <= 2147483647.0 && x <= 0.0 ==> x <= turns as real <= 0.0
  {
    var whole := if x >= 0.0 then x.Floor else -(-x).Floor;
    if whole > 0x7FFF_FFFF then 0x7FFF_FFFF else if whole < -0x8000_0000 then -0x8000_0000 else whole
  }

  /** One turn at most is folded: exact for differences of two reduced phases. */
  function WrapDegrees(degrees: real): (wrapped: real)
    ensures -540.0 <= degrees < 540.0 ==> -180.0 <= wrapped < 180.0
    ensures wrapped == degrees || wrapped == degrees - 360.0 || wrapped == degrees + 360.0
  {
    if degrees >= 180.0 then degrees - 360.0
    else if degrees < -180.0 then degrees + 360.0
    else degrees
  }

  /** What remains after taking the truncated quotient out. */
  function Remainder(degrees: real, modulus: real): real
    requires modulus > 0.0
  {
    degrees - ToI32(degrees / modulus) as real * modulus
  }

  lemma RemainderIsSmaller(degrees: real, modulus: real)
    requires modulus > 0.0 && Abs(degrees) <= 2147483647.0 * modulus
    ensures Abs(Remainder(degrees, modulus)) < modulus
  {
    var quotient := degrees / modulus;
    assert quotient * modulus == degrees;
    LeftIsSmaller(quotient, degrees, modulus);
    hide ToI32, Abs;
  }

  lemma LeftIsSmaller(quotient: real, degrees: real, modulus: real)
    requires modulus > 0.0 && degrees == quotient * modulus && Abs(degrees) <= 2147483647.0 * modulus
    ensures Abs(degrees - ToI32(quotient) as real * modulus) < modulus
  {
    Within(quotient, degrees, modulus);
    var turns := ToI32(quotient) as real;
    hide ToI32;
    Parts(quotient, turns, modulus);
    Scaled(quotient - turns, modulus, degrees - turns * modulus);
  }

  lemma Parts(quotient: real, turns: real, modulus: real)
    ensures (quotient - turns) * modulus == quotient * modulus - turns * modulus
  {}

  lemma Within(quotient: real, degrees: real, modulus: real)
    requires modulus > 0.0 && degrees == quotient * modulus
    requires Abs(degrees) <= 2147483647.0 * modulus
    ensures Abs(quotient) <= 2147483647.0
  {
    var limit := 2147483647.0;
    assert !(quotient > limit) by {
      if quotient > limit { Positive(quotient - limit, modulus); }
    }
    assert !(quotient < -limit) by {
      if quotient < -limit { Positive(-quotient - limit, modulus); }
    }
  }

  lemma Scaled(rest: real, modulus: real, product: real)
    requires modulus > 0.0 && Abs(rest) < 1.0 && product == rest * modulus
    ensures Abs(product) < modulus
  {
    assert (1.0 - rest) * modulus == modulus - product;
    assert (1.0 + rest) * modulus == modulus + product;
    Positive(1.0 - rest, modulus);
    Positive(1.0 + rest, modulus);
  }

  lemma Positive(a: real, b: real)
    requires a > 0.0 && b > 0.0
    ensures a * b > 0.0
  {}

  /** The halving reduction applied beyond the direct range. */
  function Halved(degrees: real, modulus: real): real
    requires modulus > 0.0
    decreases (modulus / 360.0).Floor
  {
    if modulus < 360.0 then degrees
    else
      var next := if Abs(degrees) >= modulus then Remainder(degrees, modulus) else degrees;
      HalvingDecreases(modulus);
      Halved(next, modulus * 0.5)
  }

  lemma HalvingDecreases(modulus: real)
    requires modulus >= 360.0
    ensures (modulus * 0.5 / 360.0).Floor < (modulus / 360.0).Floor
    ensures 0 <= (modulus * 0.5 / 360.0).Floor
  {
    var x := modulus / 360.0;
    assert modulus * 0.5 / 360.0 == x * 0.5;
    assert x >= 1.0;
  }

  lemma HalvedStep(degrees: real, modulus: real)
    requires modulus >= 360.0
    ensures Halved(degrees, modulus)
         == Halved(if Abs(degrees) >= modulus then Remainder(degrees, modulus) else degrees, modulus * 0.5)
  {
    HalvingDecreases(modulus);
  }

  lemma HalvedDone(degrees: real, modulus: real)
    requires 0.0 < modulus < 360.0
    ensures Halved(degrees, modulus) == degrees
  {}

  function WrapDegreesFull(degrees: real): real {
    var near := if Abs(degrees) > DIRECT_LIMIT then Halved(degrees, FIRST_MODULUS) else degrees;
    WrapDegrees(Remainder(near, 360.0))
  }

  /** The reduction as the source runs it. */
  method ReduceDegrees(offset: real) returns (wrapped: real)
    ensures wrapped == WrapDegreesFull(offset)
  {
    hide Halved, Remainder;
    var degrees := offset;
    if Abs(degrees) > DIRECT_LIMIT {
      var modulus := FIRST_MODULUS;
      while modulus >= 360.0
        invariant modulus > 0.0
        invariant Halved(degrees, modulus) == Halved(offset, FIRST_MODULUS)
        decreases (modulus / 360.0).Floor
      {
        HalvedStep(degrees, modulus);
        HalvingDecreases(modulus);
        if Abs(degrees) >= modulus {
          degrees := Remainder(degrees, modulus);
        }
        modulus := modulus * 0.5;
      }
      HalvedDone(degrees, modulus);
    }
    wrapped := WrapDegrees(Remainder(degrees, 360.0));
  }

  lemma {:induction false} HalvedIsSmall(degrees: real, modulus: real)
    requires modulus >= 180.0
    requires Abs(degrees) < (if modulus >= 360.0 then 2147483647.0 * modulus else 2.0 * modulus)
    ensures Abs(Halved(degrees, modulus)) < 720.0
    decreases (modulus / 360.0).Floor
  {
    if modulus >= 360.0 {
      var next := if Abs(degrees) >= modulus then Remainder(degrees, modulus) else degrees;
      RemainderIsSmaller(degrees, modulus);
      HalvingDecreases(modulus);
      HalvedIsSmall(next, modulus * 0.5);
    }
  }

  /** Every phase offset an f32 can hold is reduced into one turn. */
  lemma ReducedRange(degrees: real)
    requires Abs(degrees) <= F32_MAX
    ensures -180.0 <= WrapDegreesFull(degrees) < 180.0
  {
    var near := if Abs(degrees) > DIRECT_LIMIT then Halved(degrees, FIRST_MODULUS) else degrees;
    if Abs(degrees) > DIRECT_LIMIT {
      HalvedIsSmall(degrees, FIRST_MODULUS);
    }
    RemainderIsSmaller(near, 360.0);
  }

  predicate TurnsApart(a: real, b: real, turns: int) { b - a == turns as real * 360.0 }

  ghost predicate Congruent(a: real, b: real) { exists turns: int :: TurnsApart(a, b, turns) }

  /** Taking turns out and folding once keeps the angle. */
  lemma FoldingIsCongruent(degrees: real)
    ensures Congruent(WrapDegrees(Remainder(degrees, 360.0)), degrees)
  {
    var first := ToI32(degrees / 360.0);
    var rest := Remainder(degrees, 360.0);
    var second := if rest >= 180.0 then 1 else if rest < -180.0 then -1 else 0;
    assert TurnsApart(WrapDegrees(rest), degrees, first + second);
  }

  /** On the direct path only whole turns are removed. */
  lemma DirectPathIsCongruent(degrees: real)
    requires Abs(degrees) <= DIRECT_LIMIT
    ensures Congruent(WrapDegreesFull(degrees), degrees)
  {
    FoldingIsCongruent(degrees);
  }

  // ---------------------------------------------------------------------------
  // Beyond the direct path
  // ---------------------------------------------------------------------------

  const TWO_69: int := 590295810358705651712

  const TWO_99: int := 633825300114114700748351602688

  const FIVE_30: int := 931322574615478515625

  /** The last modulus that is a turn or more, 99 halvings behind the first: 360 * 5^30 / 2^69. */
  const LAST_MODULUS: real := FIRST_MODULUS / TWO_99 as real

  /** The smallest angle that is both a whole number of turns and of last moduli: 360 * 5^30. */
  const COMMON_MODULUS: real := 360.0 * FIVE_30 as real

  function Pow2(k: nat): (p: nat)
    ensures p > 0
  {
    if k == 0 then 1 else 2 * Pow2(k - 1)
  }

  function Doubled(x: real, k: nat): real { if k == 0 then x else 2.0 * Doubled(x, k - 1) }

  lemma {:induction false} DoubledIsProduct(x: real, k: nat)
    ensures Doubled(x, k) == Pow2(k) as real * x
  {
    if k > 0 {
      DoubledIsProduct(x, k - 1);
      TwiceProduct(Pow2(k - 1) as real, x);
    }
  }

  lemma TwiceProduct(p: real, x: real)
    ensures 2.0 * (p * x) == (2.0 * p) * x
  {}

  lemma FiveDoublings(k: nat)
    ensures Pow2(k + 5) == 32 * Pow2(k)
  {
    assert Pow2(k + 2) == 4 * Pow2(k);
    assert Pow2(k + 4) == 4 * Pow2(k + 2);
  }

  lemma TenDoublings(k: nat)
    ensures Pow2(k + 10) == 1024 * Pow2(k)
  {
    FiveDoublings(k);
    FiveDoublings(k + 5);
  }

  lemma NineDoublings()
    ensures Pow2(9) == 512
  {
    FiveDoublings(4);
    assert Pow2(4) == 16;
  }

  lemma Powers()
    ensures Pow2(69) == TWO_69 && Pow2(99) == TWO_99
  {
    NineDoublings();
    hide Pow2;
    TenDoublings(9);
    TenDoublings(19);
    TenDoublings(29);
    TenDoublings(39);
    TenDoublings(49);
    TenDoublings(59);
    TenDoublings(69);
    TenDoublings(79);
    TenDoublings(89);
  }

  /** Whole moduli in an angle that is not negative. */
  function Moduli(degrees: real, modulus: real): int
    requires modulus > 0.0
  {
    (degrees / modulus).Floor
  }

  /** What they leave. */
  function Left(degrees: real, modulus: real): real
    requires modulus > 0.0
  {
    degrees - Moduli(degrees, modulus) as real * modulus
  }

  lemma Distributes(a: real, b: real, c: real)
    ensures (a - b) * c == a * c - b * c
  {}

  lemma Associates(a: real, b: real, c: real)
    ensures (a * b) * c == a * (b * c)
  {}

  lemma Divided(quotient: real, modulus: real, degrees: real)
    requires modulus > 0.0
    ensures degrees == quotient * modulus <==> degrees / modulus == quotient
  {}

  lemma LeftIgnoresModuli(degrees: real, modulus: real, n: int)
    requires modulus > 0.0
    ensures Left(degrees - n as real * modulus, modulus) == Left(degrees, modulus)
  {
    var x, rest := degrees / modulus, degrees - n as real * modulus;
    Divided(x, modulus, degrees);
    Distributes(x, n as real, modulus);
    Divided(x - n as real, modulus, rest);
    var k := Moduli(degrees, modulus);
    assert Moduli(rest, modulus) == k - n;
    Distributes(k as real, n as real, modulus);
    assert (k - n) as real == k as real - n as real;
  }

  /** A truncated division leaves an angle that is not negative inside the modulus. */
  lemma RemainderInside(degrees: real, modulus: real)
    requires modulus > 0.0 && 0.0 <= degrees < 2147483647.0 * modulus
    ensures 0.0 <= Remainder(degrees, modulus) < modulus
  {
    var quotient := degrees / modulus;
    Divided(quotient, modulus, degrees);
    Within(quotient, degrees, modulus);
    assert quotient >= 0.0;
    var rest := quotient - ToI32(quotient) as real;
    Distributes(quotient, ToI32(quotient) as real, modulus);
    NonNegativeProduct(rest, modulus);
    RemainderIsSmaller(degrees, modulus);
  }

  /** Dividing by a modulus takes out whole last moduli. */
  lemma RemainderLeaves(degrees: real, last: real, k: nat)
    requires last > 0.0 && Doubled(last, k) > 0.0
    ensures Left(Remainder(degrees, Doubled(last, k)), last) == Left(degrees, last)
  {
    hide *;
    var turns := Turns(degrees, Doubled(last, k));
    DoubledIsProduct(last, k);
    RemainderTakesTurns(degrees, Doubled(last, k));
    WholeModuli(turns, Pow2(k), last);
    LeftIgnoresModuli(degrees, last, turns * Pow2(k));
  }

  lemma WholeModuli(turns: int, n: int, modulus: real)
    ensures (turns * n) as real * modulus == turns as real * (n as real * modulus)
  {
    assert (turns * n) as real == turns as real * n as real;
    Associates(turns as real, n as real, modulus);
  }

  lemma {:induction false} DoubledIsLarger(last: real, k: nat)
    requires last > 0.0
    ensures Doubled(last, k) >= last
  {
    if k > 0 { DoubledIsLarger(last, k - 1); }
  }

  /** Every modulus is twice the next, so the loop as a whole divides by the last. */
  lemma {:induction false} HalvedIsLeft(degrees: real, last: real, k: nat)
    requires 360.0 <= last < 720.0
    requires 0.0 <= degrees < 2147483647.0 * Doubled(last, k)
    ensures Halved(degrees, Doubled(last, k)) == Left(degrees, last)
    decreases k
  {
    hide Remainder, Left, Halved;
    var modulus := Doubled(last, k);
    DoubledIsLarger(last, k);
    var next := OneHalving(degrees, last, k);
    if k == 0 {
      HalvedDone(next, modulus * 0.5);
      LeftIsAll(next, last);
    } else {
      assert modulus * 0.5 == Doubled(last, k - 1);
      HalvedIsLeft(next, last, k - 1);
    }
  }

  lemma OneHalving(degrees: real, last: real, k: nat) returns (next: real)
    requires last > 0.0 && Doubled(last, k) >= 360.0
    requires 0.0 <= degrees < 2147483647.0 * Doubled(last, k)
    ensures 0.0 <= next < Doubled(last, k) && Left(next, last) == Left(degrees, last)
    ensures Halved(degrees, Doubled(last, k)) == Halved(next, Doubled(last, k) * 0.5)
  {
    hide Remainder, Left, Halved, Doubled;
    var modulus := Doubled(last, k);
    HalvedStep(degrees, modulus);
    RemainderInside(degrees, modulus);
    RemainderLeaves(degrees, last, k);
    next := if degrees >= modulus then Remainder(degrees, modulus) else degrees;
  }

  lemma LeftIsAll(degrees: real, modulus: real)
    requires 0.0 <= degrees < modulus
    ensures Left(degrees, modulus) == degrees
  {
    var x := degrees / modulus;
    Divided(x, modulus, degrees);
    assert x >= 0.0;
    if x >= 1.0 {
      NonNegativeProduct(x - 1.0, modulus);
      Distributes(x, 1.0, modulus);
      assert false;
    }
    assert Moduli(degrees, modulus) == 0;
  }

  lemma FirstModulus()
    ensures Doubled(LAST_MODULUS, 99) == FIRST_MODULUS
  {
    DoubledIsProduct(LAST_MODULUS, 99);
    Powers();
    hide Doubled, Pow2;
  }

  /** The loop treats an angle and its opposite alike. */
  lemma RemainderIsOdd(degrees: real, modulus: real)
    requires modulus > 0.0 && Abs(degrees) <= 2147483647.0 * modulus
    ensures Remainder(-degrees, modulus) == -Remainder(degrees, modulus)
  {
    hide Remainder, Turns, ToI32;
    RemainderTakesTurns(degrees, modulus);
    RemainderTakesTurns(-degrees, modulus);
    TurnsAreOdd(degrees, modulus);
    Opposite(Turns(degrees, modulus) as real, modulus);
  }

  /** The truncated quotient. */
  function Turns(degrees: real, modulus: real): int
    requires modulus > 0.0
  {
    ToI32(degrees / modulus)
  }

  lemma RemainderTakesTurns(degrees: real, modulus: real)
    requires modulus > 0.0
    ensures Remainder(degrees, modulus) == degrees - Turns(degrees, modulus) as real * modulus
  {
    hide ToI32;
  }

  lemma TurnsAreOdd(degrees: real, modulus: real)
    requires modulus > 0.0 && Abs(degrees) <= 2147483647.0 * modulus
    ensures Turns(-degrees, modulus) as real == -(Turns(degrees, modulus) as real)
  {
    hide ToI32, Abs;
    var quotient := degrees / modulus;
    OppositeQuotient(degrees, modulus, quotient);
    Within(quotient, degrees, modulus);
    TruncationIsOdd(quotient);
  }

  lemma OppositeQuotient(degrees: real, modulus: real, quotient: real)
    requires modulus > 0.0 && quotient == degrees / modulus
    ensures degrees == quotient * modulus && (-degrees) / modulus == -quotient
  {
    Divided(quotient, modulus, degrees);
    Opposite(quotient, modulus);
    Divided(-quotient, modulus, -degrees);
  }

  lemma Opposite(a: real, b: real)
    ensures (-a) * b == -(a * b)
  {}

  lemma TruncationIsOdd(x: real)
    requires Abs(x) <= 2147483647.0
    ensures ToI32(-x) == -ToI32(x)
    ensures ToI32(-x) as real == -(ToI32(x) as real)
  {}

  lemma {:induction false} HalvedIsOdd(degrees: real, modulus: real)
    requires modulus >= 180.0
    requires Abs(degrees) < (if modulus >= 360.0 then 2147483647.0 * modulus else 2.0 * modulus)
    ensures Halved(-degrees, modulus) == -Halved(degrees, modulus)
    decreases (modulus / 360.0).Floor
  {
    if modulus >= 360.0 {
      RemainderIsOdd(degrees, modulus);
      RemainderIsSmaller(degrees, modulus);
      HalvingDecreases(modulus);
      HalvedStep(degrees, modulus);
      HalvedStep(-degrees, modulus);
      hide Remainder, Halved;
      HalvedIsOdd(if Abs(degrees) >= modulus then Remainder(degrees, modulus) else degrees, modulus * 0.5);
    }
  }

  /** An odd factor contributes no power of two. */
  lemma {:induction false} OddFactor(n: int, turns: int, k: nat) returns (m: int)
    requires n * FIVE_30 == turns * Pow2(k)
    ensures n == m * Pow2(k)
    decreases k
  {
    if k == 0 {
      m := n;
    } else {
      assert turns * Pow2(k) == 2 * (turns * Pow2(k - 1));
      assert n == 2 * (n / 2);
      m := OddFactor(n / 2, turns, k - 1);
      assert m * Pow2(k) == 2 * (m * Pow2(k - 1));
    }
  }

  /** `n` last moduli are whole turns exactly when 2^69 divides `n`. */
  lemma WholeTurns(n: int)
    ensures Congruent(0.0, n as real * LAST_MODULUS) <==> n % TWO_69 == 0
  {
    var x := n as real * LAST_MODULUS;
    if n % TWO_69 == 0 {
      assert TurnsApart(0.0, x, n / TWO_69 * FIVE_30);
    }
    if Congruent(0.0, x) {
      var turns: int :| TurnsApart(0.0, x, turns);
      assert n as real * FIVE_30 as real == turns as real * TWO_69 as real;
      assert n * FIVE_30 == turns * TWO_69;
      Powers();
      hide Pow2;
      var m := OddFactor(n, turns, 69);
    }
  }

  /** What the loop takes out of an angle beyond the direct path. */
  lemma HalvingTakesModuli(degrees: real)
    requires DIRECT_LIMIT < Abs(degrees) <= F32_MAX
    ensures
      var n := Moduli(Abs(degrees), LAST_MODULUS);
      degrees - Halved(degrees, FIRST_MODULUS)
      == (if degrees < 0.0 then -n else n) as real * LAST_MODULUS
  {
    FirstModulus();
    hide Halved, Doubled, Moduli;
    HalvedIsLeft(Abs(degrees), LAST_MODULUS, 99);
    if degrees < 0.0 { HalvedIsOdd(-degrees, FIRST_MODULUS); }
  }

  lemma CongruenceCarries(a: real, near: real, b: real)
    requires Congruent(a, near)
    ensures Congruent(a, b) <==> Congruent(near, b)
  {
    var t: int :| TurnsApart(a, near, t);
    if Congruent(a, b) {
      var u: int :| TurnsApart(a, b, u);
      assert TurnsApart(near, b, u - t);
    }
    if Congruent(near, b) {
      var u: int :| TurnsApart(near, b, u);
      assert TurnsApart(a, b, t + u);
    }
  }

  lemma CongruenceOfDifference(near: real, b: real)
    ensures Congruent(near, b) <==> Congruent(0.0, b - near)
  {
    if Congruent(near, b) {
      var t: int :| TurnsApart(near, b, t);
      assert TurnsApart(0.0, b - near, t);
    }
    if Congruent(0.0, b - near) {
      var t: int :| TurnsApart(0.0, b - near, t);
      assert TurnsApart(near, b, t);
    }
  }

  lemma NegatedMultiple(n: int)
    ensures (-n) % TWO_69 == 0 <==> n % TWO_69 == 0
  {}

  /** Of the angles an f32 can hold, the reduction keeps exactly those on the direct path and
      those whose count of whole last moduli is a multiple of 2^69. */
  lemma KeptExactly(degrees: real)
    requires Abs(degrees) <= F32_MAX
    ensures Congruent(WrapDegreesFull(degrees), degrees)
            <==> Abs(degrees) <= DIRECT_LIMIT || Moduli(Abs(degrees), LAST_MODULUS) % TWO_69 == 0
  {
    hide Congruent, Halved, Moduli, WrapDegreesFull, Abs;
    if Abs(degrees) <= DIRECT_LIMIT {
      DirectPathIsCongruent(degrees);
    } else {
      var near, n := Halved(degrees, FIRST_MODULUS), Moduli(Abs(degrees), LAST_MODULUS);
      FarPathIsNear(degrees);
      HalvingTakesModuli(degrees);
      CongruenceCarries(WrapDegreesFull(degrees), near, degrees);
      CongruenceOfDifference(near, degrees);
      var m := if degrees < 0.0 then -n else n;
      WholeTurns(m);
      NegatedMultiple(n);
      assert degrees - near == m as real * LAST_MODULUS;
    }
  }

  lemma FarPathIsNear(degrees: real)
    requires Abs(degrees) > DIRECT_LIMIT
    ensures Congruent(WrapDegreesFull(degrees), Halved(degrees, FIRST_MODULUS))
  {
    hide Congruent, WrapDegrees, Remainder;
    FoldingIsCongruent(Halved(degrees, FIRST_MODULUS));
  }

  lemma ModuliBetween(degrees: real, modulus: real, limit: int)
    requires modulus > 0.0 && modulus <= degrees < limit as real * modulus
    ensures 1 <= Moduli(degrees, modulus) < limit
  {
    var x := degrees / modulus;
    Divided(x, modulus, degrees);
    assert x >= 1.0 by {
      if x < 1.0 {
        Distributes(1.0, x, modulus);
        Positive(1.0 - x, modulus);
      }
    }
    assert x < limit as real by {
      if x >= limit as real {
        Distributes(x, limit as real, modulus);
        NonNegativeProduct(x - limit as real, modulus);
      }
    }
  }

  /** Between the direct path and 360 * 5^30 degrees no angle at all is kept. */
  lemma NeverKeptBelowTheCommonModulus(degrees: real)
    requires DIRECT_LIMIT < Abs(degrees) < COMMON_MODULUS
    ensures !Congruent(WrapDegreesFull(degrees), degrees)
  {
    assert COMMON_MODULUS == TWO_69 as real * LAST_MODULUS;
    assert COMMON_MODULUS < F32_MAX && LAST_MODULUS < DIRECT_LIMIT;
    ModuliBetween(Abs(degrees), LAST_MODULUS, TWO_69);
    hide Congruent, WrapDegreesFull, Moduli;
    KeptExactly(degrees);
  }

  lemma {:induction false} HalvedZero(modulus: real)
    requires modulus > 0.0
    ensures Halved(0.0, modulus) == 0.0
    decreases (modulus / 360.0).Floor
  {
    if modulus >= 360.0 {
      HalvingDecreases(modulus);
      HalvedZero(modulus * 0.5);
    }
  }

  lemma {:induction false} SmallerIsKept(degrees: real, k: nat)
    requires degrees >= 360.0
    ensures Doubled(degrees, k) >= degrees
    ensures Halved(degrees, Doubled(degrees, k)) == Halved(degrees, degrees)
  {
    if k > 0 {
      SmallerIsKept(degrees, k - 1);
      HalvedStep(degrees, Doubled(degrees, k));
    }
  }

  lemma DoubledFour(x: real, k: nat)
    ensures Doubled(x, k + 4) == 16.0 * Doubled(x, k)
  {
    assert Doubled(x, k + 2) == 4.0 * Doubled(x, k);
  }

  const HALF_TURN_PAST: real := 167638063430786132812500.0

  lemma HalfTurnIsLost()
    ensures Halved(HALF_TURN_PAST, FIRST_MODULUS) == 0.0
  {
    var x := HALF_TURN_PAST;
    assert Doubled(x, 3) == 8.0 * x;
    DoubledFour(x, 3);
    DoubledFour(x, 7);
    DoubledFour(x, 11);
    DoubledFour(x, 15);
    DoubledFour(x, 19);
    DoubledFour(x, 23);
    DoubledFour(x, 27);
    hide Doubled;
    SmallerIsKept(x, 31);
    HalvedStep(x, x);
    HalvedZero(x * 0.5);
    hide Halved;
    assert Remainder(x, x) == 0.0;
  }

  /** Beyond it the halved moduli stop being whole turns: this offset is a half turn past a
      whole number of turns, yet it is reduced to zero. */
  lemma HalvingLosesHalfTurns()
    ensures HALF_TURN_PAST == 465661287307739257812.0 * 360.0 + 180.0
    ensures WrapDegreesFull(HALF_TURN_PAST) == 0.0
    ensures !Congruent(WrapDegreesFull(HALF_TURN_PAST), HALF_TURN_PAST)
  {
    HalfTurnIsLost();
    hide Halved;
    forall turns: int ensures !TurnsApart(0.0, HALF_TURN_PAST, turns) {
      assert turns <= 465661287307739257812 || turns >= 465661287307739257813;
    }
  }
}
