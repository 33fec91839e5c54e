/** Real arithmetic the estimators share. */
module Reals {
  function Abs(x: real): real { if x < 0.0 then -x else x }

  function Clamp(x: real, low: real, high: real): (r: real)
    requires low <= high
    ensures low <= r <= high
    ensures low <= x <= high ==> r == x
  {
    if x < low then low else if x > high then high else x
  }

  /** A first-order lag: one sample of it, as an equation without a quotient. */
  lemma LagEquation(x: real, target: real, lag: real, dt: real, next: real)
    requires dt > 0.0 && lag >= 0.0
    requires next == x + (if lag == 0.0 then 1.0 else dt / (lag + dt)) * (target - x)
    ensures lag * (next - x) == dt * (target - next)
  {
    if lag == 0.0 {
      assert next == target && lag * (next - x) == 0.0;
    } else {
      var alpha := dt / (lag + dt);
      assert alpha * (lag + dt) == dt;
      assert (next - x) * (lag + dt) == dt * (target - x) by { Exchanged(alpha, target - x, lag + dt); }
      Distributed(next - x, lag, dt);
      Distributed(dt, target - x, -(next - x));
    }
  }

  lemma Exchanged(a: real, b: real, c: real)
    ensures (a * b) * c == (a * c) * b
  {}

  lemma Distributed(x: real, a: real, b: real)
    ensures x * (a + b) == a * x + b * x
  {}

  lemma NonNegativeProduct(a: real, b: real)
    requires a >= 0.0 && b >= 0.0
    ensures a * b >= 0.0
  {}

  lemma ProductWithin(a: real, b: real, bound: real)
    requires Abs(b) <= bound
    ensures Abs(a * b) <= Abs(a) * bound
  {
    if a >= 0.0 {
      assert a * b <= a * bound && a * (-b) <= a * bound;
    } else {
      assert (-a) * b <= (-a) * bound && (-a) * (-b) <= (-a) * bound;
    }
  }

  /** Moving a part of the way towards a point of an interval stays inside it. */
  lemma MixWithin(x: real, d: real, alpha: real, bound: real)
    requires Abs(x) <= bound && Abs(x + d) <= bound && 0.0 <= alpha <= 1.0
    ensures Abs(x + alpha * d) <= bound
  {
    Shrinks(alpha, d, alpha * d);
  }

  lemma Shrinks(alpha: real, d: real, part: real)
    requires 0.0 <= alpha <= 1.0 && part == alpha * d
    ensures d >= 0.0 ==> 0.0 <= part <= d
    ensures d <= 0.0 ==> d <= part <= 0.0
  {
    assert (1.0 - alpha) * d == d - part;
    if d >= 0.0 {
      NonNegativeProduct(alpha, d);
      NonNegativeProduct(1.0 - alpha, d);
    } else {
      NonNegativeProduct(alpha, -d);
      NonNegativeProduct(1.0 - alpha, -d);
    }
  }

  lemma PartOfWhole(a: real, b: real)
    requires a > 0.0 && b > 0.0
    ensures 0.0 <= a / (b + a) <= 1.0
  {}
}
