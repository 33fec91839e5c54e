/** Discrete PID controller with filtered derivative and conditional integration. */
module PidControl {
  import opened Reals

  datatype PidConfig = PidConfig(
    kp: real, ki: real, kd: real, tauD: real, outMin: real, outMax: real)

  datatype PidState = PidState(integral: real, prevError: real, deriv: real, first: bool)

  const FRESH := PidState(0.0, 0.0, 0.0, true)

  function Max(x: real, y: real): real { if x < y then y else x }

  function Min(x: real, y: real): real { if x < y then x else y }

  function Derivative(c: PidConfig, s: PidState, error: real, dt: real): real
    requires dt > 0.0
  {
    var raw := if s.first then 0.0 else (error - s.prevError) / dt;
    var alpha := if c.tauD > 0.0 then dt / (c.tauD + dt) else 1.0;
    s.deriv + alpha * (raw - s.deriv)
  }

  function Unclamped(c: PidConfig, integral: real, error: real, deriv: real): real {
    c.kp * error + integral + c.kd * deriv
  }

  function Increment(c: PidConfig, error: real, dt: real): real { c.ki * error * dt }

  /** The integrator is frozen exactly when it would push further into saturation. */
  predicate Frozen(c: PidConfig, unclamped: real, increment: real) {
    || (unclamped > c.outMax && increment > 0.0)
    || (unclamped < c.outMin && increment < 0.0)
  }

  function Integrated(c: PidConfig, integral: real, unclamped: real, increment: real): real {
    if Frozen(c, unclamped, increment) then integral else integral + increment
  }

  function PidNext(c: PidConfig, s: PidState, error: real, dt: real): PidState
    requires dt > 0.0
  {
    var deriv := Derivative(c, s, error, dt);
    var unclamped := Unclamped(c, s.integral, error, deriv);
    PidState(Integrated(c, s.integral, unclamped, Increment(c, error, dt)), error, deriv, false)
  }

  class Pid {
    var config: PidConfig
    var integral: real
    var prevError: real
    var deriv: real
    var first: bool

    function State(): PidState reads this { PidState(integral, prevError, deriv, first) }

    constructor (config: PidConfig)
      ensures this.config == config && State() == FRESH
      ensures first && integral == 0.0 && deriv == 0.0
    {
      this.config := config;
      integral, prevError, deriv, first := 0.0, 0.0, 0.0, true;
    }

    method Reset()
      modifies this`integral, this`prevError, this`deriv, this`first
      ensures State() == FRESH
      ensures first && integral == 0.0 && deriv == 0.0
    {
      integral, prevError, deriv, first := 0.0, 0.0, 0.0, true;
    }

    method Update(error: real, dt: real) returns (out: real)
      requires dt > 0.0 && config.outMin <= config.outMax
      modifies this`integral, this`prevError, this`deriv, this`first
      ensures State() == PidNext(config, old(State()), error, dt)
      ensures out == Clamp(Unclamped(config, old(integral), error, deriv), config.outMin, config.outMax)
      ensures ObeysTheLaw(config, old(State()), State(), error, out, dt)
    {
      hide ObeysTheLaw, Derivative;
      ObeysItsLaw(config, State(), error, dt);
      var c := config;
      ghost var before := State();
      var rawDeriv := 0.0;
      if first {
        first := false;
      } else {
        rawDeriv := (error - prevError) / dt;
      }
      prevError := error;
      var alpha := if c.tauD > 0.0 then dt / (c.tauD + dt) else 1.0;
      DerivativeBy(c, before, error, dt, rawDeriv, alpha);
      deriv := deriv + alpha * (rawDeriv - deriv);
      assert deriv == Derivative(c, before, error, dt);

      var unclamped := c.kp * error + integral + c.kd * deriv;
      assert unclamped == Unclamped(c, before.integral, error, deriv);
      out := Clamp(unclamped, c.outMin, c.outMax);

      var integralIncrement := c.ki * error * dt;
      var saturatedHigh := unclamped > c.outMax && integralIncrement > 0.0;
      var saturatedLow := unclamped < c.outMin && integralIncrement < 0.0;
      if !(saturatedHigh || saturatedLow) {
        integral := integral + integralIncrement;
      }
    }
  }

  lemma DerivativeBy(c: PidConfig, s: PidState, error: real, dt: real, raw: real, alpha: real)
    requires dt > 0.0
    requires raw == if s.first then 0.0 else (error - s.prevError) / dt
    requires alpha == if c.tauD > 0.0 then dt / (c.tauD + dt) else 1.0
    ensures Derivative(c, s, error, dt) == s.deriv + alpha * (raw - s.deriv)
  {}

  /** The control law as difference equations: the derivative follows the error's slope, zero at
      the first sample, through a first-order lag; the output is the sum of the three terms, cut
      off at its limits; and the integral takes in the error unless that would push an output
      beyond its limits further out. */
  ghost predicate ObeysTheLaw(c: PidConfig, s: PidState, next: PidState, error: real, out: real, dt: real) {
    var lag := if c.tauD > 0.0 then c.tauD else 0.0;
    var rise := if s.first then 0.0 else error - s.prevError;
    var sum := c.kp * error + s.integral + c.kd * next.deriv;
    var increment := c.ki * error * dt;
    && lag * (next.deriv - s.deriv) == rise - dt * next.deriv
    && (c.outMin <= sum <= c.outMax ==> out == sum)
    && (sum > c.outMax ==> out == c.outMax)
    && (sum < c.outMin ==> out == c.outMin)
    && next.integral == (if (sum > c.outMax && increment > 0.0) || (sum < c.outMin && increment < 0.0)
                         then s.integral else s.integral + increment)
    && next.prevError == error && !next.first
  }

  lemma DerivativeLaw(c: PidConfig, s: PidState, error: real, dt: real)
    requires dt > 0.0
    ensures
      var lag := if c.tauD > 0.0 then c.tauD else 0.0;
      var rise := if s.first then 0.0 else error - s.prevError;
      var deriv := Derivative(c, s, error, dt);
      lag * (deriv - s.deriv) == rise - dt * deriv
  {
    var lag := if c.tauD > 0.0 then c.tauD else 0.0;
    var raw := if s.first then 0.0 else (error - s.prevError) / dt;
    var deriv := Derivative(c, s, error, dt);
    LagEquation(s.deriv, raw, lag, dt, deriv);
    assert dt * raw == if s.first then 0.0 else error - s.prevError;
    assert dt * (raw - deriv) == dt * raw - dt * deriv;
  }

  /** Every sample obeys the law. */
  lemma ObeysItsLaw(c: PidConfig, s: PidState, error: real, dt: real)
    requires dt > 0.0 && c.outMin <= c.outMax
    ensures
      var next := PidNext(c, s, error, dt);
      ObeysTheLaw(c, s, next, error, Clamp(Unclamped(c, s.integral, error, next.deriv), c.outMin, c.outMax), dt)
  {
    DerivativeLaw(c, s, error, dt);
    hide Derivative;
  }

  /** State after a whole error sequence at a fixed sample period. */
  function PidAfter(c: PidConfig, errors: seq<real>, dt: real): PidState
    requires dt > 0.0
  {
    if errors == [] then FRESH
    else PidNext(c, PidAfter(c, errors[..|errors| - 1], dt), errors[|errors| - 1], dt)
  }

  function DerivBound(bound: real, dt: real): real
    requires dt > 0.0
  {
    2.0 * bound / dt
  }

  /** Everything but the integrator that can move the output. */
  function Slack(c: PidConfig, bound: real, dt: real): real
    requires dt > 0.0
  {
    Abs(c.kp) * bound + Abs(c.kd) * DerivBound(bound, dt)
  }

  function IncrementBound(c: PidConfig, bound: real, dt: real): real {
    Abs(c.ki) * bound * dt
  }

  /** One full swing of the error per sample is the most the derivative can hold. */
  ghost predicate DerivContained(s: PidState, bound: real, dt: real)
    requires dt > 0.0
  {
    Abs(s.prevError) <= bound && Abs(s.deriv) <= DerivBound(bound, dt)
  }

  /** How far conditional integration can let the integrator run. */
  ghost predicate IntegralContained(c: PidConfig, integral: real, slack: real, step: real) {
    Min(0.0, c.outMin - slack) - step <= integral <= Max(0.0, c.outMax + slack) + step
  }

  lemma QuotientWithin(a: real, bound: real, dt: real)
    requires dt > 0.0 && Abs(a) <= bound
    ensures Abs(a / dt) <= bound / dt
  {
    ProductWithin(1.0 / dt, a, bound);
    assert a / dt == (1.0 / dt) * a && bound / dt == (1.0 / dt) * bound;
  }

  lemma RawWithin(s: PidState, error: real, bound: real, dt: real)
    requires dt > 0.0 && Abs(error) <= bound && Abs(s.prevError) <= bound
    ensures Abs(if s.first then 0.0 else (error - s.prevError) / dt) <= DerivBound(bound, dt)
  {
    QuotientWithin(if s.first then 0.0 else error - s.prevError, 2.0 * bound, dt);
  }

  lemma DerivativeStaysBounded(c: PidConfig, s: PidState, error: real, bound: real, dt: real)
    requires dt > 0.0 && Abs(error) <= bound && DerivContained(s, bound, dt)
    ensures Abs(Derivative(c, s, error, dt)) <= DerivBound(bound, dt)
  {
    hide DerivBound;
    RawWithin(s, error, bound, dt);
    var alpha := if c.tauD > 0.0 then dt / (c.tauD + dt) else 1.0;
    if c.tauD > 0.0 { PartOfWhole(dt, c.tauD); }
    var raw := if s.first then 0.0 else (error - s.prevError) / dt;
    MixWithin(s.deriv, raw - s.deriv, alpha, DerivBound(bound, dt));
  }

  lemma TermsWithin(
    c: PidConfig, integral: real, error: real, deriv: real, p: real, d: real, pBound: real, dBound: real)
    requires p == c.kp * error && d == c.kd * deriv && Abs(p) <= pBound && Abs(d) <= dBound
    ensures Abs(Unclamped(c, integral, error, deriv) - integral) <= pBound + dBound
  {}

  lemma TermsWithinSlack(c: PidConfig, integral: real, error: real, deriv: real, bound: real, dt: real)
    requires dt > 0.0 && Abs(error) <= bound && Abs(deriv) <= DerivBound(bound, dt)
    ensures Abs(Unclamped(c, integral, error, deriv) - integral) <= Slack(c, bound, dt)
  {
    hide DerivBound, Unclamped;
    var limit, p, d := DerivBound(bound, dt), c.kp * error, c.kd * deriv;
    var pBound, dBound := Abs(c.kp) * bound, Abs(c.kd) * limit;
    assert Abs(p) <= pBound by { ProductWithin(c.kp, error, bound); }
    assert Abs(d) <= dBound by { ProductWithin(c.kd, deriv, limit); }
    hide Abs;
    TermsWithin(c, integral, error, deriv, p, d, pBound, dBound);
  }

  /** The linear core: conditional integration with every product given a name. */
  lemma IntegratorStaysContained(
    c: PidConfig, others: real, integral: real, increment: real, slack: real, step: real)
    requires Abs(others) <= slack && Abs(increment) <= step
    requires IntegralContained(c, integral, slack, step)
    ensures IntegralContained(c, Integrated(c, integral, integral + others, increment), slack, step)
  {}

  lemma IncrementWithin(c: PidConfig, error: real, bound: real, dt: real)
    requires dt > 0.0 && Abs(error) <= bound
    ensures Abs(Increment(c, error, dt)) <= IncrementBound(c, bound, dt)
  {
    ProductWithin(c.ki, error, bound);
    ProductWithin(dt, c.ki * error, Abs(c.ki) * bound);
    assert c.ki * error * dt == dt * (c.ki * error) && Abs(c.ki) * bound * dt == dt * (Abs(c.ki) * bound);
  }

  lemma BoundsAreNonNegative(c: PidConfig, bound: real, dt: real)
    requires dt > 0.0 && bound >= 0.0
    ensures DerivBound(bound, dt) >= 0.0 && IncrementBound(c, bound, dt) >= 0.0
  {
    QuotientWithin(0.0, 2.0 * bound, dt);
    IncrementWithin(c, 0.0, bound, dt);
  }

  /** No bounded error sequence, however long, drives the integrator past the output
      window widened by the other terms and one increment, or the derivative past one
      full swing per sample. */
  lemma {:induction false} NoWindup(c: PidConfig, errors: seq<real>, bound: real, dt: real)
    requires dt > 0.0 && bound >= 0.0
    requires forall i :: 0 <= i < |errors| ==> Abs(errors[i]) <= bound
    ensures DerivContained(PidAfter(c, errors, dt), bound, dt)
    ensures IntegralContained(
      c, PidAfter(c, errors, dt).integral, Slack(c, bound, dt), IncrementBound(c, bound, dt))
  {
    hide Derivative, Unclamped, Increment, IncrementBound, DerivBound, Slack;
    if errors == [] {
      BoundsAreNonNegative(c, bound, dt);
    } else {
      var before, error := errors[..|errors| - 1], errors[|errors| - 1];
      NoWindup(c, before, bound, dt);
      var s := PidAfter(c, before, dt);
      DerivativeStaysBounded(c, s, error, bound, dt);
      var deriv := Derivative(c, s, error, dt);
      var unclamped := Unclamped(c, s.integral, error, deriv);
      TermsWithinSlack(c, s.integral, error, deriv, bound, dt);
      IncrementWithin(c, error, bound, dt);
      IntegratorStaysContained(
        c, unclamped - s.integral, s.integral, Increment(c, error, dt),
        Slack(c, bound, dt), IncrementBound(c, bound, dt));
    }
  }

  /** A saturated sample never moves the integrator further out, whatever the sign of the
      integral gain, and an unsaturated one always integrates. */
  lemma ConditionalIntegration(c: PidConfig, s: PidState, error: real, dt: real)
    requires dt > 0.0 && c.outMin <= c.outMax
    ensures
      var next := PidNext(c, s, error, dt);
      var unclamped := Unclamped(c, s.integral, error, next.deriv);
      && (unclamped > c.outMax ==> next.integral <= s.integral)
      && (unclamped < c.outMin ==> next.integral >= s.integral)
      && (next.integral == s.integral + Increment(c, error, dt)
          <==> (c.outMin <= unclamped <= c.outMax
                || (unclamped > c.outMax && Increment(c, error, dt) <= 0.0)
                || (unclamped < c.outMin && Increment(c, error, dt) >= 0.0)))
  {
    hide Derivative, Unclamped, Increment;
  }
}
