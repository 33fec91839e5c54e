/** Fundamental demodulation: mean removal and first-order filtering of the products of both
    measured signals with the generator's fundamental. */
module Demodulation {
  import opened Wrappers
  import opened Reals
  import opened Degrees

  datatype Dc = Dc(mean: real, initialised: bool)

  const FRESH_DC := Dc(0.0, false)

  datatype Filter = Filter(
    excitationDc: Dc, responseDc: Dc,
    excitationCos: real, excitationSin: real, responseCos: real, responseSin: real)

  const FRESH_FILTER := Filter(FRESH_DC, FRESH_DC, 0.0, 0.0, 0.0, 0.0)

  /** One demodulated observation. */
  datatype Observation = Observation(phase: real, excitationSq: real, responseSq: real)

  /** The fundamental at one sample and both signals; a signal is absent when it is not finite. */
  datatype Raw = Raw(cos: real, sin: real, excitation: Option<real>, response: Option<real>)

  predicate Usable(raw: Raw) { raw.excitation.Some? && raw.response.Some? }

  /** The part of the way a first-order filter moves in one sample. */
  function Portion(dt: real, timeConstant: real): real
    requires dt > 0.0 && timeConstant >= 0.0
  {
    if timeConstant == 0.0 then 1.0 else dt / (timeConstant + dt)
  }

  function Smoothed(x: real, alpha: real, target: real): real { x + alpha * (target - x) }

  function Mixed(rest: real, unit: real): real { 2.0 * rest * unit }

  function Power(x: real, y: real): real { x * x + y * y }

  /** The mean starts at the first sample and follows with the time constant. */
  function Tracked(dc: Dc, sample: real, dt: real, timeConstant: real): Dc
    requires dt > 0.0 && timeConstant > 0.0
  {
    Dc(if dc.initialised then Smoothed(dc.mean, Portion(dt, timeConstant), sample) else sample, true)
  }

  function Filtered(f: Filter, raw: Raw, dt: real, dcTime: real, demodTime: real): Filter
    requires dt > 0.0 && dcTime > 0.0 && demodTime >= 0.0
  {
    if !Usable(raw) then f
    else
      var excitationDc := Tracked(f.excitationDc, raw.excitation.value, dt, dcTime);
      var responseDc := Tracked(f.responseDc, raw.response.value, dt, dcTime);
      var excitation := raw.excitation.value - excitationDc.mean;
      var response := raw.response.value - responseDc.mean;
      var alpha := Portion(dt, demodTime);
      Filter(excitationDc, responseDc,
             Smoothed(f.excitationCos, alpha, Mixed(excitation, raw.cos)),
             Smoothed(f.excitationSin, alpha, Mixed(excitation, raw.sin)),
             Smoothed(f.responseCos, alpha, Mixed(response, raw.cos)),
             Smoothed(f.responseSin, alpha, Mixed(response, raw.sin)))
  }

  /** Phase of the response relative to the excitation, and both squared amplitudes. */
  function Seen(f: Filter, atan2: (real, real) -> real): Observation {
    Observation(WrapDegrees(atan2(-f.responseSin, f.responseCos) - atan2(-f.excitationSin, f.excitationCos)),
                Power(f.excitationCos, f.excitationSin),
                Power(f.responseCos, f.responseSin))
  }

  /** One sample of a first-order lag towards a target. */
  ghost predicate Lags(x: real, next: real, target: real, dt: real, lag: real) {
    lag * (next - x) == dt * (target - next)
  }

  /** One sample of a first-order lag towards twice a product. */
  ghost predicate LagsProduct(x: real, next: real, signal: real, unit: real, dt: real, lag: real) {
    lag * (next - x) == dt * (2.0 * signal * unit - next)
  }

  /** Both means start at the first sample and follow with one lag; the four filters follow,
      with the other, twice the product of what is left of a signal and the fundamental. */
  ghost predicate FollowsTheLaw(f: Filter, next: Filter, raw: Raw, dt: real, dcTime: real, demodTime: real)
    requires Usable(raw)
  {
    var x, y := raw.excitation.value, raw.response.value;
    var u, v := x - next.excitationDc.mean, y - next.responseDc.mean;
    && next.excitationDc.initialised && next.responseDc.initialised
    && (if f.excitationDc.initialised then Lags(f.excitationDc.mean, next.excitationDc.mean, x, dt, dcTime)
        else next.excitationDc.mean == x)
    && (if f.responseDc.initialised then Lags(f.responseDc.mean, next.responseDc.mean, y, dt, dcTime)
        else next.responseDc.mean == y)
    && LagsProduct(f.excitationCos, next.excitationCos, u, raw.cos, dt, demodTime)
    && LagsProduct(f.excitationSin, next.excitationSin, u, raw.sin, dt, demodTime)
    && LagsProduct(f.responseCos, next.responseCos, v, raw.cos, dt, demodTime)
    && LagsProduct(f.responseSin, next.responseSin, v, raw.sin, dt, demodTime)
  }

  /** A fundamental of cosine part a and sine part b has the angle of (a, -b): the phase shown is
      the response's angle less the excitation's, up to whole turns. */
  ghost predicate ShowsTheFundamental(f: Filter, seen: Observation, atan2: (real, real) -> real) {
    && Congruent(seen.phase, atan2(-f.responseSin, f.responseCos) - atan2(-f.excitationSin, f.excitationCos))
    && seen.excitationSq == f.excitationCos * f.excitationCos + f.excitationSin * f.excitationSin
    && seen.responseSq == f.responseCos * f.responseCos + f.responseSin * f.responseSin
  }

  lemma SmoothedLaw(x: real, dt: real, lag: real, target: real)
    requires dt > 0.0 && lag >= 0.0
    ensures Lags(x, Smoothed(x, Portion(dt, lag), target), target, dt, lag)
  {
    LagEquation(x, target, lag, dt, Smoothed(x, Portion(dt, lag), target));
  }

  lemma ProductLaw(x: real, dt: real, lag: real, signal: real, unit: real)
    requires dt > 0.0 && lag >= 0.0
    ensures LagsProduct(x, Smoothed(x, Portion(dt, lag), Mixed(signal, unit)), signal, unit, dt, lag)
  {
    SmoothedLaw(x, dt, lag, Mixed(signal, unit));
    hide Smoothed, Portion;
  }

  lemma LawIsFollowed(f: Filter, raw: Raw, dt: real, dcTime: real, demodTime: real, atan2: (real, real) -> real)
    requires dt > 0.0 && dcTime > 0.0 && demodTime >= 0.0
    ensures
      var next := Filtered(f, raw, dt, dcTime, demodTime);
      && (Usable(raw) ==> FollowsTheLaw(f, next, raw, dt, dcTime, demodTime))
      && ShowsTheFundamental(next, Seen(next, atan2), atan2)
  {
    hide Smoothed, Portion, Mixed, Seen, ShowsTheFundamental, Lags, LagsProduct;
    var next := Filtered(f, raw, dt, dcTime, demodTime);
    FundamentalIsShown(next, atan2);
    if Usable(raw) {
      var x, y := raw.excitation.value, raw.response.value;
      var u, v := x - next.excitationDc.mean, y - next.responseDc.mean;
      SmoothedLaw(f.excitationDc.mean, dt, dcTime, x);
      SmoothedLaw(f.responseDc.mean, dt, dcTime, y);
      ProductLaw(f.excitationCos, dt, demodTime, u, raw.cos);
      ProductLaw(f.excitationSin, dt, demodTime, u, raw.sin);
      ProductLaw(f.responseCos, dt, demodTime, v, raw.cos);
      ProductLaw(f.responseSin, dt, demodTime, v, raw.sin);
    }
  }

  lemma FundamentalIsShown(f: Filter, atan2: (real, real) -> real)
    ensures ShowsTheFundamental(f, Seen(f, atan2), atan2)
  {
    var difference := atan2(-f.responseSin, f.responseCos) - atan2(-f.excitationSin, f.excitationCos);
    var wrapped := WrapDegrees(difference);
    assert TurnsApart(wrapped, difference, if wrapped < difference then 1 else if wrapped > difference then -1 else 0);
  }

  class DcEstimator {
    var mean: real
    var initialised: bool

    function Model(): Dc reads this { Dc(mean, initialised) }

    constructor ()
      ensures Model() == FRESH_DC
    {
      mean, initialised := 0.0, false;
    }

    method Remove(sample: real, dt: real, timeConstant: real) returns (rest: real)
      requires dt > 0.0 && timeConstant > 0.0
      modifies this
      ensures Model() == Tracked(old(Model()), sample, dt, timeConstant)
      ensures rest == sample - mean && initialised
    {
      if !initialised {
        mean, initialised := sample, true;
      } else {
        mean := Smoothed(mean, dt / (timeConstant + dt), sample);
      }
      rest := sample - mean;
    }

    method Reset()
      modifies this
      ensures Model() == FRESH_DC
    {
      mean, initialised := 0.0, false;
    }
  }

  class FundamentalDemodulator {
    const excitationDc: DcEstimator
    const responseDc: DcEstimator
    var excitationCos: real
    var excitationSin: real
    var responseCos: real
    var responseSin: real

    ghost function Parts(): set<object> { {this, excitationDc, responseDc} }

    ghost predicate Valid() { excitationDc != responseDc }

    ghost function Model(): Filter
      reads this, excitationDc, responseDc
    {
      Filter(excitationDc.Model(), responseDc.Model(), excitationCos, excitationSin, responseCos, responseSin)
    }

    constructor ()
      ensures Valid() && fresh(Parts()) && Model() == FRESH_FILTER
    {
      excitationDc := new DcEstimator();
      responseDc := new DcEstimator();
      excitationCos, excitationSin, responseCos, responseSin := 0.0, 0.0, 0.0, 0.0;
    }

    method Update(raw: Raw, dt: real, dcTime: real, demodTime: real, atan2: (real, real) -> real)
      returns (observation: Option<Observation>)
      requires Valid() && dt > 0.0 && dcTime > 0.0 && demodTime >= 0.0
      modifies Parts()
      ensures Model() == Filtered(old(Model()), raw, dt, dcTime, demodTime)
      ensures observation == if Usable(raw) then Some(Seen(Model(), atan2)) else None
      ensures observation.Some? ==> FollowsTheLaw(old(Model()), Model(), raw, dt, dcTime, demodTime)
      ensures observation.Some? ==> ShowsTheFundamental(Model(), observation.value, atan2)
    {
      LawIsFollowed(Model(), raw, dt, dcTime, demodTime, atan2);
      hide Tracked, Portion, Smoothed, Mixed, Power, WrapDegrees;
      if raw.excitation.None? || raw.response.None? {
        return None;
      }
      var excitation := excitationDc.Remove(raw.excitation.value, dt, dcTime);
      var response := responseDc.Remove(raw.response.value, dt, dcTime);
      var alpha := Portion(dt, demodTime);
      excitationCos := Smoothed(excitationCos, alpha, Mixed(excitation, raw.cos));
      excitationSin := Smoothed(excitationSin, alpha, Mixed(excitation, raw.sin));
      responseCos := Smoothed(responseCos, alpha, Mixed(response, raw.cos));
      responseSin := Smoothed(responseSin, alpha, Mixed(response, raw.sin));
      var excitationPhase := atan2(-excitationSin, excitationCos);
      var responsePhase := atan2(-responseSin, responseCos);
      observation := Some(Observation(WrapDegrees(responsePhase - excitationPhase),
                                      Power(excitationCos, excitationSin),
                                      Power(responseCos, responseSin)));
    }

    method Reset()
      requires Valid()
      modifies Parts()
      ensures Model() == FRESH_FILTER
    {
      excitationDc.Reset();
      responseDc.Reset();
      excitationCos, excitationSin, responseCos, responseSin := 0.0, 0.0, 0.0, 0.0;
    }
  }

  // ---------------------------------------------------------------------------
  // Bounded signals, over whole runs
  // ---------------------------------------------------------------------------

  datatype Reading = Reading(raw: Raw, dt: real, dcTime: real, demodTime: real)

  predicate Within(x: Option<real>, bound: real) { x.Some? ==> Abs(x.value) <= bound }

  /** A reading of signals that stay inside `bound`, with a fundamental of unit size. */
  predicate ReadingOk(r: Reading, bound: real) {
    && r.dt > 0.0 && r.dcTime > 0.0 && r.demodTime >= 0.0
    && Abs(r.raw.cos) <= 1.0 && Abs(r.raw.sin) <= 1.0
    && Within(r.raw.excitation, bound) && Within(r.raw.response, bound)
  }

  function After(f: Filter, readings: seq<Reading>, bound: real): Filter
    requires forall i :: 0 <= i < |readings| ==> ReadingOk(readings[i], bound)
  {
    if readings == [] then f
    else
      var last := readings[|readings| - 1];
      assert ReadingOk(last, bound);
      Filtered(After(f, readings[..|readings| - 1], bound), last.raw, last.dt, last.dcTime, last.demodTime)
  }

  predicate DcWithin(dc: Dc, bound: real) { dc.initialised ==> Abs(dc.mean) <= bound }

  /** Means inside the signals' own bound, products inside four times that. */
  predicate FilterWithin(f: Filter, bound: real) {
    && DcWithin(f.excitationDc, bound) && DcWithin(f.responseDc, bound)
    && Abs(f.excitationCos) <= 4.0 * bound && Abs(f.excitationSin) <= 4.0 * bound
    && Abs(f.responseCos) <= 4.0 * bound && Abs(f.responseSin) <= 4.0 * bound
  }

  lemma PortionIsPart(dt: real, timeConstant: real)
    requires dt > 0.0 && timeConstant >= 0.0
    ensures 0.0 <= Portion(dt, timeConstant) <= 1.0
  {
    if timeConstant > 0.0 { PartOfWhole(dt, timeConstant); }
  }

  lemma TrackedWithin(dc: Dc, sample: real, dt: real, timeConstant: real, bound: real)
    requires dt > 0.0 && timeConstant > 0.0 && DcWithin(dc, bound) && Abs(sample) <= bound
    ensures DcWithin(Tracked(dc, sample, dt, timeConstant), bound)
    ensures Abs(sample - Tracked(dc, sample, dt, timeConstant).mean) <= 2.0 * bound
  {
    if dc.initialised {
      PortionIsPart(dt, timeConstant);
      hide Portion;
      MixWithin(dc.mean, sample - dc.mean, Portion(dt, timeConstant), bound);
    }
  }

  lemma MixedWithin(rest: real, unit: real, bound: real)
    requires Abs(rest) <= 2.0 * bound && Abs(unit) <= 1.0
    ensures Abs(Mixed(rest, unit)) <= 4.0 * bound
  {
    ProductWithin(rest, unit, 1.0);
    Halves(rest, unit);
  }

  lemma Halves(a: real, b: real)
    ensures 2.0 * a * b == 2.0 * (a * b)
  {}

  lemma SmoothedWithin(x: real, alpha: real, rest: real, unit: real, bound: real)
    requires 0.0 <= alpha <= 1.0 && Abs(x) <= 4.0 * bound && Abs(rest) <= 2.0 * bound && Abs(unit) <= 1.0
    ensures Abs(Smoothed(x, alpha, Mixed(rest, unit))) <= 4.0 * bound
  {
    MixedWithin(rest, unit, bound);
    hide Mixed;
    MixWithin(x, Mixed(rest, unit) - x, alpha, 4.0 * bound);
  }

  lemma FilteredWithin(f: Filter, r: Reading, bound: real)
    requires ReadingOk(r, bound) && FilterWithin(f, bound)
    ensures FilterWithin(Filtered(f, r.raw, r.dt, r.dcTime, r.demodTime), bound)
  {
    hide Tracked, Portion, Smoothed, Mixed, Abs, DcWithin;
    if Usable(r.raw) {
      var excitation, response := r.raw.excitation.value, r.raw.response.value;
      var alpha := Portion(r.dt, r.demodTime);
      PortionIsPart(r.dt, r.demodTime);
      TrackedWithin(f.excitationDc, excitation, r.dt, r.dcTime, bound);
      TrackedWithin(f.responseDc, response, r.dt, r.dcTime, bound);
      var e := excitation - Tracked(f.excitationDc, excitation, r.dt, r.dcTime).mean;
      var y := response - Tracked(f.responseDc, response, r.dt, r.dcTime).mean;
      SmoothedWithin(f.excitationCos, alpha, e, r.raw.cos, bound);
      SmoothedWithin(f.excitationSin, alpha, e, r.raw.sin, bound);
      SmoothedWithin(f.responseCos, alpha, y, r.raw.cos, bound);
      SmoothedWithin(f.responseSin, alpha, y, r.raw.sin, bound);
    }
  }

  lemma {:induction false} StaysWithin(readings: seq<Reading>, bound: real)
    requires bound >= 0.0 && forall i :: 0 <= i < |readings| ==> ReadingOk(readings[i], bound)
    ensures FilterWithin(After(FRESH_FILTER, readings, bound), bound)
  {
    hide Filtered, ReadingOk;
    if readings != [] {
      var n := |readings| - 1;
      StaysWithin(readings[..n], bound);
      FilteredWithin(After(FRESH_FILTER, readings[..n], bound), readings[n], bound);
    }
  }

  lemma SquareWithin(x: real, bound: real)
    requires Abs(x) <= bound
    ensures 0.0 <= x * x <= bound * bound
  {
    ProductWithin(x, x, bound);
    NonNegativeProduct(Abs(x), Abs(x));
    NonNegativeProduct(bound - Abs(x), bound);
    assert Abs(x) * Abs(x) == x * x;
    assert (bound - Abs(x)) * bound == bound * bound - Abs(x) * bound;
  }

  lemma PowerWithin(x: real, y: real, bound: real)
    requires Abs(x) <= 4.0 * bound && Abs(y) <= 4.0 * bound
    ensures 0.0 <= Power(x, y) <= 32.0 * (bound * bound)
  {
    SquareWithin(x, 4.0 * bound);
    SquareWithin(y, 4.0 * bound);
    FourTimesSquared(bound);
  }

  lemma FourTimesSquared(bound: real)
    ensures (4.0 * bound) * (4.0 * bound) == 16.0 * (bound * bound)
  {}

  /** However long signals inside `bound` are demodulated, at whatever sample intervals and
      with whatever samples missing, what the PLL is shown is a phase within half a turn and
      squared amplitudes of at most 32 times the bound's square. */
  lemma ObservationsAreBounded(readings: seq<Reading>, bound: real, atan2: (real, real) -> real)
    requires bound >= 0.0 && forall i :: 0 <= i < |readings| ==> ReadingOk(readings[i], bound)
    requires forall y, x :: -180.0 <= atan2(y, x) <= 180.0
    ensures
      var seen := Seen(After(FRESH_FILTER, readings, bound), atan2);
      && -180.0 <= seen.phase < 180.0
      && 0.0 <= seen.excitationSq <= 32.0 * (bound * bound)
      && 0.0 <= seen.responseSq <= 32.0 * (bound * bound)
  {
    StaysWithin(readings, bound);
    var f := After(FRESH_FILTER, readings, bound);
    hide After;
    PowerWithin(f.excitationCos, f.excitationSin, bound);
    PowerWithin(f.responseCos, f.responseSin, bound);
    hide Power;
  }
}
