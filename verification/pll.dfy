/** Bounded fundamental phase-locked loop: state machine, correction and setters. */
module PhaseLock {
  import opened Words
  import opened Wrappers
  import opened Degrees
  import opened Demodulation
  import opened Reals

  datatype PllState = Fixed | Acquiring | Locked | LockLost

  /** Gains, tolerances and times: everything a setter can tune without touching the loop. */
  datatype Settings = Settings(
    proportionalGain: real,
    integralGain: real,
    targetPhase: real,
    delay: real,
    dcTimeConstant: real,
    demodTimeConstant: real,
    minExcitationSq: real,
    minResponseSq: real,
    lockTolerance: real,
    unlockTolerance: real,
    frequencyTolerance: real,
    lockDwell: real,
    unlockDwell: real,
    acquireTimeout: real,
    saturationDwell: real)
  {
    predicate Valid() {
      && -180.0 <= targetPhase < 180.0
      && dcTimeConstant > 0.0
      && demodTimeConstant >= 0.0
      && minExcitationSq >= 0.0
      && minResponseSq >= 0.0
      && 0.0 <= lockTolerance <= unlockTolerance
      && frequencyTolerance >= 0.0
      && lockDwell >= 0.0
      && unlockDwell >= 0.0
      && acquireTimeout >= 0.0
      && saturationDwell >= 0.0
    }

    /** Five of the slower time constant must pass before acquisition is judged. */
    function Warmup(): real {
      5.0 * (if dcTimeConstant < demodTimeConstant then demodTimeConstant else dcTimeConstant)
    }
  }

  /** What the last judged sample showed; both phases are absent when it was unusable. */
  datatype View = View(measured: Option<real>, error: Option<real>, valid: bool)

  datatype Timers = Timers(warmup: real, acquire: real, lock: real, unlock: real, saturation: real)

  const ZERO_TIMERS := Timers(0.0, 0.0, 0.0, 0.0, 0.0)

  /** Smallest and largest unquantised correction of the current lock dwell. */
  datatype Spread = Spread(low: real, high: real)

  datatype Loop = Loop(
    state: PllState,
    centre: U32,
    min: U32,
    max: U32,
    commanded: U32,
    integral: real,
    correction: real,
    saturated: bool,
    view: View,
    timers: Timers,
    spread: Spread)
  {
    /** The correction window, in increment quanta relative to the centre. */
    function Lowest(): real { -((centre as int - min as int) as real) }

    function Highest(): real { (max as int - centre as int) as real }

    predicate Bounded() { min <= centre <= max && min <= commanded <= max }
  }

  function ToU32(x: real): (word: U32)
    requires x >= 0.0
    ensures x < TWO32 as real ==> word as real <= x < word as real + 1.0
  {
    if x.Floor < TWO32 then x.Floor else TWO32 - 1
  }

  /** Centre plus a signed correction, rounded to the nearest quantum. */
  function AddSignedCorrection(centre: U32, correction: real, min: U32, max: U32): (sum: U32)
    ensures
      min <= centre <= max
      && -((centre as int - min as int) as real) <= correction <= (max as int - centre as int) as real
      ==> min <= sum <= max && -0.5 <= sum as real - (centre as real + correction) <= 0.5
  {
    if correction >= 0.0 then
      var added: int := centre as int + ToU32(correction + 0.5);
      var saturated: U32 := if added < TWO32 then added else TWO32 - 1;
      if saturated < max then saturated else max
    else
      var taken: int := centre as int - ToU32(-correction + 0.5);
      var saturated: U32 := if taken >= 0 then taken else 0;
      if saturated > min then saturated else min
  }

  function SignedDifference(value: U32, centre: U32): real { (value as int - centre as int) as real }

  function Proportional(s: Settings, error: real): real { s.proportionalGain * error }

  function IntegralIncrement(s: Settings, error: real, dt: real): real { s.integralGain * error * dt }

  /** Phase turned by the signed differential delay at the increment that made the frame. */
  function DelayPhase(s: Settings, increment: U32, dt: real): real
    requires dt > 0.0
  {
    360.0 * (increment as real / TWO32 as real / dt) * s.delay
  }

  /** The integral after one error, frozen when it would push further into saturation. */
  function NextIntegral(l: Loop, proportional: real, increment: real): real {
    var candidate := proportional + (l.integral + increment);
    if (candidate > l.Highest() && increment > 0.0) || (candidate < l.Lowest() && increment < 0.0)
    then l.integral
    else l.integral + increment
  }

  function Corrected(s: Settings, l: Loop, error: real, dt: real): Loop
    requires l.Lowest() <= l.Highest()
  {
    var proportional, increment := Proportional(s, error), IntegralIncrement(s, error, dt);
    var candidate := proportional + (l.integral + increment);
    var integral := NextIntegral(l, proportional, increment);
    var correction := Clamp(proportional + integral, l.Lowest(), l.Highest());
    l.(integral := integral,
       correction := correction,
       commanded := AddSignedCorrection(l.centre, correction, l.min, l.max),
       saturated := candidate > l.Highest() || candidate < l.Lowest())
  }

  function ClearedQualification(l: Loop): Loop {
    l.(view := View(None, None, false), timers := ZERO_TIMERS, spread := Spread(l.correction, l.correction))
  }

  function ResetLoop(l: Loop): Loop {
    ClearedQualification(l.(commanded := l.centre, integral := 0.0, correction := 0.0, saturated := false))
  }

  function RestartedDwell(l: Loop): Loop {
    l.(timers := l.timers.(lock := 0.0), spread := Spread(l.correction, l.correction))
  }

  predicate WithinLock(s: Settings, l: Loop) {
    l.view.valid && l.view.error.Some? && Abs(l.view.error.value) <= s.lockTolerance
  }

  predicate OutsideLock(s: Settings, l: Loop) {
    !l.view.valid || l.view.error.None? || Abs(l.view.error.value) > s.unlockTolerance
  }

  /** The spread with one more correction in it; the first sample of a dwell starts it afresh. */
  function Widened(l: Loop): Spread {
    if l.timers.lock == 0.0 then Spread(l.correction, l.correction)
    else
      Spread(if l.correction < l.spread.low then l.correction else l.spread.low,
             if l.correction > l.spread.high then l.correction else l.spread.high)
  }

  function Acquisition(s: Settings, l: Loop, dt: real): Loop {
    var wide := Widened(l);
    var steady := WithinLock(s, l) && wide.high - wide.low <= s.frequencyTolerance;
    var dwelt :=
      if steady then l.(spread := wide, timers := l.timers.(lock := l.timers.lock + dt))
      else RestartedDwell(l);
    if steady && dwelt.timers.lock >= s.lockDwell then
      dwelt.(state := Locked, timers := dwelt.timers.(unlock := 0.0, saturation := 0.0))
    else if l.timers.acquire >= s.acquireTimeout then
      WithReset(dwelt)
    else
      dwelt
  }

  function LockHeld(s: Settings, l: Loop, dt: real): Loop {
    var unlock := if OutsideLock(s, l) then l.timers.unlock + dt else 0.0;
    var saturation := if l.saturated then l.timers.saturation + dt else 0.0;
    var lost := (OutsideLock(s, l) && unlock >= s.unlockDwell)
                || (l.saturated && saturation >= s.saturationDwell);
    l.(timers := l.timers.(unlock := unlock, saturation := saturation),
       state := if lost then LockLost else l.state)
  }

  predicate Qualified(s: Settings, observation: Option<Observation>) {
    && observation.Some?
    && observation.value.excitationSq >= s.minExcitationSq
    && observation.value.responseSq >= s.minResponseSq
  }

  /** The loop with the measurement of this sample in it, before the state is judged. */
  function Measured(s: Settings, l: Loop, observation: Option<Observation>, increment: U32, dt: real): Loop
    requires dt > 0.0 && l.Lowest() <= l.Highest()
  {
    if Qualified(s, observation) then
      var phase := WrapDegreesFull(observation.value.phase + DelayPhase(s, increment, dt));
      var error := WrapDegrees(phase - s.targetPhase);
      Corrected(s, l.(view := View(Some(phase), Some(error), true)), error, dt)
    else
      l.(view := View(None, None, false), saturated := false)
  }

  function Started(l: Loop, dt: real): Loop {
    l.(view := l.view.(valid := false), timers := l.timers.(warmup := l.timers.warmup + dt))
  }

  function Judged(l: Loop, dt: real): Loop { l.(timers := l.timers.(acquire := l.timers.acquire + dt)) }

  function Observed(s: Settings, l: Loop, observation: Option<Observation>, increment: U32, dt: real): Loop
    requires dt > 0.0 && l.Lowest() <= l.Highest()
  {
    var started := Started(l, dt);
    if started.timers.warmup < s.Warmup() then started
    else
      var measured := Measured(s, Judged(started, dt), observation, increment, dt);
      match l.state
      case Acquiring => Acquisition(s, measured, dt)
      case Locked => LockHeld(s, measured, dt)
      case _ => measured
  }

  /** One call of the public update; a non-positive period leaves everything alone. */
  function Updated(s: Settings, l: Loop, observation: Option<Observation>, increment: U32, dt: real): Loop
    requires l.Bounded()
  {
    if l.state == Fixed || l.state == LockLost || dt <= 0.0 then l
    else Observed(s, l, observation, increment, dt)
  }

  function Reacquired(l: Loop): Loop {
    if l.state == Fixed || l.state == Locked then
      var difference := SignedDifference(l.commanded, l.centre);
      ClearedQualification(l.(integral := difference, correction := difference)).(state := Acquiring)
    else
      l
  }

  function WithReset(l: Loop): Loop { ResetLoop(l).(state := Fixed) }

  function Enabled(l: Loop, enabled: bool): Loop {
    if !enabled && l.state != LockLost then WithReset(l)
    else if l.state == Fixed then ResetLoop(l).(state := Acquiring)
    else l
  }

  function WithCentre(l: Loop, increment: U32): (Loop, bool) {
    if !(l.min <= increment <= l.max) then (l, false)
    else if l.state == Fixed then
      (l.(centre := increment, commanded := increment, integral := 0.0, correction := 0.0), true)
    else
      (l.(centre := increment), true)
  }

  function WithMin(l: Loop, increment: U32): (Loop, bool) {
    if increment > l.centre then (l, false)
    else (l.(min := increment, commanded := if l.commanded < increment then increment else l.commanded), true)
  }

  function WithMax(l: Loop, increment: U32): (Loop, bool) {
    if increment < l.centre then (l, false)
    else (l.(max := increment, commanded := if l.commanded > increment then increment else l.commanded), true)
  }

  /** The settings reached by the plain setters, by name; a value is absent when the host
      sent a NaN or an infinity. */
  datatype Tuning =
    | ProportionalGain | IntegralGain | Delay | DcTimeConstant | DemodTimeConstant
    | MinExcitation | MinResponse | LockTolerance | UnlockTolerance | FrequencyTolerance
    | LockDwell | UnlockDwell | AcquireTimeout | SaturationDwell

  function Tuned(s: Settings, which: Tuning, value: Option<real>): (Settings, bool) {
    if value.None? then (s, false)
    else
      var v := value.value;
      match which
      case ProportionalGain => (s.(proportionalGain := v), true)
      case IntegralGain => (s.(integralGain := v), true)
      case Delay => (s.(delay := v), true)
      case DcTimeConstant => if v > 0.0 then (s.(dcTimeConstant := v), true) else (s, false)
      case LockTolerance =>
        if 0.0 <= v <= s.unlockTolerance then (s.(lockTolerance := v), true) else (s, false)
      case UnlockTolerance =>
        if 0.0 <= v && s.lockTolerance <= v then (s.(unlockTolerance := v), true) else (s, false)
      case _ =>
        if v < 0.0 then (s, false)
        else
          match which
          case DemodTimeConstant => (s.(demodTimeConstant := v), true)
          case MinExcitation => (s.(minExcitationSq := v * v), true)
          case MinResponse => (s.(minResponseSq := v * v), true)
          case FrequencyTolerance => (s.(frequencyTolerance := v), true)
          case LockDwell => (s.(lockDwell := v), true)
          case UnlockDwell => (s.(unlockDwell := v), true)
          case AcquireTimeout => (s.(acquireTimeout := v), true)
          case _ => (s.(saturationDwell := v), true)
  }

  /** The lag of mean removal is positive; other times, tolerances and amplitudes are not
      negative, the unlock tolerance never being the smaller; gains and delay are free. */
  ghost predicate Acceptable(s: Settings, which: Tuning, v: real) {
    && (which.DcTimeConstant? ==> v > 0.0)
    && (which.DemodTimeConstant? || which.AcquireTimeout? || which.SaturationDwell? ==> v >= 0.0)
    && (which.MinExcitation? || which.MinResponse? || which.FrequencyTolerance? ==> v >= 0.0)
    && (which.LockDwell? || which.UnlockDwell? ==> v >= 0.0)
    && (which.LockTolerance? ==> 0.0 <= v <= s.unlockTolerance)
    && (which.UnlockTolerance? ==> 0.0 <= v && s.lockTolerance <= v)
  }

  /** The named setting has the value, amplitudes squared, and no other has changed. */
  ghost predicate IsTuned(s: Settings, t: Settings, which: Tuning, v: real) {
    && t.targetPhase == s.targetPhase
    && t.proportionalGain == (if which.ProportionalGain? then v else s.proportionalGain)
    && t.integralGain == (if which.IntegralGain? then v else s.integralGain)
    && t.delay == (if which.Delay? then v else s.delay)
    && t.dcTimeConstant == (if which.DcTimeConstant? then v else s.dcTimeConstant)
    && t.demodTimeConstant == (if which.DemodTimeConstant? then v else s.demodTimeConstant)
    && t.minExcitationSq == (if which.MinExcitation? then v * v else s.minExcitationSq)
    && t.minResponseSq == (if which.MinResponse? then v * v else s.minResponseSq)
    && t.lockTolerance == (if which.LockTolerance? then v else s.lockTolerance)
    && t.unlockTolerance == (if which.UnlockTolerance? then v else s.unlockTolerance)
    && t.frequencyTolerance == (if which.FrequencyTolerance? then v else s.frequencyTolerance)
    && t.lockDwell == (if which.LockDwell? then v else s.lockDwell)
    && t.unlockDwell == (if which.UnlockDwell? then v else s.unlockDwell)
    && t.acquireTimeout == (if which.AcquireTimeout? then v else s.acquireTimeout)
    && t.saturationDwell == (if which.SaturationDwell? then v else s.saturationDwell)
  }

  class Pll {
    var settings: Settings
    var state: PllState
    var centre: U32
    var min: U32
    var max: U32
    var commanded: U32
    var integral: real
    var correction: real
    var saturated: bool
    var view: View
    var timers: Timers
    var spread: Spread
    const demodulator: FundamentalDemodulator

    function Model(): Loop reads this {
      Loop(state, centre, min, max, commanded, integral, correction, saturated, view, timers, spread)
    }

    ghost function Parts(): set<object> { demodulator.Parts() }

    ghost predicate Valid() reads this {
      settings.Valid() && Model().Bounded() && demodulator.Valid() && this !in Parts()
    }

    constructor (settings: Settings, centre: U32, min: U32, max: U32)
      requires settings.Valid() && min <= centre <= max
      ensures Valid() && this.settings == settings && fresh(Parts()) && demodulator.Model() == FRESH_FILTER
      ensures this.centre == centre && this.min == min && this.max == max
      ensures state == Fixed && commanded == centre && Model() == ResetLoop(Model())
    {
      this.settings := settings;
      this.centre, this.min, this.max, commanded := centre, min, max, centre;
      state, integral, correction := Fixed, 0.0, 0.0;
      saturated, view, timers, spread := false, View(None, None, false), ZERO_TIMERS, Spread(0.0, 0.0);
      demodulator := new FundamentalDemodulator();
    }

    /** Update from the raw samples of both signals. */
    method Update(raw: Raw, increment: U32, dt: real, atan2: (real, real) -> real) returns (next: U32)
      requires Valid()
      modifies this, Parts()
      ensures Valid() && settings == old(settings) && next == commanded
      ensures
        var idle := old(state) == Fixed || old(state) == LockLost || dt <= 0.0;
        if idle then Model() == old(Model()) && demodulator.Model() == old(demodulator.Model())
        else
          var filter := Filtered(old(demodulator.Model()), raw, dt, settings.dcTimeConstant, settings.demodTimeConstant);
          && Model() == Updated(settings, old(Model()), if Usable(raw) then Some(Seen(filter, atan2)) else None, increment, dt)
          && demodulator.Model() == if state == Fixed then FRESH_FILTER else filter
    {
      hide Filtered, Seen, Observed;
      if state == Fixed || state == LockLost || dt <= 0.0 {
        return commanded;
      }
      var observation :=
        demodulator.Update(raw, dt, settings.dcTimeConstant, settings.demodTimeConstant, atan2);
      UpdateKeepsBounds(settings, Model(), observation, increment, dt);
      next := UpdateObservation(observation, increment, dt);
    }

    method UpdateObservation(observation: Option<Observation>, increment: U32, dt: real) returns (next: U32)
      requires Valid() && (state == Acquiring || state == Locked) && dt > 0.0
      modifies this, Parts()
      ensures settings == old(settings) && next == commanded
      ensures Model() == Observed(settings, old(Model()), observation, increment, dt)
      ensures demodulator.Model() == if state == Fixed then FRESH_FILTER else old(demodulator.Model())
    {
      hide Measured, Acquisition, LockHeld;
      view := view.(valid := false);
      timers := timers.(warmup := timers.warmup + dt);
      if timers.warmup < settings.Warmup() {
        return commanded;
      }
      timers := timers.(acquire := timers.acquire + dt);
      Measure(observation, increment, dt);
      if state == Acquiring {
        UpdateAcquisition(dt);
      } else if state == Locked {
        UpdateLock(dt);
      }
      next := commanded;
    }

    method Measure(observation: Option<Observation>, increment: U32, dt: real)
      requires dt > 0.0 && Model().Lowest() <= Model().Highest()
      modifies this`view, this`integral, this`correction, this`commanded, this`saturated
      ensures Model() == Measured(settings, old(Model()), observation, increment, dt)
    {
      hide Corrected, DelayPhase, WrapDegreesFull, WrapDegrees;
      if Qualified(settings, observation) {
        var phase := WrapDegreesFull(observation.value.phase + DelayPhase(settings, increment, dt));
        view := View(Some(phase), Some(WrapDegrees(phase - settings.targetPhase)), true);
        ApplyCorrection(dt);
      } else {
        view, saturated := View(None, None, false), false;
      }
    }

    method ApplyCorrection(dt: real)
      requires view.error.Some? && Model().Lowest() <= Model().Highest()
      modifies this`integral, this`correction, this`commanded, this`saturated
      ensures Model() == Corrected(settings, old(Model()), view.error.value, dt)
    {
      hide Proportional, IntegralIncrement, AddSignedCorrection;
      var proportional := Proportional(settings, view.error.value);
      var integralIncrement := IntegralIncrement(settings, view.error.value, dt);
      var candidateIntegral := integral + integralIncrement;
      var candidate := proportional + candidateIntegral;
      var minCorrection := -((centre as int - min as int) as real);
      var maxCorrection := (max as int - centre as int) as real;
      var saturatedHigh := candidate > maxCorrection;
      var saturatedLow := candidate < minCorrection;
      if !((saturatedHigh && integralIncrement > 0.0) || (saturatedLow && integralIncrement < 0.0)) {
        integral := candidateIntegral;
      }
      correction := Clamp(proportional + integral, minCorrection, maxCorrection);
      commanded := AddSignedCorrection(centre, correction, min, max);
      saturated := saturatedHigh || saturatedLow;
    }

    method UpdateAcquisition(dt: real)
      requires demodulator.Valid() && this !in Parts() && state == Acquiring
      modifies this, Parts()
      ensures settings == old(settings)
      ensures Model() == Acquisition(settings, old(Model()), dt)
      ensures demodulator.Model() == if state == Fixed then FRESH_FILTER else old(demodulator.Model())
    {
      if view.valid && view.error.Some? && Abs(view.error.value) <= settings.lockTolerance {
        if timers.lock == 0.0 {
          spread := Spread(correction, correction);
        } else {
          spread := Spread(if correction < spread.low then correction else spread.low,
                           if correction > spread.high then correction else spread.high);
        }
        if spread.high - spread.low <= settings.frequencyTolerance {
          timers := timers.(lock := timers.lock + dt);
          if timers.lock >= settings.lockDwell {
            state := Locked;
            timers := timers.(unlock := 0.0, saturation := 0.0);
            return;
          }
        } else {
          RestartLockDwell();
        }
      } else {
        RestartLockDwell();
      }
      if timers.acquire >= settings.acquireTimeout {
        Reset();
      }
    }

    method UpdateLock(dt: real)
      requires state == Locked
      modifies this`timers, this`state
      ensures state != Fixed
      ensures Model() == LockHeld(settings, old(Model()), dt)
    {
      var outsideLock := !view.valid || view.error.None? || Abs(view.error.value) > settings.unlockTolerance;
      timers := timers.(unlock := if outsideLock then timers.unlock + dt else 0.0,
                        saturation := if saturated then timers.saturation + dt else 0.0);
      if (outsideLock && timers.unlock >= settings.unlockDwell)
         || (saturated && timers.saturation >= settings.saturationDwell)
      {
        state := LockLost;
      }
    }

    method RestartLockDwell()
      modifies this`timers, this`spread
      ensures Model() == RestartedDwell(old(Model()))
    {
      timers, spread := timers.(lock := 0.0), Spread(correction, correction);
    }

    method ClearQualification()
      modifies this
      ensures settings == old(settings)
      ensures Model() == ClearedQualification(old(Model()))
    {
      view, timers, spread := View(None, None, false), ZERO_TIMERS, Spread(correction, correction);
    }

    method Reset()
      requires demodulator.Valid() && this !in Parts()
      modifies this, Parts()
      ensures settings == old(settings)
      ensures Model() == WithReset(old(Model())) && demodulator.Model() == FRESH_FILTER
      ensures state == Fixed && commanded == centre == old(centre) && integral == 0.0 == correction
      ensures !saturated && !view.valid && timers == ZERO_TIMERS && min == old(min) && max == old(max)
    {
      demodulator.Reset();
      commanded, integral, correction, saturated := centre, 0.0, 0.0, false;
      ClearQualification();
      state := Fixed;
    }

    method SetEnabled(enabled: bool)
      requires demodulator.Valid() && this !in Parts()
      modifies this, Parts()
      ensures settings == old(settings)
      ensures Model() == Enabled(old(Model()), enabled)
      ensures state ==
        if enabled then (if old(state) == Fixed then Acquiring else old(state))
        else if old(state) == LockLost then LockLost else Fixed
      ensures state != old(state) ==>
        commanded == centre && integral == 0.0 == correction && !saturated && timers == ZERO_TIMERS
      ensures state == old(state) && state != Fixed ==> Model() == old(Model())
      ensures demodulator.Model() ==
        if (if enabled then old(state) == Fixed else old(state) != LockLost) then FRESH_FILTER
        else old(demodulator.Model())
    {
      if !enabled && state != LockLost {
        Reset();
      } else if state == Fixed {
        Reset();
        state := Acquiring;
      }
    }

    method Reacquire()
      modifies this
      ensures settings == old(settings)
      ensures Model() == Reacquired(old(Model()))
      ensures old(state) == Fixed || old(state) == Locked ==>
        && state == Acquiring && commanded == old(commanded) && timers == ZERO_TIMERS && !view.valid
        && integral == (commanded as int - centre as int) as real == correction
      ensures old(state) == Acquiring || old(state) == LockLost ==> Model() == old(Model())
    {
      if state == Fixed || state == Locked {
        integral := SignedDifference(commanded, centre);
        correction := integral;
        ClearQualification();
        state := Acquiring;
      }
    }

    method SetCentreIncrement(increment: U32) returns (accepted: bool)
      modifies this
      ensures settings == old(settings)
      ensures (Model(), accepted) == WithCentre(old(Model()), increment)
      ensures accepted <==> min <= increment <= max
      ensures !accepted ==> Model() == old(Model())
      ensures accepted ==> centre == increment && min == old(min) && max == old(max)
      ensures accepted && state == Fixed ==> commanded == increment && integral == 0.0 == correction
      ensures accepted && state != Fixed ==>
        commanded == old(commanded) && integral == old(integral) && correction == old(correction)
    {
      if !(min <= increment <= max) {
        return false;
      }
      centre := increment;
      if state == Fixed {
        commanded, integral, correction := increment, 0.0, 0.0;
      }
      accepted := true;
    }

    method SetMinIncrement(increment: U32) returns (accepted: bool)
      modifies this`min, this`commanded
      ensures (Model(), accepted) == WithMin(old(Model()), increment)
      ensures accepted <==> increment <= centre
      ensures !accepted ==> min == old(min) && commanded == old(commanded)
      ensures accepted ==> min == increment <= commanded
      ensures accepted && old(commanded) >= increment ==> commanded == old(commanded)
      ensures accepted && old(commanded) < increment ==> commanded == increment
    {
      if increment > centre {
        return false;
      }
      min := increment;
      commanded := if commanded < increment then increment else commanded;
      accepted := true;
    }

    method SetMaxIncrement(increment: U32) returns (accepted: bool)
      modifies this`max, this`commanded
      ensures (Model(), accepted) == WithMax(old(Model()), increment)
      ensures accepted <==> increment >= centre
      ensures !accepted ==> max == old(max) && commanded == old(commanded)
      ensures accepted ==> max == increment >= commanded
      ensures accepted && old(commanded) <= increment ==> commanded == old(commanded)
      ensures accepted && old(commanded) > increment ==> commanded == increment
    {
      if increment < centre {
        return false;
      }
      max := increment;
      commanded := if commanded > increment then increment else commanded;
      accepted := true;
    }

    method SetTargetPhase(degrees: Option<real>) returns (accepted: bool)
      modifies this
      ensures accepted <==> degrees.Some? && -180.0 <= degrees.value < 180.0
      ensures !accepted ==> settings == old(settings) && Model() == old(Model())
      ensures accepted ==>
        && settings == old(settings).(targetPhase := degrees.value)
        && Model() == if degrees.value != old(settings.targetPhase)
                      then Reacquired(old(Model())) else old(Model())
    {
      if degrees.None? || !(-180.0 <= degrees.value < 180.0) {
        return false;
      }
      var changed := settings.targetPhase != degrees.value;
      settings := settings.(targetPhase := degrees.value);
      if changed {
        Reacquire();
      }
      accepted := true;
    }

    method Tune(which: Tuning, value: Option<real>) returns (accepted: bool)
      modifies this`settings
      ensures (settings, accepted) == Tuned(old(settings), which, value)
      ensures accepted <==> value.Some? && Acceptable(old(settings), which, value.value)
      ensures !accepted ==> settings == old(settings)
      ensures accepted ==> IsTuned(old(settings), settings, which, value.value)
    {
      var tuned := Tuned(settings, which, value);
      settings, accepted := tuned.0, tuned.1;
    }
  }

  // ---------------------------------------------------------------------------
  // Every sequence of public calls
  // ---------------------------------------------------------------------------

  datatype Call =
    | Update(observation: Option<Observation>, increment: U32, dt: real)
    | SetEnabled(enabled: bool)
    | Reacquire
    | Reset
    | SetCentre(centre: U32)
    | SetMin(min: U32)
    | SetMax(max: U32)
    | SetTarget(degrees: Option<real>)
    | Tune(which: Tuning, value: Option<real>)

  function Called(s: Settings, l: Loop, call: Call): (Settings, Loop)
    requires l.Bounded()
  {
    match call
    case Update(observation, increment, dt) => (s, Updated(s, l, observation, increment, dt))
    case SetEnabled(enabled) => (s, Enabled(l, enabled))
    case Reacquire => (s, Reacquired(l))
    case Reset => (s, WithReset(l))
    case SetCentre(centre) => (s, WithCentre(l, centre).0)
    case SetMin(min) => (s, WithMin(l, min).0)
    case SetMax(max) => (s, WithMax(l, max).0)
    case SetTarget(degrees) =>
      if degrees.None? || !(-180.0 <= degrees.value < 180.0) then (s, l)
      else
        (s.(targetPhase := degrees.value),
         if degrees.value != s.targetPhase then Reacquired(l) else l)
    case Tune(which, value) => (Tuned(s, which, value).0, l)
  }

  /** Measuring touches the correction and the view only, and keeps the command bounded. */
  lemma MeasuredFrame(s: Settings, l: Loop, observation: Option<Observation>, increment: U32, dt: real)
    requires dt > 0.0 && l.Bounded()
    ensures
      var m := Measured(s, l, observation, increment, dt);
      && m.Bounded()
      && m.state == l.state && m.centre == l.centre && m.min == l.min && m.max == l.max
      && m.timers == l.timers && m.spread == l.spread
      && m.view.valid == Qualified(s, observation)
      && (m.view.valid ==>
            && m.view.error.Some?
            && m.Lowest() <= m.correction <= m.Highest()
            && -0.5 <= m.commanded as real - (m.centre as real + m.correction) <= 0.5)
  {
    hide Proportional, IntegralIncrement, DelayPhase, WrapDegreesFull, WrapDegrees, NextIntegral;
  }

  /** Judging a sample keeps the limits and can only clear the integrator. */
  lemma JudgementFrame(s: Settings, m: Loop, dt: real)
    requires m.Bounded()
    ensures
      var a := Acquisition(s, m, dt);
      && a.Bounded() && a.centre == m.centre && a.min == m.min && a.max == m.max
      && (a.integral == m.integral || a.integral == 0.0)
      && (m.state == Acquiring ==> a.state == Acquiring || a.state == Locked || a.state == Fixed)
    ensures
      var h := LockHeld(s, m, dt);
      && h.Bounded() && h.centre == m.centre && h.min == m.min && h.max == m.max
      && h.integral == m.integral
      && (m.state == Locked ==> h.state == Locked || h.state == LockLost)
  {
    hide WithinLock, OutsideLock;
  }

  lemma UpdateKeepsBounds(s: Settings, l: Loop, observation: Option<Observation>, increment: U32, dt: real)
    requires l.Bounded()
    ensures Updated(s, l, observation, increment, dt).Bounded()
  {
    hide Measured, Acquisition, LockHeld;
    if dt > 0.0 && l.state != Fixed && l.state != LockLost {
      var judged := Judged(Started(l, dt), dt);
      MeasuredFrame(s, judged, observation, increment, dt);
      JudgementFrame(s, Measured(s, judged, observation, increment, dt), dt);
    }
  }

  lemma TuneKeepsValidity(s: Settings, which: Tuning, value: Option<real>)
    requires s.Valid()
    ensures Tuned(s, which, value).0.Valid()
  {
    if value.Some? { SquareIsNonNegative(value.value); }
  }

  lemma CallKeepsBounds(s: Settings, l: Loop, call: Call)
    requires s.Valid() && l.Bounded()
    ensures
      var (s', l') := Called(s, l, call);
      && s'.Valid() && l'.Bounded()
      && (l.state == LockLost && call != Reset ==> l'.state == LockLost)
  {
    hide Observed, Tuned;
    match call
    case Update(observation, increment, dt) => UpdateKeepsBounds(s, l, observation, increment, dt);
    case Tune(which, value) => TuneKeepsValidity(s, which, value);
    case _ =>
  }

  lemma SquareIsNonNegative(v: real)
    ensures v * v >= 0.0
  {}

  ghost function After(s: Settings, l: Loop, calls: seq<Call>): (r: (Settings, Loop))
    requires s.Valid() && l.Bounded()
    ensures r.0.Valid() && r.1.Bounded()
  {
    if calls == [] then (s, l)
    else
      var (t, m) := After(s, l, calls[..|calls| - 1]);
      CallKeepsBounds(t, m, calls[|calls| - 1]);
      Called(t, m, calls[|calls| - 1])
  }

  /** However the public calls are interleaved, centre and command stay inside the bounds,
      and a lost lock is left by `reset` only. */
  lemma {:induction false} BoundedUnderEveryCallSequence(s: Settings, l: Loop, calls: seq<Call>)
    requires s.Valid() && l.Bounded()
    ensures
      var end := After(s, l, calls).1;
      && end.min <= end.centre <= end.max
      && end.min <= end.commanded <= end.max
      && (l.state == LockLost && Reset !in calls ==> end.state == LockLost)
  {
    if calls != [] {
      BoundedUnderEveryCallSequence(s, l, calls[..|calls| - 1]);
      var (t, m) := After(s, l, calls[..|calls| - 1]);
      CallKeepsBounds(t, m, calls[|calls| - 1]);
    }
  }

  /** Whenever a sample yields a valid observation the command is the centre plus the
      unquantised correction, to the nearest quantum, and the correction is in its window. */
  lemma CommandIsNearestQuantum(s: Settings, l: Loop, observation: Option<Observation>, increment: U32, dt: real)
    requires s.Valid() && l.Bounded() && dt > 0.0
    requires l.state == Acquiring || l.state == Locked
    ensures
      var next := Updated(s, l, observation, increment, dt);
      next.view.valid ==>
        && next.Lowest() <= next.correction <= next.Highest()
        && -0.5 <= next.commanded as real - (next.centre as real + next.correction) <= 0.5
  {
    hide Measured;
    MeasuredFrame(s, Judged(Started(l, dt), dt), observation, increment, dt);
  }

  // ---------------------------------------------------------------------------
  // What one judged sample does
  // ---------------------------------------------------------------------------

  /** An observation with enough excitation and response. */
  ghost predicate EnoughSignal(s: Settings, o: Option<Observation>) {
    o.Some? && o.value.excitationSq >= s.minExcitationSq && o.value.responseSq >= s.minResponseSq
  }

  /** The measured phase is this angle, and the error is how far it is from the target, both
      within half a turn of zero. */
  ghost predicate ShowsAngle(s: Settings, l: Loop, advanced: real)
    requires l.view.measured.Some? && l.view.error.Some?
  {
    && (Abs(advanced) <= DIRECT_LIMIT ==> Congruent(l.view.measured.value, advanced))
    && (Abs(advanced) <= F32_MAX ==> -180.0 <= l.view.measured.value < 180.0 && -180.0 <= l.view.error.value < 180.0)
    && Congruent(l.view.error.value, l.view.measured.value - s.targetPhase)
  }

  /** The angle measured is the observed one advanced by the delay at the increment's frequency. */
  ghost predicate ShowsTheError(s: Settings, l: Loop, phase: real, increment: U32, dt: real)
    requires dt > 0.0 && l.view.measured.Some? && l.view.error.Some?
  {
    ShowsAngle(s, l, phase + 360.0 * (increment as real / 4294967296.0 / dt) * s.delay)
  }

  /** Proportional and integral control of the error, in quanta either side of the centre: the
      integral takes the error in unless that would push a correction beyond the bounds
      further out, and the correction is the sum of both, cut off at the bounds. */
  ghost predicate Controls(s: Settings, l: Loop, next: Loop, error: real, dt: real) {
    var below, above := (l.centre as int - l.min as int) as real, (l.max as int - l.centre as int) as real;
    var proportional, increment := s.proportionalGain * error, s.integralGain * error * dt;
    var wanted := proportional + (l.integral + increment);
    var sum := proportional + next.integral;
    && (next.saturated <==> wanted > above || wanted < -below)
    && next.integral == (if (wanted > above && increment > 0.0) || (wanted < -below && increment < 0.0)
                         then l.integral else l.integral + increment)
    && (-below <= sum <= above ==> next.correction == sum)
    && (sum > above ==> next.correction == above)
    && (sum < -below ==> next.correction == -below)
  }

  /** A sample judged after warm-up that does not end the attempt: without enough signal it
      shows nothing and leaves the command alone, and otherwise it shows the error and
      controls it. */
  lemma JudgedSampleMeans(s: Settings, l: Loop, o: Option<Observation>, increment: U32, dt: real)
    requires s.Valid() && l.Bounded() && dt > 0.0 && (l.state == Acquiring || l.state == Locked)
    requires WarmedUp(s, l.timers.warmup + dt)
    ensures
      var next := Updated(s, l, o, increment, dt);
      next.state != Fixed ==>
        && (next.view.valid <==> EnoughSignal(s, o))
        && (if EnoughSignal(s, o) then
              && next.view.measured.Some? && next.view.error.Some?
              && ShowsTheError(s, next, o.value.phase, increment, dt)
              && Controls(s, l, next, next.view.error.value, dt)
            else
              && next.view == View(None, None, false) && !next.saturated
              && next.commanded == l.commanded && next.integral == l.integral && next.correction == l.correction)
  {
    hide Measured, Acquisition, LockHeld, ShowsTheError, WarmedUp, Controls, Settings.Warmup;
    JudgedInTheseTerms(s, l, l.timers.warmup + dt);
    var judged := Judged(Started(l, dt), dt);
    var m := Measured(s, judged, o, increment, dt);
    MeasurementMeans(s, judged, o, increment, dt);
    JudgementKeeps(s, m, dt);
    var next := Updated(s, l, o, increment, dt);
    if o.Some? && EnoughSignal(s, o) && next.state != Fixed {
      SameControls(s, judged, m, l, next, m.view.error.value, dt);
      SameError(s, m, next, o.value.phase, increment, dt);
    }
  }

  lemma SameControls(s: Settings, l: Loop, next: Loop, l': Loop, next': Loop, error: real, dt: real)
    requires Controls(s, l, next, error, dt)
    requires l'.centre == l.centre && l'.min == l.min && l'.max == l.max && l'.integral == l.integral
    requires next'.integral == next.integral && next'.correction == next.correction && next'.saturated == next.saturated
    ensures Controls(s, l', next', error, dt)
  {}

  lemma SameError(s: Settings, l: Loop, l': Loop, phase: real, increment: U32, dt: real)
    requires dt > 0.0 && l.view.measured.Some? && l.view.error.Some? && l'.view == l.view
    requires ShowsTheError(s, l, phase, increment, dt)
    ensures ShowsTheError(s, l', phase, increment, dt)
  {}

  /** Judging keeps what was measured unless it ends the attempt. */
  lemma JudgementKeeps(s: Settings, m: Loop, dt: real)
    ensures
      var a := Acquisition(s, m, dt);
      a.state == Fixed || a == m.(state := a.state, timers := a.timers, spread := a.spread)
    ensures LockHeld(s, m, dt) == m.(state := LockHeld(s, m, dt).state, timers := LockHeld(s, m, dt).timers)
  {
    hide WithinLock, OutsideLock;
  }

  lemma MeasurementMeans(s: Settings, l: Loop, o: Option<Observation>, increment: U32, dt: real)
    requires s.Valid() && l.Bounded() && dt > 0.0
    ensures
      var m := Measured(s, l, o, increment, dt);
      && (m.view.valid <==> EnoughSignal(s, o))
      && (if EnoughSignal(s, o) then
            && m.view.measured.Some? && m.view.error.Some?
            && ShowsTheError(s, m, o.value.phase, increment, dt) && Controls(s, l, m, m.view.error.value, dt)
          else
            m == l.(view := View(None, None, false), saturated := false))
  {
    hide Proportional, IntegralIncrement, NextIntegral, WrapDegreesFull, WrapDegrees, AddSignedCorrection, DelayPhase;
    hide ShowsTheError, Controls, Corrected;
    if EnoughSignal(s, o) {
      var phase := WrapDegreesFull(o.value.phase + DelayPhase(s, increment, dt));
      var error := WrapDegrees(phase - s.targetPhase);
      var shown := l.(view := View(Some(phase), Some(error), true));
      CorrectionControls(s, shown, error, dt);
      var m := Corrected(s, shown, error, dt);
      SameControls(s, shown, m, l, m, error, dt);
      ErrorIsShown(s, m, o.value.phase, increment, dt);
    }
  }

  lemma ErrorIsShown(s: Settings, l: Loop, phase: real, increment: U32, dt: real)
    requires dt > 0.0 && s.Valid() && l.view.measured.Some? && l.view.error.Some?
    requires l.view.measured.value == WrapDegreesFull(phase + DelayPhase(s, increment, dt))
    requires l.view.error.value == WrapDegrees(l.view.measured.value - s.targetPhase)
    ensures ShowsTheError(s, l, phase, increment, dt)
  {
    hide ShowsAngle, DelayPhase, WrapDegreesFull, WrapDegrees;
    var delayed := DelayInQuanta(s, increment, dt);
    AngleIsShown(s, l, phase + delayed);
  }

  lemma DelayInQuanta(s: Settings, increment: U32, dt: real) returns (delayed: real)
    requires dt > 0.0
    ensures delayed == 360.0 * (increment as real / 4294967296.0 / dt) * s.delay == DelayPhase(s, increment, dt)
  {
    delayed := DelayPhase(s, increment, dt);
  }

  lemma AngleIsShown(s: Settings, l: Loop, advanced: real)
    requires s.Valid() && l.view.measured.Some? && l.view.error.Some?
    requires l.view.measured.value == WrapDegreesFull(advanced)
    requires l.view.error.value == WrapDegrees(l.view.measured.value - s.targetPhase)
    ensures ShowsAngle(s, l, advanced)
  {
    hide WrapDegreesFull;
    if Abs(advanced) <= DIRECT_LIMIT { DirectPathIsCongruent(advanced); }
    if Abs(advanced) <= F32_MAX { ReducedRange(advanced); }
    FoldIsCongruent(l.view.measured.value - s.targetPhase);
    hide Congruent;
  }

  lemma FoldIsCongruent(degrees: real)
    ensures Congruent(WrapDegrees(degrees), degrees)
  {
    var wrapped := WrapDegrees(degrees);
    assert TurnsApart(wrapped, degrees, if wrapped < degrees then 1 else if wrapped > degrees then -1 else 0);
  }

  lemma CorrectionControls(s: Settings, l: Loop, error: real, dt: real)
    requires l.Bounded()
    ensures
      var next := Corrected(s, l, error, dt);
      Controls(s, l, next, error, dt) && next == l.(integral := next.integral, correction := next.correction,
                                                    commanded := next.commanded, saturated := next.saturated)
  {
    hide AddSignedCorrection;
    var proportional, increment := Proportional(s, error), IntegralIncrement(s, error, dt);
    assert proportional == s.proportionalGain * error && increment == s.integralGain * error * dt;
    hide Proportional, IntegralIncrement;
  }

  // ---------------------------------------------------------------------------
  // Anti-windup
  // ---------------------------------------------------------------------------

  /** The correction window widened by the largest proportional term. */
  ghost predicate IntegralContained(s: Settings, l: Loop) {
    var slack := 180.0 * Abs(s.proportionalGain);
    l.Lowest() - slack <= l.integral <= l.Highest() + slack
  }

  /** The measured phase an f32 can express; the reduction is total on it. */
  ghost predicate Representable(s: Settings, observation: Option<Observation>, increment: U32, dt: real) {
    dt > 0.0 && observation.Some? ==>
      Abs(observation.value.phase + DelayPhase(s, increment, dt)) <= F32_MAX
  }

  lemma IntegralStaysContained(l: Loop, proportional: real, increment: real, slack: real)
    requires l.Bounded() && Abs(proportional) <= slack
    requires l.Lowest() - slack <= l.integral <= l.Highest() + slack
    ensures l.Lowest() - slack <= NextIntegral(l, proportional, increment) <= l.Highest() + slack
  {}

  lemma ProportionalIsBounded(s: Settings, error: real)
    requires Abs(error) <= 180.0
    ensures Abs(Proportional(s, error)) <= 180.0 * Abs(s.proportionalGain)
  {
    var gain, size := Abs(s.proportionalGain), Abs(error);
    NonNegativeProduct(gain, 180.0 - size);
    assert gain * (180.0 - size) == 180.0 * gain - gain * size;
    assert Abs(Proportional(s, error)) == gain * size;
  }

  lemma MeasuredStaysContained(s: Settings, l: Loop, observation: Option<Observation>, increment: U32, dt: real)
    requires s.Valid() && l.Bounded() && dt > 0.0
    requires Representable(s, observation, increment, dt) && IntegralContained(s, l)
    ensures IntegralContained(s, Measured(s, l, observation, increment, dt))
  {
    hide Proportional, IntegralIncrement, DelayPhase, WrapDegreesFull, WrapDegrees, AddSignedCorrection, NextIntegral;
    if Qualified(s, observation) {
      var phase := observation.value.phase + DelayPhase(s, increment, dt);
      var error := ErrorInRange(s, phase);
      ProportionalIsBounded(s, error);
      IntegralStaysContained(
        l.(view := View(Some(WrapDegreesFull(phase)), Some(error), true)), Proportional(s, error), IntegralIncrement(s, error, dt), 180.0 * Abs(s.proportionalGain));
    }
  }

  lemma ErrorInRange(s: Settings, phase: real) returns (error: real)
    requires s.Valid() && Abs(phase) <= F32_MAX
    ensures error == WrapDegrees(WrapDegreesFull(phase) - s.targetPhase) && Abs(error) <= 180.0
  {
    hide WrapDegreesFull;
    ReducedRange(phase);
    error := WrapDegrees(WrapDegreesFull(phase) - s.targetPhase);
  }

  /** Gains, centre and bounds held fixed: the calls that only drive the loop. */
  predicate Drives(call: Call) {
    call.Update? || call.SetEnabled? || call.Reacquire? || call.Reset? || call.SetTarget?
  }

  lemma DriveStaysContained(s: Settings, l: Loop, call: Call)
    requires s.Valid() && l.Bounded() && Drives(call) && IntegralContained(s, l)
    requires call.Update? ==> Representable(s, call.observation, call.increment, call.dt)
    ensures IntegralContained(Called(s, l, call).0, Called(s, l, call).1)
  {
    hide Measured, Acquisition, LockHeld, Representable;
    match call
    case Update(observation, increment, dt) =>
      if dt > 0.0 && l.state != Fixed && l.state != LockLost {
        var judged := Judged(Started(l, dt), dt);
        MeasuredFrame(s, judged, observation, increment, dt);
        MeasuredStaysContained(s, judged, observation, increment, dt);
        JudgementFrame(s, Measured(s, judged, observation, increment, dt), dt);
      }
    case _ =>
  }

  /** Whatever the observations are and however long they last, the integrator never leaves
      the correction window widened by the largest proportional term. */
  lemma {:induction false} NoWindup(s: Settings, l: Loop, calls: seq<Call>)
    requires s.Valid() && l.Bounded() && IntegralContained(s, l)
    requires forall call :: call in calls ==> Drives(call)
    requires forall i {:trigger calls[i]} :: 0 <= i < |calls| && calls[i].Update? ==>
      Representable(After(s, l, calls[..i]).0, calls[i].observation, calls[i].increment, calls[i].dt)
    ensures IntegralContained(After(s, l, calls).0, After(s, l, calls).1)
  {
    if calls != [] {
      var n := |calls| - 1;
      var before := calls[..n];
      forall i | 0 <= i < n && before[i].Update?
        ensures Representable(After(s, l, before[..i]).0, before[i].observation, before[i].increment, before[i].dt)
      {
        assert before[..i] == calls[..i];
        assert calls[i].Update?;
      }
      NoWindup(s, l, before);
      var (t, m) := After(s, l, before);
      DriveStaysContained(t, m, calls[n]);
    }
  }

  // ---------------------------------------------------------------------------
  // Lock qualification over whole runs
  // ---------------------------------------------------------------------------

  datatype Sample = Sample(observation: Option<Observation>, increment: U32, dt: real)

  /** Acquisition always begins with every timer at zero. */
  predicate Fresh(l: Loop) { l.state == Acquiring && l.timers == ZERO_TIMERS }

  lemma AcquisitionBeginsFresh(s: Settings, l: Loop, call: Call)
    requires s.Valid() && l.Bounded() && l.state != Acquiring
    ensures Called(s, l, call).1.state == Acquiring ==> Fresh(Called(s, l, call).1)
  {
    hide Measured, LockHeld;
    match call
    case Update(observation, increment, dt) =>
      if dt > 0.0 && l.state == Locked {
        var judged := Judged(Started(l, dt), dt);
        MeasuredFrame(s, judged, observation, increment, dt);
        JudgementFrame(s, Measured(s, judged, observation, increment, dt), dt);
      }
    case _ =>
  }

  /** The states visited from the start of an acquisition, settings held fixed: `run[m]` is
      the loop after `m` samples. */
  ghost predicate IsRun(s: Settings, run: seq<Loop>, samples: seq<Sample>) {
    && |run| == |samples| + 1
    && run[0].Bounded() && Fresh(run[0])
    && (forall i :: 0 <= i < |samples| ==> samples[i].dt > 0.0)
    && (forall i :: 0 <= i < |samples| ==>
          && run[i].Bounded()
          && run[i + 1] == Updated(s, run[i], samples[i].observation, samples[i].increment, samples[i].dt))
  }

  /** Time covered by the samples from `first` up to, not including, `end`. */
  function Duration(samples: seq<Sample>, first: nat, end: nat): real
    requires first <= end <= |samples|
    decreases end
  {
    if first == end then 0.0 else Duration(samples, first, end - 1) + samples[end - 1].dt
  }

  /** What one sample does while acquiring or locked, the measurement folded away. */
  predicate Stepped(s: Settings, l: Loop, next: Loop, dt: real) {
    var warm := l.timers.warmup + dt >= s.Warmup();
    && (next.state != Fixed ==> next.timers.warmup == l.timers.warmup + dt)
    && (!warm ==>
          && next.state == l.state && next.spread == l.spread
          && next.timers == l.timers.(warmup := l.timers.warmup + dt))
    && (l.state == Acquiring ==>
          && next.state != LockLost
          && (next.state == Fixed ==> !next.view.valid)
          && (next.state == Fixed <==>
                warm && next.state != Locked && l.timers.acquire + dt >= s.acquireTimeout)
          && (next.state != Fixed ==> next.timers.acquire == if warm then l.timers.acquire + dt else l.timers.acquire)
          && (warm && next.state != Fixed ==>
                if Steady(s, l, next) then SteadySample(s, l, next, dt)
                else next.timers.lock == 0.0 && next.state == Acquiring))
    && (l.state == Locked ==>
          && (next.state == Locked || next.state == LockLost)
          && (warm ==> HeldSample(s, l, next, dt)))
  }

  /** Within the lock tolerance, and the spread still within the frequency tolerance. */
  predicate Steady(s: Settings, l: Loop, next: Loop) {
    var wide := Widened(l.(correction := next.correction));
    WithinLock(s, next) && wide.high - wide.low <= s.frequencyTolerance
  }

  predicate SteadySample(s: Settings, l: Loop, next: Loop, dt: real) {
    && next.timers.lock == l.timers.lock + dt
    && next.spread == Widened(l.(correction := next.correction))
    && (next.state == Locked <==> next.timers.lock >= s.lockDwell)
    && (next.state == Locked ==> next.timers.unlock == 0.0 && next.timers.saturation == 0.0)
  }

  predicate HeldSample(s: Settings, l: Loop, next: Loop, dt: real) {
    && next.timers.unlock == (if OutsideLock(s, next) then l.timers.unlock + dt else 0.0)
    && next.timers.saturation == (if next.saturated then l.timers.saturation + dt else 0.0)
    && (next.state == LockLost <==>
          || (OutsideLock(s, next) && next.timers.unlock >= s.unlockDwell)
          || (next.saturated && next.timers.saturation >= s.saturationDwell))
  }

  predicate Consecutive(s: Settings, l: Loop, next: Loop, dt: real) {
    if l.state == Acquiring || l.state == Locked then Stepped(s, l, next, dt) else next == l
  }

  lemma SampleFacts(s: Settings, l: Loop, sample: Sample)
    requires l.Bounded() && sample.dt > 0.0
    ensures Consecutive(s, l, Updated(s, l, sample.observation, sample.increment, sample.dt), sample.dt)
  {
    hide Measured;
    if l.state == Acquiring || l.state == Locked {
      MeasuredFrame(
        s, Judged(Started(l, sample.dt), sample.dt), sample.observation, sample.increment, sample.dt);
    }
  }

  /** A run seen through its consecutive samples only. */
  ghost predicate IsTrace(s: Settings, run: seq<Loop>, samples: seq<Sample>) {
    && |run| == |samples| + 1
    && Fresh(run[0])
    && (forall i :: 0 <= i < |samples| ==> samples[i].dt > 0.0)
    && (forall i :: 0 <= i < |samples| ==> Consecutive(s, run[i], run[i + 1], samples[i].dt))
  }

  lemma RunIsTrace(s: Settings, run: seq<Loop>, samples: seq<Sample>)
    requires IsRun(s, run, samples)
    ensures IsTrace(s, run, samples)
  {
    forall i | 0 <= i < |samples| ensures Consecutive(s, run[i], run[i + 1], samples[i].dt) {
      SampleFacts(s, run[i], samples[i]);
    }
  }

  lemma {:induction false} DurationIsPositive(samples: seq<Sample>, first: nat, end: nat)
    requires first <= end <= |samples|
    requires forall i :: 0 <= i < |samples| ==> samples[i].dt > 0.0
    ensures first < end ==> Duration(samples, first, end) > 0.0
    decreases end
  {
    if first < end {
      DurationIsPositive(samples, first, end - 1);
    }
  }

  /** Five of each time constant have passed. */
  ghost predicate WarmedUp(s: Settings, elapsed: real) {
    elapsed >= 5.0 * s.dcTimeConstant && elapsed >= 5.0 * s.demodTimeConstant
  }

  /** A judged sample whose error is in the lock tolerance. */
  ghost predicate GoodSample(s: Settings, l: Loop) {
    l.view.valid && l.view.error.Some? && -s.lockTolerance <= l.view.error.value <= s.lockTolerance
  }

  /** A sample that was not usable, or whose error is beyond the unlock tolerance. */
  ghost predicate BadSample(s: Settings, l: Loop) {
    || !l.view.valid || l.view.error.None?
    || l.view.error.value > s.unlockTolerance || l.view.error.value < -s.unlockTolerance
  }

  lemma JudgedInTheseTerms(s: Settings, l: Loop, elapsed: real)
    ensures WithinLock(s, l) <==> GoodSample(s, l)
    ensures OutsideLock(s, l) <==> BadSample(s, l)
    ensures elapsed >= s.Warmup() <==> WarmedUp(s, elapsed)
  {}

  /** No two corrections of the block differ by more than the frequency tolerance. */
  ghost predicate SpreadWithin(s: Settings, run: seq<Loop>, first: nat, end: nat)
    requires first <= end < |run|
  {
    forall m, k :: first < m <= end && first < k <= end ==>
      run[m].correction - run[k].correction <= s.frequencyTolerance
  }

  /** Sample `n` counts towards lock together with those behind `first`: `run[n]` is the
      state after it. */
  ghost predicate Counts(s: Settings, run: seq<Loop>, samples: seq<Sample>, first: nat, n: nat)
    requires first <= n <= |samples| < |run|
  {
    WarmedUp(s, Duration(samples, 0, n)) && GoodSample(s, run[n]) && SpreadWithin(s, run, first, n)
  }

  /** Where the dwell counted after `n` samples began. A sample that does not count with those
      counted so far restarts the dwell behind itself. */
  ghost function DwellStart(s: Settings, run: seq<Loop>, samples: seq<Sample>, n: nat): (first: nat)
    requires n <= |samples| < |run|
    ensures first <= n
  {
    if n == 0 then 0
    else
      var first := DwellStart(s, run, samples, n - 1);
      if Counts(s, run, samples, first, n) then first else n
  }

  /** A spread that covers exactly the corrections of the block. */
  ghost predicate Tight(run: seq<Loop>, first: nat, end: nat, spread: Spread)
    requires first < end < |run|
  {
    && (forall m :: first < m <= end ==> spread.low <= run[m].correction <= spread.high)
    && (exists m :: first < m <= end && run[m].correction == spread.low)
    && (exists m :: first < m <= end && run[m].correction == spread.high)
  }

  lemma TightFits(s: Settings, run: seq<Loop>, first: nat, end: nat, spread: Spread)
    requires first < end < |run| && Tight(run, first, end, spread)
    ensures spread.high - spread.low <= s.frequencyTolerance <==> SpreadWithin(s, run, first, end)
  {}

  lemma WidenedIsTight(run: seq<Loop>, first: nat, n: nat)
    requires first <= n < |run| - 1
    requires if first < n then run[n].timers.lock != 0.0 && Tight(run, first, n, run[n].spread)
             else run[n].timers.lock == 0.0
    ensures Tight(run, first, n + 1, Widened(run[n].(correction := run[n + 1].correction)))
  {
    if first < n {
      var low :| first < low <= n && run[low].correction == run[n].spread.low;
      var high :| first < high <= n && run[high].correction == run[n].spread.high;
    }
  }

  /** The loop's own timers and spread are those of the counted dwell. */
  ghost predicate Counting(s: Settings, run: seq<Loop>, samples: seq<Sample>, n: nat)
    requires n <= |samples| < |run|
  {
    var first := DwellStart(s, run, samples, n);
    && run[n].timers.warmup == Duration(samples, 0, n)
    && run[n].timers.lock == Duration(samples, first, n)
    && (first < n ==> run[n].timers.lock != 0.0 && Tight(run, first, n, run[n].spread))
  }

  /** The loop judges a sample steady exactly when it counts. */
  lemma SteadyMeansCounts(s: Settings, run: seq<Loop>, samples: seq<Sample>, n: nat)
    requires n < |samples| < |run| && Counting(s, run, samples, n)
    requires Duration(samples, 0, n + 1) >= s.Warmup()
    ensures Steady(s, run[n], run[n + 1]) <==> Counts(s, run, samples, DwellStart(s, run, samples, n), n + 1)
    ensures
      Tight(run, DwellStart(s, run, samples, n), n + 1, Widened(run[n].(correction := run[n + 1].correction)))
  {
    JudgedInTheseTerms(s, run[n + 1], Duration(samples, 0, n + 1));
    hide WithinLock, GoodSample, WarmedUp, Widened, Tight, SpreadWithin, DwellStart;
    var first := DwellStart(s, run, samples, n);
    WidenedIsTight(run, first, n);
    TightFits(s, run, first, n + 1, Widened(run[n].(correction := run[n + 1].correction)));
  }

  /** One more sample: it is counted, and lock is entered if the dwell is long enough, or the
      count restarts. */
  lemma CountStep(s: Settings, run: seq<Loop>, samples: seq<Sample>, n: nat)
    requires IsTrace(s, run, samples) && n < |samples|
    requires run[n].state == Acquiring && Counting(s, run, samples, n)
    ensures run[n + 1].state == Acquiring || run[n + 1].state == Locked ==> Counting(s, run, samples, n + 1)
    ensures
      var first := DwellStart(s, run, samples, n + 1);
      run[n + 1].state == Locked <==> first <= n && Duration(samples, first, n + 1) >= s.lockDwell
  {
    var now, after, dt := run[n], run[n + 1], samples[n].dt;
    assert Consecutive(s, now, after, dt) && Stepped(s, now, after, dt);
    JudgedInTheseTerms(s, after, Duration(samples, 0, n + 1));
    var first := DwellStart(s, run, samples, n);
    DurationIsPositive(samples, first, n + 1);
    if Duration(samples, 0, n + 1) >= s.Warmup() { SteadyMeansCounts(s, run, samples, n); }
    hide Tight, Widened, SpreadWithin, IsTrace;
  }

  lemma BackwardAcquiring(s: Settings, l: Loop, next: Loop, dt: real)
    requires Consecutive(s, l, next, dt) && next.state == Acquiring
    ensures l.state == Acquiring
  {}

  lemma {:induction false} CountingAlways(s: Settings, run: seq<Loop>, samples: seq<Sample>, n: nat)
    requires IsTrace(s, run, samples) && n <= |samples| && run[n].state == Acquiring
    ensures Counting(s, run, samples, n)
    ensures forall m :: 0 <= m <= n ==> run[m].state == Acquiring
  {
    if n > 0 {
      assert Consecutive(s, run[n - 1], run[n], samples[n - 1].dt);
      BackwardAcquiring(s, run[n - 1], run[n], samples[n - 1].dt);
      hide Consecutive, Counting;
      CountingAlways(s, run, samples, n - 1);
      CountStep(s, run, samples, n - 1);
    }
  }

  /** A block of consecutive samples that deserves a lock: all after warm-up, all within the
      lock tolerance, long enough, and steady in correction. */
  ghost predicate QualifyingBlock(s: Settings, run: seq<Loop>, samples: seq<Sample>, first: nat, end: nat)
    requires first <= end <= |samples| < |run|
  {
    && Duration(samples, first, end) >= s.lockDwell
    && (forall m :: first <= m < end ==> run[m].state == Acquiring)
    && (forall m :: first < m <= end ==> WarmedUp(s, Duration(samples, 0, m)) && GoodSample(s, run[m]))
    && SpreadWithin(s, run, first, end)
  }

  lemma {:induction false} CountedAreGood(s: Settings, run: seq<Loop>, samples: seq<Sample>, n: nat)
    requires n <= |samples| < |run|
    ensures
      var first := DwellStart(s, run, samples, n);
      && (forall m :: first < m <= n ==> WarmedUp(s, Duration(samples, 0, m)) && GoodSample(s, run[m]))
      && SpreadWithin(s, run, first, n)
  {
    hide GoodSample, WarmedUp;
    if n > 0 { CountedAreGood(s, run, samples, n - 1); }
  }

  /** Lock is entered at exactly the sample whose counted dwell qualifies: never before, and
      not a sample later. */
  lemma LockIsExact(s: Settings, run: seq<Loop>, samples: seq<Sample>, n: nat)
    requires IsRun(s, run, samples) && n < |samples| && run[n].state == Acquiring
    ensures
      var first := DwellStart(s, run, samples, n + 1);
      run[n + 1].state == Locked <==> first <= n && QualifyingBlock(s, run, samples, first, n + 1)
  {
    RunIsTrace(s, run, samples);
    hide Updated, Consecutive, GoodSample, WarmedUp, DwellStart, SpreadWithin, Counting, IsTrace;
    CountingAlways(s, run, samples, n);
    CountStep(s, run, samples, n);
    CountedAreGood(s, run, samples, n + 1);
  }

  ghost predicate EndsQualifyingBlock(s: Settings, run: seq<Loop>, samples: seq<Sample>, end: nat)
    requires end <= |samples| < |run|
  {
    exists first :: 0 <= first < end && QualifyingBlock(s, run, samples, first, end)
  }

  /** From the start of an acquisition, lock is entered only at the end of a qualifying block. */
  lemma LockIsEarned(s: Settings, run: seq<Loop>, samples: seq<Sample>, n: nat)
    requires IsRun(s, run, samples) && n < |samples|
    requires run[n].state == Acquiring && run[n + 1].state == Locked
    ensures EndsQualifyingBlock(s, run, samples, n + 1)
  {
    hide IsRun, QualifyingBlock, DwellStart;
    LockIsExact(s, run, samples, n);
  }

  lemma CountedDuration(s: Settings, run: seq<Loop>, samples: seq<Sample>, n: nat)
    requires n <= |samples| < |run| && Counting(s, run, samples, n)
    ensures run[n].timers.lock == Duration(samples, DwellStart(s, run, samples, n), n)
  {}

  /** A loop still acquiring has counted for less than the dwell since its last restart. */
  lemma LockIsPrompt(s: Settings, run: seq<Loop>, samples: seq<Sample>, n: nat)
    requires IsRun(s, run, samples) && n <= |samples| && run[n].state == Acquiring
    ensures
      var first := DwellStart(s, run, samples, n);
      run[n].timers.lock == Duration(samples, first, n) && (first < n ==> Duration(samples, first, n) < s.lockDwell)
  {
    hide *;
    RunIsTrace(s, run, samples);
    TracePrompt(s, run, samples, n);
  }

  lemma TracePrompt(s: Settings, run: seq<Loop>, samples: seq<Sample>, n: nat)
    requires IsTrace(s, run, samples) && n <= |samples| && run[n].state == Acquiring
    ensures
      var first := DwellStart(s, run, samples, n);
      run[n].timers.lock == Duration(samples, first, n) && (first < n ==> Duration(samples, first, n) < s.lockDwell)
  {
    hide Consecutive, Duration, DwellStart, Tight;
    CountingAlways(s, run, samples, n);
    CountedDuration(s, run, samples, n);
    if n > 0 {
      hide Counting;
      CountingAlways(s, run, samples, n - 1);
      CountStep(s, run, samples, n - 1);
    }
  }

  /** Time spent judging samples: all of it after warm-up. */
  ghost function JudgedTime(s: Settings, samples: seq<Sample>, n: nat): real
    requires n <= |samples|
  {
    if n == 0 then 0.0
    else JudgedTime(s, samples, n - 1) + if WarmedUp(s, Duration(samples, 0, n)) then samples[n - 1].dt else 0.0
  }

  lemma {:induction false} JudgingIsTimed(s: Settings, run: seq<Loop>, samples: seq<Sample>, n: nat)
    requires IsTrace(s, run, samples) && n <= |samples| && run[n].state == Acquiring
    ensures run[n].timers.acquire == JudgedTime(s, samples, n) && run[n].timers.warmup == Duration(samples, 0, n)
  {
    if n > 0 {
      assert Consecutive(s, run[n - 1], run[n], samples[n - 1].dt);
      BackwardAcquiring(s, run[n - 1], run[n], samples[n - 1].dt);
      JudgingIsTimed(s, run, samples, n - 1);
      JudgedInTheseTerms(s, run[n], Duration(samples, 0, n));
      hide IsTrace, WarmedUp, Settings.Warmup, Steady, SteadySample;
    }
  }

  /** An attempt is given up at exactly the sample that does not lock once the time spent
      judging has reached the timeout; the loop is then back at its centre, cleared. */
  lemma TimeoutIsExact(s: Settings, run: seq<Loop>, samples: seq<Sample>, n: nat)
    requires IsRun(s, run, samples) && n < |samples| && run[n].state == Acquiring
    ensures run[n + 1].state == Fixed <==>
      && run[n + 1].state != Locked && WarmedUp(s, Duration(samples, 0, n + 1))
      && JudgedTime(s, samples, n + 1) >= s.acquireTimeout
    ensures run[n + 1].state == Fixed ==>
      && run[n + 1].commanded == run[n + 1].centre == run[n].centre
      && run[n + 1].integral == 0.0 == run[n + 1].correction && !run[n + 1].saturated
  {
    RunIsTrace(s, run, samples);
    assert Consecutive(s, run[n], run[n + 1], samples[n].dt);
    JudgingIsTimed(s, run, samples, n);
    JudgedInTheseTerms(s, run[n + 1], Duration(samples, 0, n + 1));
    GivingUpResets(s, run[n], samples[n]);
    hide IsRun, IsTrace, WarmedUp, Settings.Warmup, Updated, Steady, SteadySample;
  }

  lemma GivingUpResets(s: Settings, l: Loop, sample: Sample)
    requires l.Bounded() && l.state == Acquiring && sample.dt > 0.0
    ensures
      var next := Updated(s, l, sample.observation, sample.increment, sample.dt);
      next.state == Fixed ==>
        && next.commanded == next.centre == l.centre
        && next.integral == 0.0 == next.correction && !next.saturated
  {
    hide Measured;
    MeasuredFrame(s, Judged(Started(l, sample.dt), sample.dt), sample.observation, sample.increment, sample.dt);
  }

  // ---------------------------------------------------------------------------
  // A qualifying block alone is not enough
  // ---------------------------------------------------------------------------

  /** Corrections follow the phase error; three seconds within one quantum make a lock. */
  const WITHHELD := Settings(1.0, 0.0, 0.0, 0.0, 0.2, 0.0, 0.0, 0.0, 2.0, 2.0, 1.0, 3.0, 1.0, 100.0, 1.0)

  const BEGINNING :=
    Loop(Acquiring, 100, 0, 200, 100, 0.0, 0.0, false, View(None, None, false), ZERO_TIMERS, Spread(0.0, 0.0))

  function WithError(error: real): Sample { Sample(Some(Observation(error, 0.0, 0.0)), 0, 1.0) }

  const WITHHELD_SAMPLES: seq<Sample> :=
    [WithError(0.0), WithError(1.0), WithError(2.0), WithError(2.0), WithError(2.0)]

  lemma SmallAnglesStay(degrees: real)
    requires 0.0 <= degrees <= 2.0
    ensures WrapDegreesFull(degrees) == degrees && WrapDegrees(degrees) == degrees
  {
    assert ToI32(degrees / 360.0) == 0;
  }

  /** An acquiring loop in the middle of its bounds that has seen no integral term. */
  ghost predicate Follows(l: Loop) {
    l.state == Acquiring && l.centre == 100 && l.min == 0 && l.max == 200 && l.integral == 0.0
  }

  lemma WithheldSample(l: Loop, error: real)
    requires l.Bounded() && Follows(l) && 0.0 <= error <= 2.0
    requires l.timers.warmup >= 0.0 && l.timers.acquire < 90.0
    ensures
      var next := Updated(WITHHELD, l, Some(Observation(error, 0.0, 0.0)), 0, 1.0);
      var wide := Widened(l.(correction := error));
      var steady := wide.high - wide.low <= 1.0;
      && next.correction == error && WithinLock(WITHHELD, next)
      && next.timers.warmup == l.timers.warmup + 1.0 && next.timers.acquire == l.timers.acquire + 1.0
      && next.timers.lock == (if steady then l.timers.lock + 1.0 else 0.0)
      && next.spread == (if steady then wide else Spread(error, error))
      && (!steady || l.timers.lock + 1.0 < 3.0 ==> Follows(next))
  {
    SmallAnglesStay(error);
    assert DelayPhase(WITHHELD, 0, 1.0) == 0.0;
    var m := Judged(Started(l, 1.0), 1.0);
    WithheldCorrection(m.(view := View(Some(error), Some(error), true)), error);
    hide WrapDegreesFull, WrapDegrees, Corrected, DelayPhase;
  }

  lemma WithheldCorrection(l: Loop, error: real)
    requires l.Bounded() && Follows(l) && 0.0 <= error <= 2.0
    ensures
      var next := Corrected(WITHHELD, l, error, 1.0);
      next == l.(correction := error, commanded := next.commanded, saturated := false)
  {}

  /** What `n` of the five samples have made of the loop. */
  ghost predicate WithheldShows(l: Loop, n: nat, correction: real, lock: real, spread: Spread) {
    && l.Bounded() && Follows(l) && l.correction == correction && l.timers.lock == lock && l.spread == spread
    && l.timers.warmup == n as real && l.timers.acquire == n as real
    && (n > 0 ==> WithinLock(WITHHELD, l))
  }

  lemma WithheldStep(
    l: Loop, n: nat, error: real, correction: real, lock: real, spread: Spread, lock': real, spread': Spread)
    returns (next: Loop)
    requires n < 5 && 0.0 <= error <= 2.0
    requires WithheldShows(l, n, correction, lock, spread) && lock' < 3.0
    requires
      var wide := if lock == 0.0 then Spread(error, error)
                  else Spread(if error < spread.low then error else spread.low,
                              if error > spread.high then error else spread.high);
      var steady := wide.high - wide.low <= 1.0;
      lock' == (if steady then lock + 1.0 else 0.0) && spread' == if steady then wide else Spread(error, error)
    ensures l.Bounded() && next == Updated(WITHHELD, l, Some(Observation(error, 0.0, 0.0)), 0, 1.0)
    ensures WithheldShows(next, n + 1, error, lock', spread')
  {
    WithheldSample(l, error);
    hide WithinLock;
    next := Updated(WITHHELD, l, Some(Observation(error, 0.0, 0.0)), 0, 1.0);
    hide Updated;
    UpdateKeepsBounds(WITHHELD, l, Some(Observation(error, 0.0, 0.0)), 0, 1.0);
  }

  lemma WithheldWarmup()
    ensures WITHHELD.Warmup() == 1.0
  {}

  /** The last three of five states at one correction, each within tolerance. */
  lemma LastThreeQualify(s: Settings, run: seq<Loop>, samples: seq<Sample>)
    requires |run| == 6 && |samples| == 5 && s.Warmup() == 1.0 && s.lockDwell == 3.0 && s.frequencyTolerance >= 0.0
    requires forall m, n :: 0 <= m <= n <= 5 ==> Duration(samples, m, n) == (n - m) as real
    requires forall m :: 2 <= m <= 5 ==> run[m].state == Acquiring
    requires forall m :: 3 <= m <= 5 ==> WithinLock(s, run[m]) && run[m].correction == run[5].correction
    ensures QualifyingBlock(s, run, samples, 2, 5)
  {
    forall m | 3 <= m <= 5 ensures WarmedUp(s, Duration(samples, 0, m)) && GoodSample(s, run[m]) {
      JudgedInTheseTerms(s, run[m], Duration(samples, 0, m));
    }
    hide WithinLock, GoodSample, WarmedUp, Duration;
  }

  /** A sample that breaks the spread is not counted in the dwell that follows it. So after
      corrections 0, 1, 2, 2, 2 the loop is still acquiring, although the last three samples
      are steady, within tolerance and as long as the dwell. */
  lemma QualifyingBlockIsNotEnough() returns (run: seq<Loop>)
    ensures IsRun(WITHHELD, run, WITHHELD_SAMPLES)
    ensures run[5].state == Acquiring && QualifyingBlock(WITHHELD, run, WITHHELD_SAMPLES, 2, 5)
  {
    hide WithinLock, Duration, Updated, Settings.Warmup;
    assert WithheldShows(BEGINNING, 0, 0.0, 0.0, Spread(0.0, 0.0));
    var l1 := WithheldStep(BEGINNING, 0, 0.0, 0.0, 0.0, Spread(0.0, 0.0), 1.0, Spread(0.0, 0.0));
    var l2 := WithheldStep(l1, 1, 1.0, 0.0, 1.0, Spread(0.0, 0.0), 2.0, Spread(0.0, 1.0));
    var l3 := WithheldStep(l2, 2, 2.0, 1.0, 2.0, Spread(0.0, 1.0), 0.0, Spread(2.0, 2.0));
    var l4 := WithheldStep(l3, 3, 2.0, 2.0, 0.0, Spread(2.0, 2.0), 1.0, Spread(2.0, 2.0));
    var l5 := WithheldStep(l4, 4, 2.0, 2.0, 1.0, Spread(2.0, 2.0), 2.0, Spread(2.0, 2.0));
    run := [BEGINNING, l1, l2, l3, l4, l5];
    WithheldDurations();
    WithheldWarmup();
    LastThreeQualify(WITHHELD, run, WITHHELD_SAMPLES);
  }

  lemma WithheldDurations()
    ensures forall m, n :: 0 <= m <= n <= 5 ==> Duration(WITHHELD_SAMPLES, m, n) == (n - m) as real
  {}

  // ---------------------------------------------------------------------------
  // Exactly when lock is lost
  // ---------------------------------------------------------------------------

  /** Where the stretch of bad samples that reaches sample `n` began: behind the last good one,
      or where lock was entered. */
  ghost function BadStart(s: Settings, run: seq<Loop>, n: nat): (first: nat)
    requires n < |run|
    ensures first <= n
  {
    if n > 0 && run[n - 1].state == Locked && BadSample(s, run[n]) then BadStart(s, run, n - 1) else n
  }

  /** Where the stretch of saturated samples that reaches sample `n` began. */
  ghost function LimitStart(run: seq<Loop>, n: nat): (first: nat)
    requires n < |run|
    ensures first <= n
  {
    if n > 0 && run[n - 1].state == Locked && run[n].saturated then LimitStart(run, n - 1) else n
  }

  /** The loop's own timers measure the two stretches. */
  ghost predicate Holding(s: Settings, run: seq<Loop>, samples: seq<Sample>, n: nat)
    requires n <= |samples| < |run|
  {
    && run[n].timers.warmup >= s.Warmup()
    && run[n].timers.unlock == Duration(samples, BadStart(s, run, n), n)
    && run[n].timers.saturation == Duration(samples, LimitStart(run, n), n)
  }

  /** A stretch that reaches the sample it is judged at has lasted its dwell. */
  ghost predicate Lasted(samples: seq<Sample>, first: nat, end: nat, dwell: real)
    requires first <= end <= |samples|
  {
    first < end && Duration(samples, first, end) >= dwell
  }

  lemma HoldStep(s: Settings, run: seq<Loop>, samples: seq<Sample>, n: nat)
    requires IsTrace(s, run, samples) && n < |samples|
    requires run[n].state == Locked && Holding(s, run, samples, n)
    ensures Holding(s, run, samples, n + 1)
    ensures run[n + 1].state == LockLost <==>
      || Lasted(samples, BadStart(s, run, n + 1), n + 1, s.unlockDwell)
      || Lasted(samples, LimitStart(run, n + 1), n + 1, s.saturationDwell)
  {
    var after := run[n + 1];
    assert Consecutive(s, run[n], after, samples[n].dt);
    assert HeldSample(s, run[n], after, samples[n].dt) && after.timers.warmup >= s.Warmup();
    JudgedInTheseTerms(s, after, 0.0);
    hide Consecutive, OutsideLock, BadSample, IsTrace;
  }

  /** Entering lock starts both stretches afresh. */
  lemma HoldBegins(s: Settings, run: seq<Loop>, samples: seq<Sample>, n: nat)
    requires IsTrace(s, run, samples) && n < |samples|
    requires run[n].state == Acquiring && run[n + 1].state == Locked
    ensures Holding(s, run, samples, n + 1)
  {
    assert Consecutive(s, run[n], run[n + 1], samples[n].dt);
  }

  lemma BackwardLocked(s: Settings, l: Loop, next: Loop, dt: real)
    requires Consecutive(s, l, next, dt) && next.state == Locked
    ensures l.state == Locked || l.state == Acquiring
  {}

  lemma {:induction false} HoldingAlways(s: Settings, run: seq<Loop>, samples: seq<Sample>, n: nat)
    requires IsTrace(s, run, samples) && n <= |samples| && run[n].state == Locked
    ensures Holding(s, run, samples, n)
  {
    assert n > 0 && Consecutive(s, run[n - 1], run[n], samples[n - 1].dt);
    hide Stepped, Holding;
    BackwardLocked(s, run[n - 1], run[n], samples[n - 1].dt);
    hide Consecutive;
    if run[n - 1].state == Locked {
      HoldingAlways(s, run, samples, n - 1);
      HoldStep(s, run, samples, n - 1);
    } else {
      HoldBegins(s, run, samples, n - 1);
    }
  }

  /** A locked loop loses lock at exactly the sample at which an unbroken stretch of bad
      samples, or of saturated ones, has lasted its dwell; otherwise it stays locked. */
  lemma LossIsExact(s: Settings, run: seq<Loop>, samples: seq<Sample>, n: nat)
    requires IsRun(s, run, samples) && n < |samples| && run[n].state == Locked
    ensures run[n + 1].state == LockLost <==>
      || Lasted(samples, BadStart(s, run, n + 1), n + 1, s.unlockDwell)
      || Lasted(samples, LimitStart(run, n + 1), n + 1, s.saturationDwell)
    ensures run[n + 1].state == LockLost || run[n + 1].state == Locked
  {
    RunIsTrace(s, run, samples);
    assert Consecutive(s, run[n], run[n + 1], samples[n].dt);
    hide IsRun, IsTrace, Holding, Lasted, BadStart, LimitStart;
    HoldingAlways(s, run, samples, n);
    HoldStep(s, run, samples, n);
  }

  /** Consecutive samples of locked operation, every one bad. */
  ghost predicate BadBlock(s: Settings, run: seq<Loop>, first: nat, end: nat)
    requires first <= end < |run|
  {
    && (forall m :: first <= m < end ==> run[m].state == Locked)
    && (forall m :: first < m <= end ==> BadSample(s, run[m]))
  }

  /** Consecutive samples of locked operation, every one at the correction limit. */
  ghost predicate SaturatedBlock(run: seq<Loop>, first: nat, end: nat)
    requires first <= end < |run|
  {
    && (forall m :: first <= m < end ==> run[m].state == Locked)
    && (forall m :: first < m <= end ==> run[m].saturated)
  }

  lemma {:induction false} StretchesAreBlocks(s: Settings, run: seq<Loop>, n: nat)
    requires n < |run|
    ensures BadBlock(s, run, BadStart(s, run, n), n) && SaturatedBlock(run, LimitStart(run, n), n)
  {
    hide BadSample;
    if n > 0 { StretchesAreBlocks(s, run, n - 1); }
  }

  /** A block that deserves the loss of lock. */
  ghost predicate LossBlock(s: Settings, run: seq<Loop>, samples: seq<Sample>, first: nat, end: nat)
    requires first <= end <= |samples| < |run|
  {
    var duration := Duration(samples, first, end);
    || (BadBlock(s, run, first, end) && duration >= s.unlockDwell)
    || (SaturatedBlock(run, first, end) && duration >= s.saturationDwell)
  }

  ghost predicate EndsLossBlock(s: Settings, run: seq<Loop>, samples: seq<Sample>, end: nat)
    requires end <= |samples| < |run|
  {
    exists first :: 0 <= first < end && LossBlock(s, run, samples, first, end)
  }

  /** A lock is lost from locked operation only, and only after an unbroken block of bad
      samples, or of saturated ones, at least as long as its own dwell. */
  lemma LossIsEarned(s: Settings, run: seq<Loop>, samples: seq<Sample>, n: nat)
    requires IsRun(s, run, samples) && n < |samples|
    requires run[n].state != LockLost && run[n + 1].state == LockLost
    ensures run[n].state == Locked
    ensures EndsLossBlock(s, run, samples, n + 1)
  {
    RunIsTrace(s, run, samples);
    assert Consecutive(s, run[n], run[n + 1], samples[n].dt);
    LossFromLocked(s, run[n], run[n + 1], samples[n].dt);
    hide Consecutive, IsRun, IsTrace, BadBlock, SaturatedBlock;
    LossIsExact(s, run, samples, n);
    StretchesAreBlocks(s, run, n + 1);
    var bad, limited := BadStart(s, run, n + 1), LimitStart(run, n + 1);
    assert (bad <= n && LossBlock(s, run, samples, bad, n + 1))
           || (limited <= n && LossBlock(s, run, samples, limited, n + 1));
  }

  lemma LossFromLocked(s: Settings, l: Loop, next: Loop, dt: real)
    requires Consecutive(s, l, next, dt) && l.state != LockLost && next.state == LockLost
    ensures l.state == Locked
  {}
}
