/** Output safety: the state two cores share, one tick's decision, and what every
    interleaving of arming, disarming and ticking can drive. */
module Safety {
  datatype SafetyInputs = SafetyInputs(armed: bool, tripped: bool)

  /** Core 0 owns arming and disarming; core 1 may only latch a trip. */
  class SafetyState {
    var armed: bool
    var tripped: bool

    constructor ()
      ensures !armed && !tripped
    {
      armed, tripped := false, false;
    }

    method LoadInputs() returns (inputs: SafetyInputs)
      ensures inputs == SafetyInputs(armed, tripped)
    {
      inputs := SafetyInputs(armed, tripped);
    }

    method LatchTrip()
      modifies this`tripped
      ensures tripped
    {
      tripped := true;
    }

    method Arm()
      modifies this
      ensures armed && !tripped
    {
      tripped := false;
      armed := true;
    }

    method Disarm()
      modifies this`armed
      ensures !armed
    {
      armed := false;
    }
  }

  // ---------------------------------------------------------------------------
  // One tick's decision
  // ---------------------------------------------------------------------------

  /** An actuator command: a number, or something that is not one. */
  datatype Drive = Volts(v: real) | NotFinite

  datatype Rig = Rig(gated: bool, safe: nat -> Drive, clamp: (nat, Drive) -> Drive)

  datatype Outcome = Outcome(newlyTripped: bool, quieted: bool, clamped: bool)

  ghost predicate AllSafe(rig: Rig, applied: seq<Drive>) {
    forall a :: 0 <= a < |applied| ==> applied[a] == rig.safe(a)
  }

  ghost predicate AllClamped(rig: Rig, commanded: seq<Drive>, applied: seq<Drive>) {
    |applied| == |commanded| && forall a :: 0 <= a < |applied| ==> applied[a] == rig.clamp(a, commanded[a])
  }

  predicate AnyNotFinite(commanded: seq<Drive>) {
    exists a :: 0 <= a < |commanded| && commanded[a].NotFinite?
  }

  predicate Faulty(fault: bool, commanded: seq<Drive>) { fault || AnyNotFinite(commanded) }

  /** The output is driven only while the snapshot is armed and untripped, nothing is at
      fault and every command is a number; otherwise every actuator is safe. */
  predicate Drives(inputs: SafetyInputs, fault: bool, commanded: seq<Drive>) {
    inputs.armed && !inputs.tripped && !Faulty(fault, commanded)
  }

  /** What a gated output is given. */
  function Decided(rig: Rig, inputs: SafetyInputs, fault: bool, commanded: seq<Drive>): seq<Drive> {
    seq(|commanded|, a requires 0 <= a < |commanded| =>
      if Drives(inputs, fault, commanded) then rig.clamp(a, commanded[a]) else rig.safe(a))
  }

  /** Decide the complete applied vector without touching shared state. */
  method SafetyDecide(rig: Rig, inputs: SafetyInputs, fault: bool, commanded: seq<Drive>, applied: array<Drive>)
    returns (outcome: Outcome)
    requires applied.Length == |commanded|
    modifies applied
    ensures !rig.gated ==> applied[..] == commanded && outcome == Outcome(false, false, false)
    ensures rig.gated && !Drives(inputs, fault, commanded) ==>
      AllSafe(rig, applied[..]) && outcome == Outcome(Faulty(fault, commanded), true, false)
    ensures rig.gated && Drives(inputs, fault, commanded) ==>
      AllClamped(rig, commanded, applied[..]) && outcome == Outcome(false, false, applied[..] != commanded)
    ensures rig.gated ==> applied[..] == Decided(rig, inputs, fault, commanded)
  {
    if !rig.gated {
      forall a | 0 <= a < |commanded| {
        applied[a] := commanded[a];
      }
      return Outcome(false, false, false);
    }
    var newlyTripped := fault;
    for a := 0 to |commanded|
      invariant newlyTripped == (fault || exists j :: 0 <= j < a && commanded[j].NotFinite?)
    {
      newlyTripped := newlyTripped || commanded[a].NotFinite?;
    }
    if newlyTripped || inputs.tripped || !inputs.armed {
      for a := 0 to |commanded|
        invariant forall j :: 0 <= j < a ==> applied[j] == rig.safe(j)
      {
        applied[a] := rig.safe(a);
      }
      return Outcome(newlyTripped, true, false);
    }
    var clamped := false;
    for a := 0 to |commanded|
      invariant forall j :: 0 <= j < a ==> applied[j] == rig.clamp(j, commanded[j])
      invariant clamped <==> exists j :: 0 <= j < a && applied[j] != commanded[j]
    {
      applied[a] := rig.clamp(a, commanded[a]);
      clamped := clamped || applied[a] != commanded[a];
    }
    return Outcome(false, false, clamped);
  }

  // ---------------------------------------------------------------------------
  // Arming and disarming between a tick's own loads
  // ---------------------------------------------------------------------------

  /** One finished tick: what it read, what it was asked for, and what it drove. */
  datatype Tick = Tick(inputs: SafetyInputs, fault: bool, commanded: seq<Drive>, applied: seq<Drive>)

  datatype Pc = Between | HalfLoaded(armed: bool) | Loaded(inputs: SafetyInputs) | Latching(tick: Tick) | Actuating(tick: Tick)

  datatype System = System(armed: bool, tripped: bool, arming: bool, pc: Pc, ticks: seq<Tick>)

  const POWER_UP := System(false, false, false, Between, [])

  /** Core 0's single stores, and core 1's next single access. An `arm` is the two stores
      `ArmClear` and `ArmSet`, in that order. */
  datatype Event = Disarm | ArmClear | ArmSet | Core1(fault: bool, commanded: seq<Drive>)

  function Step(rig: Rig, s: System, event: Event): System {
    match event
    case Disarm => if s.arming then s else s.(armed := false)
    case ArmClear => if s.arming then s else s.(tripped := false, arming := true)
    case ArmSet => if s.arming then s.(armed := true, arming := false) else s
    case Core1(fault, commanded) =>
      match s.pc
      case Between => s.(pc := HalfLoaded(s.armed))
      case HalfLoaded(armed) => s.(pc := Loaded(SafetyInputs(armed, s.tripped)))
      case Loaded(inputs) =>
        var tick := Tick(inputs, fault, commanded, Decided(rig, inputs, fault, commanded));
        s.(pc := if Faulty(fault, commanded) then Latching(tick) else Actuating(tick))
      case Latching(tick) => s.(tripped := true, pc := Actuating(tick))
      case Actuating(tick) => s.(pc := Between, ticks := s.ticks + [tick])
  }

  function Run(rig: Rig, s: System, events: seq<Event>): System {
    if events == [] then s
    else Step(rig, Run(rig, s, events[..|events| - 1]), events[|events| - 1])
  }

  // ---------------------------------------------------------------------------
  // What a snapshot says about the shared state
  // ---------------------------------------------------------------------------

  predicate Core0Only(events: seq<Event>) { forall i :: 0 <= i < |events| ==> !events[i].Core1? }

  predicate Real(s: System) { s.armed && !s.tripped }

  predicate Clears(s: System, event: Event) { event.ArmClear? && !s.arming }

  predicate Sets(s: System, event: Event) { event.ArmSet? && s.arming }

  /** Some instant of the stretch that `events` make from `s`, both ends included, is armed
      and untripped. */
  ghost predicate EverReal(rig: Rig, s: System, events: seq<Event>) {
    exists k: nat :: k <= |events| && Real(Run(rig, s, events[..k]))
  }

  ghost predicate ArmedAcross(rig: Rig, s: System, events: seq<Event>, i: nat, j: nat) {
    && i < j < |events|
    && Clears(Run(rig, s, events[..i]), events[i])
    && Sets(Run(rig, s, events[..j]), events[j])
  }

  /** An `arm` both began and ended within the stretch. */
  ghost predicate ArmWithin(rig: Rig, s: System, events: seq<Event>) {
    exists i: nat, j: nat :: ArmedAcross(rig, s, events, i, j)
  }

  /** The snapshot pairs an old arm with a newer arm's clear: the trip was set when the arm was
      read, the output was disarmed when the trip was read, and no arm was completed between. */
  ghost predicate Torn(rig: Rig, s: System, events: seq<Event>) {
    s.tripped && !Run(rig, s, events).armed && !ArmWithin(rig, s, events)
  }

  lemma StartOfRun(rig: Rig, s: System, events: seq<Event>)
    ensures Run(rig, s, events[..0]) == s
  {}

  lemma NextState(rig: Rig, s: System, events: seq<Event>, i: nat)
    requires i < |events|
    ensures Run(rig, s, events[..i + 1]) == Step(rig, Run(rig, s, events[..i]), events[i])
  {
    assert events[..i + 1][..i] == events[..i];
  }

  lemma {:induction false} Core0KeepsPc(rig: Rig, s: System, events: seq<Event>)
    requires Core0Only(events)
    ensures Run(rig, s, events).pc == s.pc && Run(rig, s, events).ticks == s.ticks
  {
    if events != [] { Core0KeepsPc(rig, s, events[..|events| - 1]); }
  }

  /** Core 0 never sets the trip. */
  lemma {:induction false} StaysClear(rig: Rig, s: System, events: seq<Event>, i: nat, j: nat)
    requires Core0Only(events) && i <= j <= |events|
    requires !Run(rig, s, events[..i]).tripped
    ensures !Run(rig, s, events[..j]).tripped
    decreases j
  {
    hide Run, Decided, Faulty;
    if i < j {
      StaysClear(rig, s, events, i, j - 1);
      NextState(rig, s, events, j - 1);
      assert !events[j - 1].Core1?;
    }
  }

  /** Once begun, an `arm` is the only thing core 0 can go on with. */
  lemma {:induction false} StaysArming(rig: Rig, s: System, events: seq<Event>, i: nat, j: nat)
    requires Core0Only(events) && i < j <= |events|
    requires Clears(Run(rig, s, events[..i]), events[i])
    requires forall k :: i < k < j ==> !Sets(Run(rig, s, events[..k]), events[k])
    ensures Run(rig, s, events[..j]).arming
    ensures Run(rig, s, events[..j]).armed == Run(rig, s, events[..i]).armed
    decreases j
  {
    hide Run, Decided, Faulty;
    NextState(rig, s, events, j - 1);
    assert !events[j - 1].Core1?;
    if i < j - 1 { StaysArming(rig, s, events, i, j - 1); }
  }

  /** A trip that went away was cleared by an `arm` that began here. */
  lemma {:induction false} FirstClear(rig: Rig, s: System, events: seq<Event>, j: nat) returns (i: nat)
    requires Core0Only(events) && j <= |events|
    requires s.tripped && !Run(rig, s, events[..j]).tripped
    ensures i < j && Clears(Run(rig, s, events[..i]), events[i])
    decreases j
  {
    hide Run, Decided, Faulty;
    StartOfRun(rig, s, events);
    NextState(rig, s, events, j - 1);
    assert !events[j - 1].Core1?;
    if Run(rig, s, events[..j - 1]).tripped {
      i := j - 1;
    } else {
      i := FirstClear(rig, s, events, j - 1);
    }
  }

  /** An `arm` that began and ended within the stretch left the state armed and untripped. */
  lemma ArmMakesReal(rig: Rig, s: System, events: seq<Event>, i: nat, j: nat)
    requires Core0Only(events) && ArmedAcross(rig, s, events, i, j)
    ensures Real(Run(rig, s, events[..j + 1]))
  {
    NextState(rig, s, events, i);
    NextState(rig, s, events, j);
    StaysClear(rig, s, events, i + 1, j + 1);
  }

  /** Without one, an untripped state is as armed as the whole stretch ends. */
  lemma UntrippedIsAsArmedAsTheEnd(rig: Rig, s: System, events: seq<Event>, k: nat)
    requires Core0Only(events) && k <= |events| && s.tripped && !ArmWithin(rig, s, events)
    requires !Run(rig, s, events[..k]).tripped
    ensures Run(rig, s, events[..k]).armed == Run(rig, s, events).armed
  {
    var i := FirstClear(rig, s, events, k);
    forall j: nat | i < j < |events| ensures !Sets(Run(rig, s, events[..j]), events[j]) {
      assert !ArmedAcross(rig, s, events, i, j);
    }
    StaysArming(rig, s, events, i, k);
    StaysArming(rig, s, events, i, |events|);
    assert events[..|events|] == events;
  }

  /** From a first load that read armed to a second that read untripped, the pair was never
      the state at any instant if and only if the snapshot is torn. */
  lemma SnapshotIsRealUnlessTorn(rig: Rig, s: System, events: seq<Event>)
    requires s.armed && Core0Only(events) && !Run(rig, s, events).tripped
    ensures !EverReal(rig, s, events) <==> Torn(rig, s, events)
  {
    hide Run;
    assert events[..|events|] == events;
    StartOfRun(rig, s, events);
    if Torn(rig, s, events) {
      forall k | 0 <= k <= |events| ensures !Real(Run(rig, s, events[..k])) {
        if !Run(rig, s, events[..k]).tripped { UntrippedIsAsArmedAsTheEnd(rig, s, events, k); }
      }
    } else if !EverReal(rig, s, events) {
      assert !Real(Run(rig, s, events[..0])) && !Real(Run(rig, s, events[..|events|]));
      var i: nat, j: nat :| ArmedAcross(rig, s, events, i, j);
      ArmMakesReal(rig, s, events, i, j);
      assert false;
    }
  }

  /** A snapshot taken without a disarm in between is real: what the second load finds is
      armed and untripped. */
  lemma {:induction false} UntornSnapshotIsReal(rig: Rig, s: System, events: seq<Event>)
    requires s.pc.HalfLoaded? && (s.pc.armed ==> s.armed) && NeverDisarmed(events) && Core0Only(events)
    ensures
      var m := Run(rig, s, events);
      var t := Step(rig, m, Core1(false, []));
      && t.pc.Loaded? && (m.pc.armed ==> m.armed)
      && (t.pc.inputs.armed && !t.pc.inputs.tripped ==> m.armed && !m.tripped)
  {
    if events != [] {
      var before := events[..|events| - 1];
      assert !events[|events| - 1].Disarm? && !events[|events| - 1].Core1?;
      UntornSnapshotIsReal(rig, s, before);
    }
  }

  predicate NeverDisarmed(events: seq<Event>) { forall i :: 0 <= i < |events| ==> !events[i].Disarm? }

  // ---------------------------------------------------------------------------
  // Every tick of every interleaving
  // ---------------------------------------------------------------------------

  /** Read as armed and not as tripped, without a fault, and asked for numbers only. */
  ghost predicate MayDrive(tick: Tick) {
    && tick.inputs.armed && !tick.inputs.tripped && !tick.fault
    && forall a :: 0 <= a < |tick.commanded| ==> tick.commanded[a].Volts?
  }

  lemma MayDriveExactly(tick: Tick)
    ensures MayDrive(tick) <==> Drives(tick.inputs, tick.fault, tick.commanded)
  {}

  /** Whatever a tick drove is all clamped from an armed, untripped snapshot, or all safe. */
  ghost predicate Sound(rig: Rig, tick: Tick) {
    if MayDrive(tick)
    then AllClamped(rig, tick.commanded, tick.applied)
    else AllSafe(rig, tick.applied) && |tick.applied| == |tick.commanded|
  }

  function Upto(rig: Rig, events: seq<Event>, k: nat): System
    requires k <= |events|
  {
    Run(rig, POWER_UP, events[..k])
  }

  /** Event `a` is the first load of tick `i` and only core 0 ran since. */
  ghost predicate Opened(rig: Rig, events: seq<Event>, i: nat, a: nat, end: nat) {
    && a < end <= |events| && events[a].Core1? && Core0Only(events[a + 1..end])
    && Upto(rig, events, a).pc.Between? && |Upto(rig, events, a).ticks| == i
  }

  /** Events `a` and `b` are the two loads of tick `i`, and `inputs` is what they read. */
  ghost predicate Window(rig: Rig, events: seq<Event>, i: nat, inputs: SafetyInputs, a: nat, b: nat) {
    && b < |events| && events[b].Core1? && Opened(rig, events, i, a, b)
    && inputs == SafetyInputs(Upto(rig, events, a).armed, Upto(rig, events, b).tripped)
  }

  ghost predicate ReadIn(rig: Rig, events: seq<Event>, i: nat, inputs: SafetyInputs) {
    exists a: nat, b: nat :: Window(rig, events, i, inputs, a, b)
  }

  ghost predicate HalfReadIn(rig: Rig, events: seq<Event>, i: nat, armed: bool) {
    exists a: nat :: Opened(rig, events, i, a, |events|) && armed == Upto(rig, events, a).armed
  }

  /** Where everything core 1 holds was read. */
  ghost predicate Traced(rig: Rig, events: seq<Event>, s: System) {
    && (forall i :: 0 <= i < |s.ticks| ==> Sound(rig, s.ticks[i]) && ReadIn(rig, events, i, s.ticks[i].inputs))
    && match s.pc
       case Between => true
       case HalfLoaded(armed) => HalfReadIn(rig, events, |s.ticks|, armed)
       case Loaded(inputs) => ReadIn(rig, events, |s.ticks|, inputs)
       case Latching(tick) => Sound(rig, tick) && ReadIn(rig, events, |s.ticks|, tick.inputs)
       case Actuating(tick) => Sound(rig, tick) && ReadIn(rig, events, |s.ticks|, tick.inputs)
  }

  lemma UptoOfLonger(rig: Rig, events: seq<Event>, event: Event, k: nat)
    requires k <= |events|
    ensures Upto(rig, events + [event], k) == Upto(rig, events, k)
  {
    assert (events + [event])[..k] == events[..k];
  }

  lemma ReadInLonger(rig: Rig, events: seq<Event>, event: Event, i: nat, inputs: SafetyInputs)
    requires ReadIn(rig, events, i, inputs)
    ensures ReadIn(rig, events + [event], i, inputs)
  {
    hide Run;
    var a: nat, b: nat :| Window(rig, events, i, inputs, a, b);
    UptoOfLonger(rig, events, event, a);
    UptoOfLonger(rig, events, event, b);
    assert (events + [event])[a + 1..b] == events[a + 1..b];
    assert Window(rig, events + [event], i, inputs, a, b);
  }

  lemma FirstLoad(rig: Rig, events: seq<Event>, event: Event)
    requires event.Core1? && Run(rig, POWER_UP, events).pc.Between?
    ensures
      var s := Run(rig, POWER_UP, events);
      HalfReadIn(rig, events + [event], |s.ticks|, s.armed)
  {
    hide Run;
    UptoOfLonger(rig, events, event, |events|);
    assert events[..|events|] == events;
    assert Opened(rig, events + [event], |Run(rig, POWER_UP, events).ticks|, |events|, |events| + 1);
  }

  lemma Core0OneMore(events: seq<Event>, event: Event)
    requires Core0Only(events) && !event.Core1?
    ensures Core0Only(events + [event])
  {}

  lemma Core0Between(rig: Rig, events: seq<Event>, event: Event, i: nat, armed: bool)
    requires HalfReadIn(rig, events, i, armed) && !event.Core1?
    ensures HalfReadIn(rig, events + [event], i, armed)
  {
    hide Run;
    var a: nat :| Opened(rig, events, i, a, |events|) && armed == Upto(rig, events, a).armed;
    UptoOfLonger(rig, events, event, a);
    assert (events + [event])[a + 1..|events| + 1] == events[a + 1..|events|] + [event];
    assert (events + [event])[a] == events[a];
    Core0OneMore(events[a + 1..|events|], event);
    hide Core0Only;
    assert Opened(rig, events + [event], i, a, |events| + 1);
  }

  lemma SecondLoad(rig: Rig, events: seq<Event>, event: Event, i: nat, armed: bool)
    requires HalfReadIn(rig, events, i, armed) && event.Core1?
    ensures ReadIn(rig, events + [event], i, SafetyInputs(armed, Run(rig, POWER_UP, events).tripped))
  {
    hide Run;
    var a: nat :| Opened(rig, events, i, a, |events|) && armed == Upto(rig, events, a).armed;
    UptoOfLonger(rig, events, event, a);
    UptoOfLonger(rig, events, event, |events|);
    assert events[..|events|] == events;
    assert (events + [event])[a + 1..|events|] == events[a + 1..|events|];
    assert Window(rig, events + [event], i, SafetyInputs(armed, Run(rig, POWER_UP, events).tripped), a, |events|);
  }

  lemma TraceStep(rig: Rig, events: seq<Event>, event: Event)
    requires Traced(rig, events, Run(rig, POWER_UP, events))
    ensures Traced(rig, events + [event], Step(rig, Run(rig, POWER_UP, events), event))
  {
    var s := Run(rig, POWER_UP, events);
    hide Run, ReadIn, HalfReadIn;
    forall i | 0 <= i < |s.ticks| ensures ReadIn(rig, events + [event], i, s.ticks[i].inputs) {
      ReadInLonger(rig, events, event, i, s.ticks[i].inputs);
    }
    match s.pc {
      case Between => if event.Core1? { FirstLoad(rig, events, event); }
      case HalfLoaded(armed) =>
        if event.Core1? {
          SecondLoad(rig, events, event, |s.ticks|, armed);
        } else {
          Core0Between(rig, events, event, |s.ticks|, armed);
        }
      case Loaded(inputs) => ReadInLonger(rig, events, event, |s.ticks|, inputs);
      case Latching(tick) => ReadInLonger(rig, events, event, |s.ticks|, tick.inputs);
      case Actuating(tick) => ReadInLonger(rig, events, event, |s.ticks|, tick.inputs);
    }
  }

  lemma {:induction false} TracedAlways(rig: Rig, events: seq<Event>)
    ensures Traced(rig, events, Run(rig, POWER_UP, events))
  {
    hide Traced, Step;
    if events == [] {
      TracedAtPowerUp(rig);
    } else {
      var n := |events| - 1;
      TracedAlways(rig, events[..n]);
      TraceStep(rig, events[..n], events[n]);
      assert events[..n] + [events[n]] == events;
    }
  }

  lemma TracedAtPowerUp(rig: Rig)
    ensures Traced(rig, [], Run(rig, POWER_UP, []))
  {}

  /** The snapshot `inputs` lets a tick drive, and the shared state answers for it: between the
      two loads the state was armed and untripped at some instant, or the snapshot is torn. */
  ghost predicate Answered(rig: Rig, events: seq<Event>, i: nat, inputs: SafetyInputs, a: nat, b: nat) {
    && Window(rig, events, i, inputs, a, b)
    && var s, between := Upto(rig, events, a + 1), events[a + 1..b];
       EverReal(rig, s, between) <==> !Torn(rig, s, between)
  }

  ghost predicate AnsweredFor(rig: Rig, events: seq<Event>, i: nat, inputs: SafetyInputs) {
    exists a: nat, b: nat :: Answered(rig, events, i, inputs, a, b)
  }

  /** Every tick of every interleaving applies all safe outputs, or all clamped outputs from
      finite commands. One that drives had no fault, and between its own two loads the state
      really was armed and untripped, unless its snapshot is torn in the one way there is. */
  lemma EveryTickIsSound(rig: Rig, events: seq<Event>, i: nat)
    requires i < |Run(rig, POWER_UP, events).ticks|
    ensures
      var tick := Run(rig, POWER_UP, events).ticks[i];
      && Sound(rig, tick)
      && (MayDrive(tick) ==> AnsweredFor(rig, events, i, tick.inputs))
  {
    TracedAlways(rig, events);
    var tick := Run(rig, POWER_UP, events).ticks[i];
    MayDriveExactly(tick);
    hide Run, Sound;
    if Drives(tick.inputs, tick.fault, tick.commanded) {
      var a: nat, b: nat :| Window(rig, events, i, tick.inputs, a, b);
      LoadsSeeTheirInstants(rig, events, i, tick.inputs, a, b);
      SnapshotIsRealUnlessTorn(rig, Upto(rig, events, a + 1), events[a + 1..b]);
      assert Answered(rig, events, i, tick.inputs, a, b);
    }
  }

  lemma LoadsSeeTheirInstants(rig: Rig, events: seq<Event>, i: nat, inputs: SafetyInputs, a: nat, b: nat)
    requires Window(rig, events, i, inputs, a, b)
    ensures Upto(rig, events, a + 1).armed == inputs.armed
    ensures Run(rig, Upto(rig, events, a + 1), events[a + 1..b]).tripped == inputs.tripped
  {
    NextState(rig, POWER_UP, events, a);
    hide Run;
    RunFrom(rig, POWER_UP, events[..a + 1], events[a + 1..b]);
    assert events[..a + 1] + events[a + 1..b] == events[..b];
  }

  lemma {:induction false} RunFrom(rig: Rig, s: System, a: seq<Event>, b: seq<Event>)
    ensures Run(rig, s, a + b) == Run(rig, Run(rig, s, a), b)
  {
    hide Step;
    if b == [] {
      assert a + b == a;
    } else {
      assert (a + b)[..|a + b| - 1] == a + b[..|b| - 1];
      RunFrom(rig, s, a, b[..|b| - 1]);
    }
  }

  /** No event of core 0 in the list arms. */
  predicate NeverArmed(events: seq<Event>) { forall i :: 0 <= i < |events| ==> !events[i].ArmSet? }

  predicate NeverCleared(events: seq<Event>) { forall i :: 0 <= i < |events| ==> !events[i].ArmClear? }

  /** The tick in progress, if it has read the word already, may still act on what it read. */
  function FirstFresh(s: System): nat { |s.ticks| + if s.pc.Between? then 0 else 1 }

  ghost predicate QuietFrom(s: System, first: nat) {
    && (forall i :: first <= i < |s.ticks| ==> !Drives(s.ticks[i].inputs, s.ticks[i].fault, s.ticks[i].commanded))
    && (|s.ticks| >= first ==>
          match s.pc
          case Between => true
          case HalfLoaded(armed) => !armed
          case Loaded(inputs) => !inputs.armed
          case Latching(tick) => !tick.inputs.armed
          case Actuating(tick) => !tick.inputs.armed)
  }

  /** Core 1 never arms: once disarmed, every tick that takes its snapshot later is quiet,
      until core 0 completes the next arm. */
  lemma {:induction false} QuietAfterDisarm(rig: Rig, s: System, events: seq<Event>)
    requires !s.armed && NeverArmed(events)
    ensures
      var t := Run(rig, s, events);
      && !t.armed && |t.ticks| >= |s.ticks|
      && (forall i :: FirstFresh(s) <= i < |t.ticks| ==>
            !Drives(t.ticks[i].inputs, t.ticks[i].fault, t.ticks[i].commanded))
  {
    StaysQuiet(rig, s, events);
  }

  /** From power-up nothing is driven before core 0 has completed an arm. */
  lemma QuietUntilArmed(rig: Rig, events: seq<Event>, i: nat)
    requires NeverArmed(events) && i < |Run(rig, POWER_UP, events).ticks|
    ensures !MayDrive(Run(rig, POWER_UP, events).ticks[i])
  {
    StaysQuiet(rig, POWER_UP, events);
    MayDriveExactly(Run(rig, POWER_UP, events).ticks[i]);
    hide Run, Decided;
  }

  lemma {:induction false} StaysQuiet(rig: Rig, s: System, events: seq<Event>)
    requires !s.armed && NeverArmed(events)
    ensures
      var t := Run(rig, s, events);
      && !t.armed && |t.ticks| >= |s.ticks| && QuietFrom(t, FirstFresh(s))
      && (|t.ticks| == |s.ticks| && !s.pc.Between? ==> !t.pc.Between?)
  {
    hide Decided, Faulty;
    if events != [] {
      StaysQuiet(rig, s, events[..|events| - 1]);
      assert !events[|events| - 1].ArmSet?;
    }
  }

  /** A latched trip holds every later snapshot quiet until core 0 clears it. */
  ghost predicate TrippedFrom(s: System, first: nat) {
    && (forall i :: first <= i < |s.ticks| ==> s.ticks[i].inputs.tripped)
    && (|s.ticks| >= first ==>
          match s.pc
          case Between => true
          case HalfLoaded(_) => true
          case Loaded(inputs) => inputs.tripped
          case Latching(tick) => tick.inputs.tripped
          case Actuating(tick) => tick.inputs.tripped)
  }

  lemma {:induction false} TripHolds(rig: Rig, s: System, events: seq<Event>)
    requires s.tripped && NeverCleared(events)
    ensures
      var t := Run(rig, s, events);
      && t.tripped && |t.ticks| >= |s.ticks| && TrippedFrom(t, FirstFresh(s))
      && (|t.ticks| == |s.ticks| && !s.pc.Between? ==> !t.pc.Between?)
  {
    hide Decided, Faulty;
    if events != [] {
      TripHolds(rig, s, events[..|events| - 1]);
      assert !events[|events| - 1].ArmClear?;
    }
  }

  /** A latched trip outlives its tick until core 0 clears it. */
  lemma TripOutlivesItsTick(rig: Rig, s: System, events: seq<Event>)
    requires s.pc.Latching? && events != [] && events[0].Core1? && NeverCleared(events)
    ensures
      var t := Run(rig, s, events);
      t.tripped && forall i :: |s.ticks| + 1 <= i < |t.ticks| ==> t.ticks[i].inputs.tripped
  {
    assert [events[0]] + events[1..] == events && [events[0]][..0] == [];
    RunFrom(rig, s, [events[0]], events[1..]);
    TripHolds(rig, Step(rig, s, events[0]), events[1..]);
  }

  // ---------------------------------------------------------------------------
  // A fault that persists
  // ---------------------------------------------------------------------------

  /** Every decision taken meets a fault. */
  predicate AlwaysFaulty(events: seq<Event>) {
    forall i :: 0 <= i < |events| && events[i].Core1? ==> Faulty(events[i].fault, events[i].commanded)
  }

  /** The first tick that has still to decide. */
  function FirstUndecided(s: System): nat { |s.ticks| + if s.pc.Latching? || s.pc.Actuating? then 1 else 0 }

  /** Event `j` is the store by which tick `i` latches the trip, before that tick ends. */
  ghost predicate LatchesAt(rig: Rig, s: System, events: seq<Event>, i: nat, tick: Tick, j: nat) {
    && j < |events| && events[j].Core1?
    && Run(rig, s, events[..j]).pc == Latching(tick) && |Run(rig, s, events[..j]).ticks| == i
    && Run(rig, s, events[..j + 1]).tripped
  }

  ghost predicate Latches(rig: Rig, s: System, events: seq<Event>, i: nat, tick: Tick) {
    && !Drives(tick.inputs, tick.fault, tick.commanded)
    && exists j: nat :: LatchesAt(rig, s, events, i, tick, j)
  }

  ghost predicate LatchesFrom(rig: Rig, s: System, events: seq<Event>, t: System) {
    && |t.ticks| >= |s.ticks|
    && (|t.ticks| < FirstUndecided(s) ==> t.pc == s.pc || t.pc.Actuating?)
    && (forall i :: FirstUndecided(s) <= i < |t.ticks| ==> Latches(rig, s, events, i, t.ticks[i]))
    && (|t.ticks| >= FirstUndecided(s) ==>
          match t.pc
          case Latching(tick) => Faulty(tick.fault, tick.commanded)
          case Actuating(tick) => Latches(rig, s, events, |t.ticks|, tick)
          case _ => true)
  }

  lemma LatchesLonger(rig: Rig, s: System, events: seq<Event>, event: Event, i: nat, tick: Tick)
    requires Latches(rig, s, events, i, tick)
    ensures Latches(rig, s, events + [event], i, tick)
  {
    hide Run;
    var j: nat :| LatchesAt(rig, s, events, i, tick, j);
    assert (events + [event])[..j] == events[..j] && (events + [event])[..j + 1] == events[..j + 1];
    assert LatchesAt(rig, s, events + [event], i, tick, j);
  }

  lemma LatchStep(rig: Rig, s: System, events: seq<Event>, event: Event)
    requires LatchesFrom(rig, s, events, Run(rig, s, events))
    requires event.Core1? ==> Faulty(event.fault, event.commanded)
    ensures LatchesFrom(rig, s, events + [event], Run(rig, s, events + [event]))
  {
    var t := Run(rig, s, events);
    assert (events + [event])[..|events|] == events;
    assert Run(rig, s, events + [event]) == Step(rig, t, event);
    hide Run, Latches, Decided, Faulty;
    forall i | FirstUndecided(s) <= i < |t.ticks| ensures Latches(rig, s, events + [event], i, t.ticks[i]) {
      LatchesLonger(rig, s, events, event, i, t.ticks[i]);
    }
    if t.pc.Actuating? && |t.ticks| >= FirstUndecided(s) {
      LatchesLonger(rig, s, events, event, |t.ticks|, t.pc.tick);
    }
    if t.pc.Latching? && event.Core1? && |t.ticks| >= FirstUndecided(s) {
      LatchHappens(rig, s, events, event, t);
    }
  }

  lemma LatchHappens(rig: Rig, s: System, events: seq<Event>, event: Event, t: System)
    requires Run(rig, s, events) == t && t.pc.Latching? && event.Core1?
    requires Faulty(t.pc.tick.fault, t.pc.tick.commanded)
    ensures Latches(rig, s, events + [event], |t.ticks|, t.pc.tick)
  {
    assert (events + [event])[..|events|] == events && (events + [event])[..|events| + 1] == events + [event];
    assert LatchesAt(rig, s, events + [event], |t.ticks|, t.pc.tick, |events|);
  }

  /** While a fault persists, from any state and however arms and disarms interleave, every
      tick that has still to decide drives nothing and latches the trip before it ends: an
      `arm` in the course of it, or before it, is undone. */
  lemma {:induction false} FaultIsLatched(rig: Rig, s: System, events: seq<Event>)
    requires AlwaysFaulty(events)
    ensures
      var t := Run(rig, s, events);
      forall i :: FirstUndecided(s) <= i < |t.ticks| ==> Latches(rig, s, events, i, t.ticks[i])
  {
    LatchesAlways(rig, s, events);
  }

  lemma {:induction false} LatchesAlways(rig: Rig, s: System, events: seq<Event>)
    requires AlwaysFaulty(events)
    ensures LatchesFrom(rig, s, events, Run(rig, s, events))
  {
    if events != [] {
      var n := |events| - 1;
      LatchesAlways(rig, s, events[..n]);
      assert events[..n] + [events[n]] == events;
      hide LatchesFrom, Run;
      LatchStep(rig, s, events[..n], events[n]);
    }
  }

  // ---------------------------------------------------------------------------
  // A torn snapshot, from power-up
  // ---------------------------------------------------------------------------

  /** One whole tick that meets this fault, uninterrupted. */
  function TickEvents(fault: bool, commanded: seq<Drive>): seq<Event> {
    var c := Core1(fault, commanded);
    if fault then [c, c, c, c, c] else [c, c, c, c]
  }

  /** Core 0 arms; a faulty tick trips; core 1 then makes its first load. */
  function BeforeTheLoads(commanded: seq<Drive>): seq<Event> {
    [ArmClear, ArmSet] + TickEvents(true, commanded) + [Core1(false, commanded)]
  }

  /** The two loads are not one snapshot. After a trip, core 0 can disarm between them and
      begin to arm again: the tick then drives, although from its first load on the state was
      never armed and untripped. */
  lemma TornSnapshotDrives(rig: Rig, commanded: seq<Drive>)
    requires !AnyNotFinite(commanded)
    ensures
      var before, between, c := BeforeTheLoads(commanded), [Disarm, ArmClear], Core1(false, commanded);
      var s := Run(rig, POWER_UP, before);
      var t := Run(rig, POWER_UP, before + between + [c, c, c]);
      && s.pc == HalfLoaded(true) && s.armed && Torn(rig, s, between) && !EverReal(rig, s, between)
      && |t.ticks| == 2
      && t.ticks[1] == Tick(SafetyInputs(true, false), false, commanded,
                            Decided(rig, SafetyInputs(true, false), false, commanded))
      && Drives(SafetyInputs(true, false), false, commanded)
  {
    var before, between, c := BeforeTheLoads(commanded), [Disarm, ArmClear], Core1(false, commanded);
    var s := Run(rig, POWER_UP, before);
    BeforeTheLoadsEnds(rig, commanded);
    hide BeforeTheLoads;
    RunFrom(rig, POWER_UP, before, between);
    TwoSteps(rig, s, Disarm, ArmClear);
    var m := Run(rig, s, between);
    assert m == s.(armed := false, tripped := false, arming := true);
    NoArmInTwo(rig, s);
    SnapshotIsRealUnlessTorn(rig, s, between);
    RunFrom(rig, POWER_UP, before + between, [c, c, c]);
    hide Decided;
    TwoSteps(rig, m, c, c);
    RunFrom(rig, m, [c, c], [c]);
    assert [c, c] + [c] == [c, c, c];
    OneStep(rig, Run(rig, m, [c, c]), c);
  }

  lemma NoArmInTwo(rig: Rig, s: System)
    ensures !ArmWithin(rig, s, [Disarm, ArmClear])
  {
    hide Run;
    var events := [Disarm, ArmClear];
    forall i: nat, j: nat ensures !ArmedAcross(rig, s, events, i, j) {
      assert i == 0 ==> !Clears(Run(rig, s, events[..0]), events[0]);
    }
  }

  lemma BeforeTheLoadsEnds(rig: Rig, commanded: seq<Drive>)
    ensures
      var s := Run(rig, POWER_UP, BeforeTheLoads(commanded));
      s.armed && s.tripped && !s.arming && s.pc == HalfLoaded(true) && |s.ticks| == 1
  {
    hide Decided;
    var f, c := Core1(true, commanded), Core1(false, commanded);
    var armed := Run(rig, POWER_UP, [ArmClear, ArmSet]);
    TwoSteps(rig, POWER_UP, ArmClear, ArmSet);
    assert armed == POWER_UP.(armed := true);
    var four := [f, f] + [f, f];
    RunFrom(rig, armed, [f, f], [f, f]);
    TwoSteps(rig, armed, f, f);
    TwoSteps(rig, Run(rig, armed, [f, f]), f, f);
    RunFrom(rig, armed, four, [f]);
    OneStep(rig, Run(rig, armed, four), f);
    assert four + [f] == TickEvents(true, commanded);
    RunFrom(rig, POWER_UP, [ArmClear, ArmSet], TickEvents(true, commanded));
    RunFrom(rig, POWER_UP, [ArmClear, ArmSet] + TickEvents(true, commanded), [c]);
    OneStep(rig, Run(rig, armed, TickEvents(true, commanded)), c);
  }

  lemma OneStep(rig: Rig, s: System, event: Event)
    ensures Run(rig, s, [event]) == Step(rig, s, event)
  {
    assert [event][..0] == [];
  }

  lemma TwoSteps(rig: Rig, s: System, a: Event, b: Event)
    ensures Run(rig, s, [a, b]) == Step(rig, Step(rig, s, a), b)
  {
    hide Step;
    assert [a, b] == [a] + [b];
    RunFrom(rig, s, [a], [b]);
    OneStep(rig, s, a);
    OneStep(rig, Step(rig, s, a), b);
  }
}
