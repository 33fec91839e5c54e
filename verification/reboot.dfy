/** Fail-safe reboot: once asked, core 1 stops ticking, zeroes every analog output, and only
    then reports that the hardware may be reset. */
module Reboot {
  const CHANNELS: nat := 4

  datatype Handshake = Idle | Requested | Quiesced

  // ---------------------------------------------------------------------------
  // The rig's outputs
  // ---------------------------------------------------------------------------

  /** Reboot step `step` zeroes one channel; steps past the last repeat the last. */
  function ChannelOf(step: nat): nat { if step < CHANNELS - 1 then step else CHANNELS - 1 }

  class PicoDacRig {
    const dac: array<real>
    var outputChannel: nat

    ghost predicate Valid() reads this { dac.Length == CHANNELS && outputChannel < CHANNELS }

    constructor (channel: nat)
      requires channel < CHANNELS
      ensures Valid() && fresh(dac) && outputChannel == channel
      ensures dac[..] == [0.0, 0.0, 0.0, 0.0]
    {
      dac := new real[CHANNELS](_ => 0.0);
      outputChannel := channel;
    }

    method Actuate(volts: real)
      requires Valid()
      modifies dac
      ensures Valid() && dac[..] == old(dac[..])[outputChannel := volts]
    {
      dac[outputChannel] := volts;
    }

    method PrepareReboot(step: nat) returns (done: bool)
      requires Valid()
      modifies dac
      ensures Valid() && dac[..] == old(dac[..])[ChannelOf(step) := 0.0]
      ensures done == (step >= CHANNELS - 1)
    {
      var channel := if step < 3 then step else 3;
      dac[channel] := 0.0;
      done := step >= 3;
    }

    /** Only the output channel is a rig scalar that moves an output. */
    method SetParam(id: nat, value: nat)
      requires Valid() && (id == 1 ==> value < CHANNELS)
      modifies this`outputChannel
      ensures Valid() && outputChannel == if id == 1 then value else old(outputChannel)
    {
      if id == 1 {
        outputChannel := value;
      }
    }
  }

  // ---------------------------------------------------------------------------
  // The handshake, interleaved
  // ---------------------------------------------------------------------------

  /** Where core 1 is: waiting for a wake, having observed no request in this one, stepping
      the outputs down, about to report, or spinning for ever. */
  datatype Pc = Waiting | Ticking | Stepping | Reporting | Halted

  /** `step` saturates as a byte does; `ticks` and `observed` are histories: control ticks
      run, and wakes since a request was first observed. */
  datatype System = System(
    handshake: Handshake, pc: Pc, step: nat, dac: seq<real>, channel: nat, ticks: nat, observed: nat)

  datatype Event = Request | Core1(volts: real, channel: nat)

  function SaturatingNext(step: nat): nat { if step < 255 then step + 1 else 255 }

  function Wake(s: System): System {
    if s.handshake == Idle then s.(pc := Ticking) else s.(pc := Stepping, observed := s.observed + 1)
  }

  /** Core 0's compare-and-exchange, or core 1's next step. A control tick may move the
      output to another channel before it drives it. */
  function Step(s: System, event: Event): System
    requires |s.dac| == CHANNELS && s.channel < CHANNELS
  {
    match event
    case Request => if s.handshake == Idle then s.(handshake := Requested) else s
    case Core1(volts, channel) =>
      match s.pc
      case Waiting => Wake(s)
      case Ticking =>
        var target := if channel < CHANNELS then channel else s.channel;
        s.(channel := target, dac := s.dac[target := volts], ticks := s.ticks + 1, pc := Waiting)
      case Stepping =>
        var zeroed := s.(dac := s.dac[ChannelOf(s.step) := 0.0]);
        if s.step >= CHANNELS - 1 then zeroed.(pc := Reporting)
        else zeroed.(step := SaturatingNext(s.step), pc := Waiting)
      case Reporting => s.(handshake := Quiesced, pc := Halted)
      case Halted => s
  }

  function Run(s: System, events: seq<Event>): (t: System)
    requires |s.dac| == CHANNELS && s.channel < CHANNELS
    ensures |t.dac| == CHANNELS && t.channel < CHANNELS
  {
    if events == [] then s else Step(Run(s, events[..|events| - 1]), events[|events| - 1])
  }

  function PowerUp(channel: nat): System
    requires channel < CHANNELS
  {
    System(Idle, Waiting, 0, [0.0, 0.0, 0.0, 0.0], channel, 0, 0)
  }

  /** How far the outputs have been stepped down, and what that guarantees. */
  ghost predicate Descending(s: System) {
    && |s.dac| == CHANNELS && s.channel < CHANNELS
    && s.step < CHANNELS
    && (forall c :: 0 <= c < s.step ==> s.dac[c] == 0.0)
    && (s.step > 0 ==> s.handshake != Idle && s.pc != Ticking)
    && (s.pc == Stepping ==> s.handshake == Requested && s.observed == s.step + 1)
    && (s.pc == Waiting || s.pc == Ticking ==> s.observed == s.step && s.handshake != Quiesced)
    && (s.pc == Reporting ==> s.handshake == Requested)
    && (s.pc == Halted <==> s.handshake == Quiesced)
    && (s.pc == Reporting || s.pc == Halted ==> s.observed == CHANNELS && AllZero(s.dac))
  }

  ghost predicate AllZero(dac: seq<real>) { forall c :: 0 <= c < |dac| ==> dac[c] == 0.0 }

  lemma StepDescends(s: System, event: Event)
    requires Descending(s)
    ensures Descending(Step(s, event))
  {}

  lemma {:induction false} AlwaysDescending(channel: nat, events: seq<Event>)
    requires channel < CHANNELS
    ensures Descending(Run(PowerUp(channel), events))
  {
    if events != [] {
      AlwaysDescending(channel, events[..|events| - 1]);
      StepDescends(Run(PowerUp(channel), events[..|events| - 1]), events[|events| - 1]);
    }
  }

  /** The handshake only moves forward, and quiescence means that all four channels were last
      written with zero volts. */
  lemma QuiescedMeansZero(channel: nat, events: seq<Event>, event: Event)
    requires channel < CHANNELS
    ensures
      var s := Run(PowerUp(channel), events);
      var t := Step(s, event);
      && (s.handshake == Quiesced ==> AllZero(s.dac))
      && (t.handshake == s.handshake
          || (s.handshake == Idle && t.handshake == Requested)
          || (s.handshake == Requested && t.handshake == Quiesced))
  {
    AlwaysDescending(channel, events);
  }

  /** From quiescence on nothing moves: the outputs stay at zero volts for ever. */
  lemma {:induction false} QuiescedForEver(channel: nat, prefix: seq<Event>, events: seq<Event>)
    requires channel < CHANNELS && Run(PowerUp(channel), prefix).handshake == Quiesced
    ensures
      var s := Run(PowerUp(channel), prefix);
      Run(s, events) == s && AllZero(s.dac)
  {
    AlwaysDescending(channel, prefix);
    if events != [] {
      QuiescedForEver(channel, prefix, events[..|events| - 1]);
    }
  }

  /** Once core 1 has observed the request it never runs another control tick. */
  lemma {:induction false} NoTickAfterObservation(channel: nat, prefix: seq<Event>, events: seq<Event>)
    requires channel < CHANNELS && Run(PowerUp(channel), prefix).observed > 0
    ensures
      var s := Run(PowerUp(channel), prefix);
      Run(s, events).ticks == s.ticks && Run(s, events).observed > 0 && Descending(Run(s, events))
  {
    AlwaysDescending(channel, prefix);
    var s := Run(PowerUp(channel), prefix);
    if events != [] {
      NoTickAfterObservation(channel, prefix, events[..|events| - 1]);
      var m := Run(s, events[..|events| - 1]);
      StepDescends(m, events[|events| - 1]);
      assert m.pc != Ticking;
    }
  }

  /** Core-1 steps from here until it halts: two per wake, and one to report. */
  function StepsLeft(s: System): nat {
    match s.pc
    case Halted => 0
    case Reporting => 1
    case Stepping => if s.step < CHANNELS then 2 * (CHANNELS - 1 - s.step) + 2 else 0
    case Waiting => if s.step < CHANNELS then 2 * (CHANNELS - 1 - s.step) + 3 else 0
    case Ticking => 0
  }

  function Core1Steps(events: seq<Event>): nat {
    if events == [] then 0
    else Core1Steps(events[..|events| - 1]) + if events[|events| - 1].Core1? then 1 else 0
  }

  /** From the first observation core 1 needs exactly its own remaining steps, which are those
      of four wakes, to report quiescence; nothing core 0 does delays it. */
  lemma {:induction false} QuiescesInFourWakes(channel: nat, prefix: seq<Event>, events: seq<Event>)
    requires channel < CHANNELS && Run(PowerUp(channel), prefix).observed > 0
    ensures
      var s := Run(PowerUp(channel), prefix);
      var t := Run(s, events);
      && StepsLeft(s) <= 8
      && StepsLeft(t) == (if Core1Steps(events) < StepsLeft(s) then StepsLeft(s) - Core1Steps(events) else 0)
      && (Core1Steps(events) >= StepsLeft(s) ==> t.handshake == Quiesced)
      && t.observed <= CHANNELS
  {
    AlwaysDescending(channel, prefix);
    var s := Run(PowerUp(channel), prefix);
    NoTickAfterObservation(channel, prefix, events);
    if events != [] {
      var before := events[..|events| - 1];
      QuiescesInFourWakes(channel, prefix, before);
      NoTickAfterObservation(channel, prefix, before);
    }
  }
}
