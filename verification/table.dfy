/** Waveform table evaluation and table playback over the wrapping phase. */
module Table {
  import opened Words
  import opened Wrappers
  import opened Phase

  datatype Interpolation = ZeroOrderHold | Linear

  function InterpolationFrom(value: U32): Option<Interpolation> {
    match value
    case 0 => Some(ZeroOrderHold)
    case 1 => Some(Linear)
    case _ => None
  }

  datatype TableMode = Off | Loop | OneShot | LockedLoop | LockedOneShot

  function ModeFrom(value: U32): Option<TableMode> {
    match value
    case 0 => Some(Off)
    case 1 => Some(Loop)
    case 2 => Some(OneShot)
    case 3 => Some(LockedLoop)
    case 4 => Some(LockedOneShot)
    case _ => None
  }

  /** Knot below the phase: the fixed-point product keeps it inside the table. */
  function KnotBelow(theta: U32, len: nat): (index: nat)
    requires len > 0
    ensures index < len
    ensures index * TWO32 <= theta * len < (index + 1) * TWO32
  {
    assert theta * len < TWO32 * len by { MulBelow(theta, TWO32, len); }
    theta * len / TWO32
  }

  lemma MulBelow(a: int, b: int, k: int)
    requires a < b && k > 0
    ensures a * k < b * k
  {}

  lemma MulUpTo(a: int, b: int, k: int)
    requires a <= b && k >= 0
    ensures a * k <= b * k
  {}

  /** Weight of the next knot, exact in units of one word. */
  function Fraction(theta: U32, len: nat): (weight: real)
    ensures 0.0 <= weight < 1.0
  {
    ((theta * len) % TWO32) as real / TWO32 as real
  }

  class WaveTable {
    const values: array<real>
    var len: nat

    ghost predicate Valid() reads this { len <= values.Length }

    ghost function Knots(): (knots: seq<real>)
      requires Valid()
      reads this, values
    {
      values[..len]
    }

    constructor (capacity: nat)
      ensures Valid() && fresh(values) && values.Length == capacity && Knots() == []
    {
      values := new real[capacity](_ => 0.0);
      len := 0;
    }

    method WriteBlock(offset: nat, block: seq<real>) returns (written: bool)
      modifies values
      ensures written <==> offset + |block| <= values.Length
      ensures values[..] == if written
                            then old(values[..offset]) + block + old(values[offset + |block|..])
                            else old(values[..])
    {
      if offset + |block| > values.Length {
        return false;
      }
      forall i | 0 <= i < |block| {
        values[offset + i] := block[i];
      }
      written := true;
    }

    method SetLen(length: nat) returns (accepted: bool)
      requires Valid()
      modifies this`len
      ensures Valid()
      ensures accepted <==> 2 <= length <= values.Length
      ensures len == if accepted then length else old(len)
    {
      accepted := 2 <= length <= values.Length;
      if accepted { len := length; }
    }

    method EvaluateWith(theta: U32, interpolation: Interpolation) returns (value: real)
      requires Valid() && len >= 2
      ensures value == Evaluate(Knots(), theta, interpolation)
      ensures ReadsAt(Knots(), theta, interpolation, value)
    {
      EvaluationReads(Knots(), theta, interpolation);
      var position := theta * len;
      var index := position / TWO32;
      assert index == KnotBelow(theta, len);
      if interpolation == Linear {
        var fraction := (position % TWO32) as real / TWO32 as real;
        var next := if index + 1 == len then 0 else index + 1;
        var a := values[index];
        value := a + (values[next] - a) * fraction;
      } else {
        value := values[index];
      }
    }
  }

  function Evaluate(knots: seq<real>, theta: U32, interpolation: Interpolation): real
    requires |knots| > 0
  {
    var index := KnotBelow(theta, |knots|);
    match interpolation
    case ZeroOrderHold => knots[index]
    case Linear =>
      knots[index] + (knots[KnotAbove(index, |knots|)] - knots[index]) * Fraction(theta, |knots|)
  }

  function KnotAbove(index: nat, len: nat): nat { if index + 1 == len then 0 else index + 1 }

  /** The value at a position among the knots: its integer part names a knot, its fraction the
      way to the next, and the last knot is followed by the first. */
  ghost predicate ReadsFrom(knots: seq<real>, position: real, interpolation: Interpolation, value: real) {
    var index := position.Floor;
    && 0 <= index < |knots|
    && var a, b := knots[index], knots[if index == |knots| - 1 then 0 else index + 1];
       value == if interpolation.Linear? then a + (b - a) * (position - index as real) else a
  }

  /** A phase of a whole turn is a position of all the knots. */
  ghost predicate ReadsAt(knots: seq<real>, theta: U32, interpolation: Interpolation, value: real) {
    ReadsFrom(knots, theta as real * |knots| as real / 4294967296.0, interpolation, value)
  }

  lemma EvaluationReads(knots: seq<real>, theta: U32, interpolation: Interpolation)
    requires |knots| > 0
    ensures ReadsAt(knots, theta, interpolation, Evaluate(knots, theta, interpolation))
  {
    PositionInTable(theta, |knots|);
    hide KnotBelow, Fraction;
    ReadsFromPosition(knots, theta, interpolation, theta as real * |knots| as real / 4294967296.0);
  }

  lemma ReadsFromPosition(knots: seq<real>, theta: U32, interpolation: Interpolation, position: real)
    requires |knots| > 0
    requires position.Floor == KnotBelow(theta, |knots|)
    requires position - position.Floor as real == Fraction(theta, |knots|)
    ensures ReadsFrom(knots, position, interpolation, Evaluate(knots, theta, interpolation))
  {
    hide KnotBelow, Fraction;
  }

  lemma PositionInTable(theta: U32, n: nat)
    requires n > 0
    ensures
      var position := theta as real * n as real / 4294967296.0;
      position.Floor == KnotBelow(theta, n) && position - position.Floor as real == Fraction(theta, n)
  {
    var product: int := theta * n;
    assert theta as real * n as real == product as real;
    PositionSplits(product);
    assert KnotBelow(theta, n) == product / TWO32 && Fraction(theta, n) == (product % TWO32) as real / 4294967296.0;
  }

  lemma PositionSplits(product: int)
    ensures (product as real / 4294967296.0).Floor == product / TWO32
    ensures product as real / 4294967296.0 - (product / TWO32) as real == (product % TWO32) as real / 4294967296.0
  {}

  /** Interpolation never leaves the interval spanned by the two neighbouring knots. */
  lemma InterpolationStaysBetweenNeighbours(knots: seq<real>, theta: U32, interpolation: Interpolation)
    requires |knots| > 0
    ensures
      var below := knots[KnotBelow(theta, |knots|)];
      var above := knots[KnotAbove(KnotBelow(theta, |knots|), |knots|)];
      var value := Evaluate(knots, theta, interpolation);
      below <= value <= above || above <= value <= below
  {
    var index := KnotBelow(theta, |knots|);
    Between(knots[index], knots[KnotAbove(index, |knots|)], Fraction(theta, |knots|));
  }

  lemma Between(a: real, b: real, w: real)
    requires 0.0 <= w <= 1.0
    ensures a <= b ==> a <= a + (b - a) * w <= b
    ensures b <= a ==> b <= a + (b - a) * w <= a
  {
    assert a + (b - a) * w == b - (b - a) * (1.0 - w);
  }

  datatype OneShotState = Idle | Armed | Running

  datatype Player = Player(
    phase: U32,
    increment: U32,
    mode: TableMode,
    interpolation: Interpolation,
    gain: real,
    multiplier: U32,
    phaseOffset: U32,
    oneShot: OneShotState,
    previousMaster: U32,
    lockedProgress: nat)

  const NEW_PLAYER := Player(0, 0, Off, Linear, 1.0, 1, 0, Idle, 0, 0)

  function SaturatingAdd64(a: nat, b: nat): nat {
    if a + b < 0x1_0000_0000_0000_0000 then a + b else 0x1_0000_0000_0000_0000 - 1
  }

  function LockedAngle(p: Player, masterPhase: U32): U32 {
    WrapAdd(WrapMul(masterPhase, p.multiplier), p.phaseOffset)
  }

  /** One sample with a playable table: the successor state, and the angle to evaluate
      unless the sample is silent. */
  function PlayingStep(p: Player, masterPhase: U32, masterStart: bool): (Player, Option<U32>) {
    match p.mode
    case Off => (p, None)
    case Loop =>
      var stepped := p.(phase := WrapAdd(p.phase, p.increment));
      (stepped, Some(stepped.phase))
    case OneShot =>
      if p.oneShot != Running then
        (p, None)
      else
        var stepped := p.(phase := WrapAdd(p.phase, p.increment));
        if p.phase as int + p.increment >= TWO32
        then (stepped.(oneShot := Idle), None)
        else (stepped, Some(stepped.phase))
    case LockedLoop => (p, Some(LockedAngle(p, masterPhase)))
    case LockedOneShot =>
      if p.oneShot == Armed then
        if !masterStart then
          (p, None)
        else
          (p.(oneShot := Running, previousMaster := masterPhase, lockedProgress := 0),
           Some(LockedAngle(p, masterPhase)))
      else if p.oneShot == Running then
        var delta := WrapSub(masterPhase, p.previousMaster);
        var progress := SaturatingAdd64(p.lockedProgress, Times(delta, p.multiplier));
        var moved := p.(previousMaster := masterPhase, lockedProgress := progress);
        if progress >= TWO32
        then (moved.(oneShot := Idle), None)
        else (moved, Some(LockedAngle(p, masterPhase)))
      else
        (p, None)
  }

  function PlayerStep(p: Player, len: nat, masterPhase: U32, masterStart: bool): (r: (Player, Option<U32>))
    ensures r.1.Some? ==> len >= 2
  {
    if len < 2 then (p, None) else PlayingStep(p, masterPhase, masterStart)
  }

  function Triggered(p: Player): Player {
    match p.mode
    case OneShot => p.(phase := 0, oneShot := Running)
    case LockedOneShot => p.(oneShot := Armed)
    case _ => p
  }

  class TablePlayer {
    const accumulator: PhaseAccumulator
    var mode: TableMode
    var interpolation: Interpolation
    var gain: real
    var multiplier: U32
    var phaseOffset: U32
    var oneShot: OneShotState
    var previousMaster: U32
    var lockedProgress: nat

    function Model(): Player
      reads this, accumulator
    {
      Player(accumulator.phase, accumulator.increment, mode, interpolation, gain, multiplier,
             phaseOffset, oneShot, previousMaster, lockedProgress)
    }

    constructor ()
      ensures Model() == NEW_PLAYER && fresh(accumulator)
    {
      accumulator := new PhaseAccumulator();
      mode, interpolation, gain := Off, Linear, 1.0;
      multiplier, phaseOffset := 1, 0;
      oneShot, previousMaster, lockedProgress := Idle, 0, 0;
    }

    method SetIncrement(increment: U32)
      modifies accumulator`increment
      ensures Model() == old(Model()).(increment := increment)
    {
      accumulator.SetIncrement(increment);
    }

    method SetGain(value: real)
      modifies this`gain
      ensures Model() == old(Model()).(gain := value)
    {
      gain := value;
    }

    method SetMode(value: TableMode)
      modifies this
      ensures Model() == old(Model()).(mode := value, oneShot := Idle)
    {
      mode := value;
      oneShot := Idle;
    }

    method SetInterpolation(value: Interpolation)
      modifies this`interpolation
      ensures Model() == old(Model()).(interpolation := value)
    {
      interpolation := value;
    }

    method SetMultiplier(value: U32)
      modifies this`multiplier
      ensures Model() == old(Model()).(multiplier := if value == 0 then 1 else value)
    {
      multiplier := if value == 0 then 1 else value;
    }

    method SetPhaseOffset(value: U32)
      modifies this`phaseOffset
      ensures Model() == old(Model()).(phaseOffset := value)
    {
      phaseOffset := value;
    }

    method Trigger()
      modifies this`oneShot, accumulator`phase
      ensures Model() == Triggered(old(Model()))
    {
      if mode == OneShot {
        accumulator.Reset();
        oneShot := Running;
      } else if mode == LockedOneShot {
        oneShot := Armed;
      }
    }

    /** The mode's own bookkeeping: which angle sounds next, if any. */
    method NextAngle(masterPhase: U32, masterStart: bool) returns (theta: Option<U32>)
      modifies this`oneShot, this`previousMaster, this`lockedProgress, accumulator`phase
      ensures (Model(), theta) == PlayingStep(old(Model()), masterPhase, masterStart)
    {
      match mode {
        case Off =>
          theta := None;
        case Loop =>
          var phase, _ := accumulator.Step();
          theta := Some(phase);
        case OneShot =>
          if oneShot != Running {
            return None;
          }
          var phase, wrapped := accumulator.Step();
          if wrapped {
            oneShot := Idle;
            return None;
          }
          theta := Some(phase);
        case LockedLoop =>
          theta := Some(WrapAdd(WrapMul(masterPhase, multiplier), phaseOffset));
        case LockedOneShot =>
          if oneShot == Armed {
            if !masterStart {
              return None;
            }
            oneShot, previousMaster, lockedProgress := Running, masterPhase, 0;
          } else if oneShot == Running {
            var delta := WrapSub(masterPhase, previousMaster);
            previousMaster := masterPhase;
            TimesIsProduct(delta, multiplier);
            lockedProgress := SaturatingAdd64(lockedProgress, delta * multiplier);
            if lockedProgress >= TWO32 {
              oneShot := Idle;
              return None;
            }
          } else {
            return None;
          }
          theta := Some(WrapAdd(WrapMul(masterPhase, multiplier), phaseOffset));
      }
    }

    method Step(table: WaveTable, masterPhase: U32, masterStart: bool) returns (value: real)
      requires table.Valid()
      modifies this`oneShot, this`previousMaster, this`lockedProgress, accumulator`phase
      ensures Model() == PlayerStep(old(Model()), table.len, masterPhase, masterStart).0
      ensures value == match PlayerStep(old(Model()), table.len, masterPhase, masterStart).1
                       case None => 0.0
                       case Some(theta) => gain * Evaluate(table.Knots(), theta, interpolation)
    {
      if table.len < 2 {
        return 0.0;
      }
      var theta := NextAngle(masterPhase, masterStart);
      if theta == None {
        return 0.0;
      }
      var sample := table.EvaluateWith(theta.value, interpolation);
      value := gain * sample;
    }
  }

  /** State and audibility after a list of samples, given as (phase, period start) pairs. */
  function PlayerAfter(p: Player, len: nat, inputs: seq<(U32, bool)>): Player {
    if inputs == [] then p
    else
      var (phase, start) := inputs[|inputs| - 1];
      PlayerStep(PlayerAfter(p, len, inputs[..|inputs| - 1]), len, phase, start).0
  }

  /** The angle evaluated at sample `i` of a run, `None` when the sample is silent. */
  function AngleAt(p: Player, len: nat, inputs: seq<(U32, bool)>, i: nat): Option<U32>
    requires i < |inputs|
  {
    PlayerStep(PlayerAfter(p, len, inputs[..i]), len, inputs[i].0, inputs[i].1).1
  }

  // ---------------------------------------------------------------------------
  // Modes without an end
  // ---------------------------------------------------------------------------

  lemma {:induction false} LoopRun(p: Player, len: nat, inputs: seq<(U32, bool)>)
    requires len >= 2 && p.mode == Loop
    ensures
      var q := PlayerAfter(p, len, inputs);
      && q == p.(phase := q.phase) && q.phase as int == (p.phase as int + Times(|inputs|, p.increment)) % TWO32
  {
    if inputs != [] {
      var n := |inputs| - 1;
      LoopRun(p, len, inputs[..n]);
      ScaledAndShifted(p.phase as int + Times(n, p.increment), p.increment);
      hide WrapAdd;
    }
  }

  /** A looping table sounds at every sample, one increment further on round the turn, whatever
      the master does. */
  lemma LoopNeverEnds(p: Player, len: nat, inputs: seq<(U32, bool)>, i: nat)
    requires len >= 2 && p.mode == Loop && i < |inputs|
    ensures AngleAt(p, len, inputs, i) == Some((p.phase + (i + 1) * p.increment) % 0x1_0000_0000)
  {
    LoopRun(p, len, inputs[..i]);
    LoopRun(p, len, inputs[..i + 1]);
    assert inputs[..i + 1][..i] == inputs[..i];
    TimesIsProduct(i + 1, p.increment);
  }

  lemma {:induction false} LockedLoopRun(p: Player, len: nat, inputs: seq<(U32, bool)>)
    requires p.mode == LockedLoop || p.mode == Off || len < 2
    ensures PlayerAfter(p, len, inputs) == p
  {
    if inputs != [] { LockedLoopRun(p, len, inputs[..|inputs| - 1]); }
  }

  /** A locked loop sounds at every sample at a multiple of the master's phase plus an offset. */
  lemma LockedLoopFollows(p: Player, len: nat, inputs: seq<(U32, bool)>, i: nat)
    requires len >= 2 && p.mode == LockedLoop && i < |inputs|
    ensures AngleAt(p, len, inputs, i) == Some((inputs[i].0 * p.multiplier + p.phaseOffset) % 0x1_0000_0000)
  {
    LockedLoopRun(p, len, inputs[..i]);
    LockedAngleIs(p, inputs[i].0);
    hide LockedAngle;
  }

  lemma ScaledAndShifted(product: int, offset: U32)
    ensures WrapAdd(product % TWO32, offset) == (product + offset as int) % TWO32
  {
    WrapAddIsMod(product % TWO32, offset);
    SumOfRemainders(product, offset, TWO32);
  }

  lemma LockedAngleIs(p: Player, master: U32)
    ensures LockedAngle(p, master) == (master * p.multiplier + p.phaseOffset) % 0x1_0000_0000
  {
    ScaledAndShifted(master * p.multiplier, p.phaseOffset);
    hide WrapAdd;
  }

  /** Switched off, or with fewer than two knots, a player is silent and moves nothing. */
  lemma SilentWithoutTable(p: Player, len: nat, inputs: seq<(U32, bool)>, i: nat)
    requires (p.mode == Off || len < 2) && i < |inputs|
    ensures AngleAt(p, len, inputs, i) == None && PlayerAfter(p, len, inputs) == p
  {
    LockedLoopRun(p, len, inputs[..i]);
    LockedLoopRun(p, len, inputs);
  }

  /** A trigger does nothing but restart a free one-shot or arm a locked one. */
  lemma TriggerExactly(p: Player)
    ensures
      var t := Triggered(p);
      && (p.mode == OneShot ==> t == p.(phase := 0, oneShot := Running))
      && (p.mode == LockedOneShot ==> t == p.(oneShot := Armed))
      && (p.mode != OneShot && p.mode != LockedOneShot ==> t == p)
  {}

  // ---------------------------------------------------------------------------
  // Free one-shot
  // ---------------------------------------------------------------------------

  /** Where a free one-shot is after `n` samples, as a closed form. */
  ghost predicate FreeAt(p: Player, q: Player, n: nat) {
    var angle := Times(n, p.increment);
    && q.mode == OneShot
    && q.increment == p.increment
    && (angle < TWO32 ==> q.oneShot == Running && q.phase == angle)
    && (angle >= TWO32 ==> q.oneShot == Idle)
  }

  lemma {:induction false} FreeRun(p: Player, len: nat, inputs: seq<(U32, bool)>)
    requires len >= 2 && p.mode == OneShot && p.oneShot == Running && p.phase == 0
    ensures FreeAt(p, PlayerAfter(p, len, inputs), |inputs|)
  {
    if inputs != [] {
      var n := |inputs| - 1;
      FreeRun(p, len, inputs[..n]);
    }
  }

  /** A triggered one-shot sounds sample n exactly while n increments stay inside one
      turn, at the angle of n increments, and is silent for ever after. */
  lemma FreeOneShotPlaysOneTurn(p: Player, len: nat, inputs: seq<(U32, bool)>, i: nat)
    requires len >= 2 && p.mode == OneShot && i < |inputs|
    ensures AngleAt(Triggered(p), len, inputs, i)
         == if (i + 1) * p.increment < TWO32 then Some((i + 1) * p.increment) else None
  {
    TimesIsProduct(i + 1, p.increment);
    FreeRun(Triggered(p), len, inputs[..i]);
  }

  /** Number of samples that sound in a run. */
  function Sounding(p: Player, len: nat, inputs: seq<(U32, bool)>): nat {
    if inputs == [] then 0
    else
      var n := |inputs| - 1;
      Sounding(p, len, inputs[..n]) + (if AngleAt(p, len, inputs, n).Some? then 1 else 0)
  }

  function Ceiling(a: nat, b: nat): nat
    requires b > 0
  {
    (a + b - 1) / b
  }

  /** A triggered one-shot of increment i > 0 sounds ceil(2^32 / i) - 1 samples in all:
      every sample of a shorter run, and never more than that. */
  lemma {:induction false} FreeOneShotLength(p: Player, len: nat, inputs: seq<(U32, bool)>)
    requires len >= 2 && p.mode == OneShot && p.increment > 0
    ensures Sounding(Triggered(p), len, inputs)
         == if |inputs| < Ceiling(TWO32, p.increment) then |inputs| else Ceiling(TWO32, p.increment) - 1
  {
    CeilingBound(1, TWO32, p.increment);
    if inputs != [] {
      var n := |inputs| - 1;
      FreeOneShotLength(p, len, inputs[..n]);
      FreeOneShotPlaysOneTurn(p, len, inputs, n);
      forall i | 0 <= i < n ensures inputs[..n][..i] == inputs[..i] {}
      CeilingBound(n + 1, TWO32, p.increment);
      TimesIsProduct(n + 1, p.increment);
    }
  }

  lemma CeilingBound(n: nat, a: nat, b: nat)
    requires b > 0
    ensures Times(n, b) < a <==> n < Ceiling(a, b)
  {
    var c := Ceiling(a, b);
    assert c * b <= a + b - 1 < c * b + b;
    TimesIsProduct(c, b);
    if n < c {
      TimesMonotone(n + 1, c, b);
    } else {
      TimesMonotone(c, n, b);
    }
  }

  // ---------------------------------------------------------------------------
  // Locked one-shot
  // ---------------------------------------------------------------------------

  /** What the master generator feeds the player: its phase and its wrap flag, per sample. */
  function MasterInputs(start: U32, increments: seq<U32>): (inputs: seq<(U32, bool)>)
    ensures |inputs| == |increments|
  {
    seq(|increments|, i requires 0 <= i < |increments| =>
      (PhaseAfter(start, increments[..i + 1]),
       PhaseAfter(start, increments[..i]) as int + increments[i] >= TWO32))
  }

  /** Master advance, unwrapped and multiplied, since sample `first`. */
  function LockedAdvance(multiplier: U32, increments: seq<U32>, first: nat, i: nat): nat
    requires first <= i < |increments|
  {
    Times(Total(increments[first + 1..i + 1]), multiplier)
  }

  lemma LockedAdvanceIsProduct(multiplier: U32, increments: seq<U32>, first: nat, i: nat)
    requires first <= i < |increments|
    ensures LockedAdvance(multiplier, increments, first, i)
         == Total(increments[first + 1..i + 1]) * multiplier
  {
    TimesIsProduct(Total(increments[first + 1..i + 1]), multiplier);
  }

  /** Where a locked one-shot that started at `first` is after sample `i`. */
  ghost predicate LockedAt(p: Player, q: Player, start: U32, increments: seq<U32>, first: nat, i: nat)
    requires first <= i < |increments|
  {
    var advance := LockedAdvance(p.multiplier, increments, first, i);
    && q.mode == LockedOneShot
    && q.multiplier == p.multiplier
    && q.phaseOffset == p.phaseOffset
    && (advance < TWO32 ==>
          && q.oneShot == Running
          && q.previousMaster == PhaseAfter(start, increments[..i + 1])
          && q.lockedProgress == advance)
    && (advance >= TWO32 ==> q.oneShot == Idle)
  }

  /** `first` is the sample of the first period start, or the length when there is none. */
  ghost predicate IsFirstStart(inputs: seq<(U32, bool)>, first: nat) {
    && first <= |inputs|
    && (first < |inputs| ==> inputs[first].1)
    && (forall i :: 0 <= i < first ==> !inputs[i].1)
  }

  function FirstStart(inputs: seq<(U32, bool)>): (first: nat)
    ensures IsFirstStart(inputs, first)
  {
    if inputs == [] || inputs[0].1 then 0 else 1 + FirstStart(inputs[1..])
  }

  lemma AfterOneMore(p: Player, len: nat, inputs: seq<(U32, bool)>, i: nat)
    requires i < |inputs|
    ensures PlayerAfter(p, len, inputs[..i + 1])
         == PlayerStep(PlayerAfter(p, len, inputs[..i]), len, inputs[i].0, inputs[i].1).0
  {
    assert inputs[..i + 1][..i] == inputs[..i];
  }

  lemma {:induction false} ArmedWaits(p: Player, len: nat, inputs: seq<(U32, bool)>)
    requires p.mode == LockedOneShot && p.oneShot == Armed
    requires forall i :: 0 <= i < |inputs| ==> !inputs[i].1
    ensures PlayerAfter(p, len, inputs) == p
  {
    if inputs != [] {
      ArmedWaits(p, len, inputs[..|inputs| - 1]);
    }
  }

  /** The word difference of two consecutive master phases is the increment between them. */
  lemma MasterDelta(phase: U32, increment: U32)
    ensures WrapSub(WrapAdd(phase, increment), phase) == increment
  {
  }

  /** Unwrapped progress cannot saturate its 64-bit counter before the one-shot ends. */
  lemma ProgressNeverSaturates(progress: nat, delta: U32, multiplier: U32)
    requires progress < TWO32
    ensures SaturatingAdd64(progress, Times(delta, multiplier)) == progress + Times(delta, multiplier)
  {
    TimesIsProduct(delta, multiplier);
    MulUpTo(delta, TWO32 - 1, multiplier);
    MulUpTo(multiplier, TWO32 - 1, TWO32 - 1);
  }

  lemma {:induction false} LockedRun(
    p: Player, len: nat, start: U32, increments: seq<U32>, inputs: seq<(U32, bool)>, first: nat, i: nat)
    requires len >= 2 && p.mode == LockedOneShot && p.oneShot == Armed
    requires inputs == MasterInputs(start, increments) && IsFirstStart(inputs, first)
    requires first <= i < |increments|
    ensures LockedAt(p, PlayerAfter(p, len, inputs[..i + 1]), start, increments, first, i)
    decreases i
  {
    AfterOneMore(p, len, inputs, i);
    if i == first {
      ArmedWaits(p, len, inputs[..i]);
      LockedFirst(p, len, start, increments, first);
    } else {
      LockedRun(p, len, start, increments, inputs, first, i - 1);
      LockedSample(p, PlayerAfter(p, len, inputs[..i]), len, start, increments, first, i, inputs[i].1);
    }
  }

  /** The first period start sounds and begins the count of progress. */
  lemma LockedFirst(p: Player, len: nat, start: U32, increments: seq<U32>, first: nat)
    requires len >= 2 && p.mode == LockedOneShot && p.oneShot == Armed && first < |increments|
    ensures LockedAdvance(p.multiplier, increments, first, first) == 0
    ensures
      var phase := PhaseAfter(start, increments[..first + 1]);
      var (next, angle) := PlayerStep(p, len, phase, true);
      LockedAt(p, next, start, increments, first, first) && angle == Some(LockedAngle(p, phase))
  {
    assert increments[first + 1..first + 1] == [];
  }

  /** The next sample's advance adds one multiplied increment. */
  lemma LockedAdvanceStep(multiplier: U32, increments: seq<U32>, first: nat, i: nat)
    requires first < i < |increments|
    ensures LockedAdvance(multiplier, increments, first, i)
         == LockedAdvance(multiplier, increments, first, i - 1) + Times(increments[i], multiplier)
  {
    var before := increments[first + 1..i];
    assert increments[first + 1..i + 1] == before + [increments[i]];
    assert (before + [increments[i]])[..|before|] == before;
    TimesSum(Total(before), increments[i], multiplier);
  }

  /** One sample of a locked one-shot keeps the closed form, and sounds while it lasts. */
  lemma LockedSample(
    p: Player, q: Player, len: nat, start: U32, increments: seq<U32>, first: nat, i: nat, flag: bool)
    requires len >= 2 && first < i < |increments|
    requires LockedAt(p, q, start, increments, first, i - 1)
    ensures
      var (next, angle) := PlayerStep(q, len, PhaseAfter(start, increments[..i + 1]), flag);
      && LockedAt(p, next, start, increments, first, i)
      && angle == if LockedAdvance(p.multiplier, increments, first, i) < TWO32
                  then Some(LockedAngle(p, PhaseAfter(start, increments[..i + 1])))
                  else None
  {
    LockedAdvanceStep(p.multiplier, increments, first, i);
    assert increments[..i + 1][..i] == increments[..i];
    if q.oneShot == Running {
      MasterDelta(PhaseAfter(start, increments[..i]), increments[i]);
      ProgressNeverSaturates(q.lockedProgress, increments[i], p.multiplier);
    }
  }

  /** A triggered locked one-shot is silent until the first period start, then sounds every
      sample until the multiplied, unwrapped master advance reaches one turn, then stays
      silent: audibility at sample i is decided by the exact advance alone. */
  lemma LockedOneShotPlaysOneTurn(
    p: Player, len: nat, start: U32, increments: seq<U32>, first: nat, i: nat)
    requires len >= 2 && p.mode == LockedOneShot && i < |increments|
    requires IsFirstStart(MasterInputs(start, increments), first)
    ensures AngleAt(Triggered(p), len, MasterInputs(start, increments), i)
         == if first <= i && LockedAdvance(p.multiplier, increments, first, i) < TWO32
            then Some((PhaseAfter(start, increments[..i + 1]) * p.multiplier + p.phaseOffset) % 0x1_0000_0000)
            else None
  {
    LockedAngleIs(p, PhaseAfter(start, increments[..i + 1]));
    AudibleWhile(p, len, start, increments, first, i);
    hide *;
  }

  lemma AudibleWhile(p: Player, len: nat, start: U32, increments: seq<U32>, first: nat, i: nat)
    requires len >= 2 && p.mode == LockedOneShot && i < |increments|
    requires IsFirstStart(MasterInputs(start, increments), first)
    ensures AngleAt(Triggered(p), len, MasterInputs(start, increments), i)
         == if first <= i && LockedAdvance(p.multiplier, increments, first, i) < TWO32
            then Some(LockedAngle(p, PhaseAfter(start, increments[..i + 1])))
            else None
  {
    hide PlayerStep, PlayerAfter, Triggered, MasterInputs, LockedAt, IsFirstStart, Times, Total;
    var inputs := MasterInputs(start, increments);
    var armed := Triggered(p);
    TriggeredIsArmed(p);
    if i < first {
      SilentWhileArmed(armed, len, inputs, first, i);
    } else if i == first {
      FirstSample(armed, len, start, increments, first);
    } else {
      LockedRun(armed, len, start, increments, inputs, first, i - 1);
      InputAt(start, increments, i);
      LockedSample(armed, PlayerAfter(armed, len, inputs[..i]), len, start, increments, first, i, inputs[i].1);
    }
  }

  lemma TriggeredIsArmed(p: Player)
    requires p.mode == LockedOneShot
    ensures
      var armed := Triggered(p);
      && armed.mode == LockedOneShot && armed.oneShot == Armed
      && armed.multiplier == p.multiplier && armed.phaseOffset == p.phaseOffset
  {}

  lemma InputAt(start: U32, increments: seq<U32>, i: nat)
    requires i < |increments|
    ensures MasterInputs(start, increments)[i].0 == PhaseAfter(start, increments[..i + 1])
  {}

  lemma SilentWhileArmed(p: Player, len: nat, inputs: seq<(U32, bool)>, first: nat, i: nat)
    requires p.mode == LockedOneShot && p.oneShot == Armed
    requires i < first && IsFirstStart(inputs, first)
    ensures AngleAt(p, len, inputs, i) == None
  {
    ArmedWaits(p, len, inputs[..i]);
  }

  lemma FirstSample(p: Player, len: nat, start: U32, increments: seq<U32>, first: nat)
    requires len >= 2 && p.mode == LockedOneShot && p.oneShot == Armed && first < |increments|
    requires IsFirstStart(MasterInputs(start, increments), first)
    ensures LockedAdvance(p.multiplier, increments, first, first) == 0
    ensures AngleAt(p, len, MasterInputs(start, increments), first)
         == Some(LockedAngle(p, PhaseAfter(start, increments[..first + 1])))
  {
    hide PlayingStep, Times, Total;
    var inputs := MasterInputs(start, increments);
    ArmedWaits(p, len, inputs[..first]);
    LockedFirst(p, len, start, increments, first);
  }
}
