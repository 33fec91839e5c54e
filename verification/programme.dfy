/** The standard programme as core 1 runs it: it owns the generator and the player and reads
    the active endpoints of the three buffers. */
module Programmes {
  import opened Words
  import opened Floats
  import opened Commands
  import opened TableBuffer
  import opened Params
  import opened StandardProgram
  import Harmonics
  import Table

  /** Coefficients of a bank in wire order, as the real numbers they stand for. */
  function CoeffsOf(bank: Bank, h: nat): (c: Harmonics.FourierCoeffs)
    requires |bank.cells| == 1 + 2 * h
    ensures c.Has(h)
  {
    Harmonics.FourierCoeffs(
      RealOf(bank.cells[0]),
      seq(h, k requires 0 <= k < h => RealOf(bank.cells[1 + k])),
      seq(h, k requires 0 <= k < h => RealOf(bank.cells[1 + h + k])))
  }

  /** What the control policy sees of the programme in one sample. */
  datatype Signals = Signals(target: real, forcing: real, table: real, phase: U32, increment: U32)

  function Knots(bank: Bank): (knots: seq<real>)
    requires bank.len <= |bank.cells|
    ensures |knots| == bank.len
  {
    seq(bank.len, i requires 0 <= i < bank.len => RealOf(bank.cells[i]))
  }

  /** The table's contribution to one sample. */
  function Sounded(p: Table.Player, bank: Bank, phase: U32, start: bool): real
    requires bank.len <= |bank.cells|
  {
    match Table.PlayerStep(p, bank.len, phase, start).1
    case None => 0.0
    case Some(theta) => p.gain * Table.Evaluate(Knots(bank), theta, p.interpolation)
  }

  class Programme {
    const h: nat
    const generator: Harmonics.HarmonicGenerator
    const player: Table.TablePlayer
    const targetCoeffs: DoubleBuffer<Bank>
    const forcingCoeffs: DoubleBuffer<Bank>
    const activeTable: DoubleBuffer<Bank>
    var nominalIncrement: U32
    var frequencyOverridden: bool
    var control: seq<U32>
    var rig: seq<U32>
    var tableLen: nat
    var target: real
    var forcing: real
    var tableSample: real
    var output: real

    ghost function Parts(): set<object> {
      { generator, generator.accumulator, generator.cos, generator.sin, player, player.accumulator }
    }

    ghost function Shared(): set<object> {
      { targetCoeffs, forcingCoeffs, activeTable, targetCoeffs.banks, forcingCoeffs.banks, activeTable.banks }
    }

    ghost predicate Valid()
      reads this, Parts(), Shared()
    {
      && this !in Parts() && this !in Shared()
      && player.accumulator != generator.accumulator
      && generator.h == h && generator.Valid()
      && targetCoeffs.identity == TARGET && forcingCoeffs.identity == FORCING && activeTable.identity == TABLE
      && targetCoeffs != forcingCoeffs && targetCoeffs != activeTable && forcingCoeffs != activeTable
      && targetCoeffs.Valid() && forcingCoeffs.Valid() && activeTable.Valid()
    }

    /** Core 1's whole state, with the buffers it shares with core 0. */
    ghost function Model(): Core
      reads this, Parts(), Shared()
    {
      Core(Program(generator.accumulator.phase, generator.accumulator.increment, nominalIncrement,
                   frequencyOverridden, player.Model(), control, rig, tableLen),
           [targetCoeffs.Model(), forcingCoeffs.Model(), activeTable.Model()])
    }

    constructor (h: nat, controlDefaults: seq<U32>, rigDefaults: seq<U32>,
                 target: DoubleBuffer<Bank>, forcing: DoubleBuffer<Bank>, table: DoubleBuffer<Bank>)
      requires target.identity == TARGET && forcing.identity == FORCING && table.identity == TABLE
      requires target != forcing && target != table && forcing != table
      requires target.Valid() && forcing.Valid() && table.Valid()
      ensures Valid() && this.h == h && fresh(Parts())
      ensures targetCoeffs == target && forcingCoeffs == forcing && activeTable == table
      ensures Model() == Core(Program(0, 0, 0, false, Table.NEW_PLAYER, controlDefaults, rigDefaults, 0),
                              [target.Model(), forcing.Model(), table.Model()])
    {
      this.h := h;
      generator := new Harmonics.HarmonicGenerator(h);
      player := new Table.TablePlayer();
      targetCoeffs, forcingCoeffs, activeTable := target, forcing, table;
      nominalIncrement, frequencyOverridden := 0, false;
      control, rig, tableLen := controlDefaults, rigDefaults, 0;
      this.target, this.forcing, tableSample, output := 0.0, 0.0, 0.0, 0.0;
    }

    /** Apply one queued command between samples. */
    method Apply(c: RtCommand)
      requires Valid()
      modifies this, player, player.accumulator, generator.accumulator
      modifies targetCoeffs, forcingCoeffs, activeTable
      ensures Valid() && Model() == Applied(old(Model()), c)
    {
      match c.payload {
        case Buffer(token) => ApplyToken(c, token);
        case _ => ApplyScalar(c);
      }
    }

    method ApplyToken(c: RtCommand, token: CommitToken)
      requires Valid() && c.payload == Buffer(token)
      modifies this, targetCoeffs, forcingCoeffs, activeTable
      ensures Valid() && Model() == Applied(old(Model()), c)
    {
      ghost var before := Model();
      if (c.domain, c.id) == (DOMAIN_GENERATOR, GENERATOR_SET_TARGET) {
        targetCoeffs.Activate(token);
      } else if (c.domain, c.id) == (DOMAIN_GENERATOR, GENERATOR_SET_FORCING) {
        forcingCoeffs.Activate(token);
      } else if (c.domain, c.id) == (DOMAIN_TABLE, TABLE_ACTIVATE) {
        activeTable.Activate(token);
        var table := activeTable.Get();
        tableLen := table.len;
      }
      assert Model().bufs == Applied(before, c).bufs;
    }

    method ApplyScalar(c: RtCommand)
      requires Valid() && !c.payload.Buffer?
      modifies this, player, player.accumulator, generator.accumulator
      ensures Valid() && Model() == Applied(old(Model()), c)
    {
      hide RealOf, Table.InterpolationFrom, Table.ModeFrom, Table.Triggered;
      if c.domain == DOMAIN_GENERATOR {
        if c.id == GENERATOR_SET_INCREMENT && c.payload.Word? {
          nominalIncrement := c.payload.value;
          if !frequencyOverridden {
            generator.accumulator.SetIncrement(c.payload.value);
          }
        }
      } else if c.domain == DOMAIN_TABLE {
        ApplyToPlayer(c);
      } else if c.domain == DOMAIN_CONTROLLER {
        if c.payload.F32? && c.id < |control| {
          control := control[c.id := c.payload.bits];
        }
      } else if c.domain == DOMAIN_RIG {
        if c.payload.F32? && c.id < |rig| {
          rig := rig[c.id := c.payload.bits];
        }
      }
    }

    method ApplyToPlayer(c: RtCommand)
      requires Valid() && !c.payload.Buffer?
      modifies player, player.accumulator
      ensures Valid() && Model() == old(Model()).(program := old(Model()).program.(player := PlayerApplied(old(player.Model()), c)))
    {
      hide RealOf, Table.Triggered;
      match c.payload {
        case Word(value) =>
          if c.id == TABLE_SET_INCREMENT {
            player.SetIncrement(value);
          } else if c.id == TABLE_SET_INTERPOLATION {
            var interpolation := Table.InterpolationFrom(value);
            if interpolation.Some? {
              player.SetInterpolation(interpolation.value);
            }
          } else if c.id == TABLE_SET_MODE {
            var mode := Table.ModeFrom(value);
            if mode.Some? {
              player.SetMode(mode.value);
            }
          } else if c.id == TABLE_SET_MULTIPLIER {
            player.SetMultiplier(value);
          } else if c.id == TABLE_SET_PHASE {
            player.SetPhaseOffset(value);
          }
        case F32(bits) =>
          if c.id == TABLE_SET_GAIN {
            player.SetGain(RealOf(bits));
          }
        case Unit =>
          if c.id == TABLE_TRIGGER {
            player.Trigger();
          }
      }
    }
  
    /** Advance the generator and project both coefficient sets on the frame it made. */
    method Generate(lut: Harmonics.SinLut) returns (reference: real, excitation: real)
      requires Valid()
      requires |targetCoeffs.Model().Get().cells| == |forcingCoeffs.Model().Get().cells| == 1 + 2 * h
      modifies generator, generator.accumulator`phase, generator.cos, generator.sin
      ensures Valid()
      ensures
        var phase := WrapAdd(old(generator.accumulator.phase), generator.accumulator.increment);
        && generator.phase == generator.accumulator.phase == phase
        && generator.periodStart == (old(generator.accumulator.phase) as int + generator.accumulator.increment >= TWO32)
        && reference == Harmonics.PartialSeries(CoeffsOf(targetCoeffs.Model().Get(), h), lut, phase, h)
        && excitation == Harmonics.PartialSeries(CoeffsOf(forcingCoeffs.Model().Get(), h), lut, phase, h)
    {
      hide RealOf, Harmonics.PartialSeries, CoeffsOf;
      generator.Step(lut);
      var targetBank := targetCoeffs.Get();
      var forcingBank := forcingCoeffs.Get();
      reference := generator.Project(CoeffsOf(targetBank, h), lut);
      excitation := generator.Project(CoeffsOf(forcingBank, h), lut);
    }

    /** The player's part of a sample, with whatever table is active. */
    method Play() returns (sample: real)
      requires Valid() && activeTable.Model().Get().len <= |activeTable.Model().Get().cells|
      modifies player, player.accumulator
      ensures Valid()
      ensures
        var bank := activeTable.Model().Get();
        && player.Model() == Table.PlayerStep(old(player.Model()), bank.len, generator.phase, generator.periodStart).0
        && sample == Sounded(old(player.Model()), bank, generator.phase, generator.periodStart)
    {
      hide RealOf, Table.PlayingStep, Table.Evaluate, Knots;
      PlayingKeepsSound(player.Model(), generator.phase, generator.periodStart);
      var table := activeTable.Get();
      if table.len < 2 {
        return 0.0;
      }
      var theta := player.NextAngle(generator.phase, generator.periodStart);
      if theta.None? {
        return 0.0;
      }
      sample := player.gain * Table.Evaluate(Knots(table), theta.value, player.interpolation);
    }

    /** One sample: generate, play, let the control decide, and choose the next increment. */
    method Step(lut: Harmonics.SinLut, outputEnabled: bool, policy: Signals -> ControlStep)
      requires Valid()
      requires |targetCoeffs.Model().Get().cells| == |forcingCoeffs.Model().Get().cells| == 1 + 2 * h
      requires activeTable.Model().Get().len <= |activeTable.Model().Get().cells|
      modifies this, generator, generator.accumulator, generator.cos, generator.sin, player, player.accumulator
      ensures Valid()
      ensures
        var phase := WrapAdd(old(generator.accumulator.phase), old(generator.accumulator.increment));
        var start := old(generator.accumulator.phase) as int + old(generator.accumulator.increment) >= TWO32;
        var decided := policy(Signals(target, forcing, tableSample, phase, old(generator.accumulator.increment)));
        && Model() == old(Model()).(program :=
             Stepped(old(Model()).program, activeTable.Model().Get().len, outputEnabled, decided))
        && target == Harmonics.PartialSeries(CoeffsOf(targetCoeffs.Model().Get(), h), lut, phase, h)
        && forcing == Harmonics.PartialSeries(CoeffsOf(forcingCoeffs.Model().Get(), h), lut, phase, h)
        && tableSample == Sounded(old(player.Model()), activeTable.Model().Get(), phase, start)
        && output == if outputEnabled then decided.output else 0.0
    {
      hide Harmonics.PartialSeries, CoeffsOf, Sounded, Table.PlayerStep;
      var currentIncrement := generator.accumulator.increment;
      var reference, excitation := Generate(lut);
      var sample := Play();
      var decided := policy(Signals(reference, excitation, sample, generator.phase, currentIncrement));
      target, forcing, tableSample := reference, excitation, sample;
      Decide(outputEnabled, decided);
    }

    /** Take the control's decision, which reaches nothing while the output is disabled. */
    method Decide(outputEnabled: bool, decided: ControlStep)
      requires Valid()
      modifies this`frequencyOverridden, this`output, generator.accumulator`increment
      ensures Valid()
      ensures frequencyOverridden == (outputEnabled && decided.nextIncrement.Some?)
      ensures generator.accumulator.increment
           == if outputEnabled && decided.nextIncrement.Some? then decided.nextIncrement.value else nominalIncrement
      ensures output == if outputEnabled then decided.output else 0.0
    {
      frequencyOverridden := outputEnabled && decided.nextIncrement.Some?;
      generator.accumulator.SetIncrement(
        if outputEnabled && decided.nextIncrement.Some? then decided.nextIncrement.value else nominalIncrement);
      output := if outputEnabled then decided.output else 0.0;
    }
  }

  lemma PlayingKeepsSound(p: Table.Player, phase: U32, start: bool)
    ensures
      var after := Table.PlayingStep(p, phase, start).0;
      after.gain == p.gain && after.interpolation == p.interpolation
  {}
}
