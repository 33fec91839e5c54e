/** What a host write means, parameter by parameter, in the host's own terms: the index it
    addresses, the bytes it sends, hertz and turns. */
module HostWrites {
  import opened Wrappers
  import opened Words
  import opened Floats
  import opened Commands
  import opened Params
  import opened Phase
  import Table

  /** The word four bytes spell, the first being the least significant. */
  function Spelled(data: seq<Byte>): int
    requires |data| == 4
  {
    var a: int, b: int, c: int, d: int := data[0], data[1], data[2], data[3];
    a + 256 * b + 65536 * c + 16777216 * d
  }

  lemma SpelledIsLe32(data: seq<Byte>)
    requires |data| == 4
    ensures FromLe32(data) == Spelled(data)
  {}

  /** Neither an infinity nor a NaN. */
  predicate Number(word: int) { word % 0x8000_0000 < 0x7F80_0000 }

  // ---------------------------------------------------------------------------
  // Where the parameters are
  // ---------------------------------------------------------------------------

  lemma Bases(cfg: Config)
    ensures
      var defs := Defs(cfg);
      && |defs| == 6 && Base(defs, 0) == 0 && Base(defs, 1) == 21 && Base(defs, 2) == 24 && Base(defs, 3) == 32
      && Base(defs, 4) == 32 + |cfg.controlDefaults|
      && Base(defs, 5) == 32 + |cfg.controlDefaults| + |cfg.rigDefaults|
      && Base(defs, 6) == 32 + |cfg.controlDefaults| + |cfg.rigDefaults| + cfg.telemetry
  {
    var defs := Defs(cfg);
    assert |defs[0]| == 21 && |defs[1]| == 3 && |defs[2]| == 8;
    hide Defs;
    assert Base(defs, 2) == Base(defs, 1) + |defs[1]|;
    assert Base(defs, 4) == Base(defs, 3) + |defs[3]|;
    assert Base(defs, 6) == Base(defs, 5) + |defs[5]|;
  }

  /** The parameter `id` of group `g` is found at this index. */
  lemma FoundAt(cfg: Config, g: nat, id: nat, index: nat)
    requires g < 6 && id < |Defs(cfg)[g]| && index == Base(Defs(cfg), g) + id
    ensures Located(Defs(cfg), index) == Some((g, id))
  {
    hide Base, Located;
    LocatedIs(Defs(cfg), g, id);
  }

  lemma WriteAt(cfg: Config, g: nat, id: nat, index: nat, data: seq<Byte>)
    requires cfg.Ok() && g < 6 && id < |Defs(cfg)[g]| && index == Base(Defs(cfg), g) + id
    ensures
      PlanFor(cfg, Set(index, data))
      == if !Defs(cfg)[g][id].writable then Refuse(ReadOnly)
         else if |data| != Defs(cfg)[g][id].bytes then Refuse(BadLength)
         else GroupPlan(cfg, g, id, data)
  {
    hide Defs, Base, Located, GroupPlan;
    FoundAt(cfg, g, id, index);
  }

  // ---------------------------------------------------------------------------
  // Frequencies
  // ---------------------------------------------------------------------------

  /** A frequency is refused unless it is a number, not negative and below half the sample
      rate; otherwise one command carries, to within half a quantum, the turns it makes in a
      sample. */
  ghost predicate IsFrequencyWrite(cfg: Config, data: seq<Byte>, plan: Plan, domain: nat, id: nat)
    requires cfg.Ok()
  {
    if |data| != 4 then plan == Refuse(BadLength)
    else
      var word: int := Spelled(data);
      if !Number(word) || RealOf(word) < 0.0 || 2.0 * RealOf(word) >= cfg.hz then plan == Refuse(BadValue)
      else
        && plan.Send? && plan.command.domain == domain && plan.command.id == id && plan.command.payload.Word?
        && NearestQuantum(plan.command.payload.value, RealOf(word), cfg.hz)
  }

  lemma IncrementIsNearest(cfg: Config, bits: U32)
    requires cfg.Ok()
    ensures InBand(cfg, bits) <==> Number(bits) && RealOf(bits) >= 0.0 && 2.0 * RealOf(bits) < cfg.hz
    ensures InBand(cfg, bits) ==> NearestQuantum(Increment(cfg, bits), RealOf(bits), cfg.hz)
  {
    hide RealOf;
    FiniteExactly(bits);
    hide IsFinite;
  }

  /** The generator's frequency is parameter 21 and the table's is parameter 25. */
  lemma FrequencyWrites(cfg: Config, data: seq<Byte>)
    requires cfg.Ok()
    ensures IsFrequencyWrite(cfg, data, PlanFor(cfg, Set(21, data)), 1, 0)
    ensures IsFrequencyWrite(cfg, data, PlanFor(cfg, Set(25, data)), 2, 1)
    ensures |data| == 4 && PlanFor(cfg, Set(21, data)).Send? ==>
      PlanFor(cfg, Set(21, data)).update == Frequency(Spelled(data))
    ensures |data| == 4 && PlanFor(cfg, Set(25, data)).Send? ==>
      PlanFor(cfg, Set(25, data)).update == TableFrequency(Spelled(data))
  {
    Bases(cfg);
    WriteAt(cfg, GENERATOR, 0, 21, data);
    WriteAt(cfg, TABLES, 1, 25, data);
    hide PlanFor, Base, Located, RealOf, IsFinite, Number, Increment, InBand;
    if |data| == 4 {
      SpelledIsLe32(data);
      IncrementIsNearest(cfg, FromLe32(data));
      hide FromLe32, Spelled;
    }
  }

  // ---------------------------------------------------------------------------
  // The platform
  // ---------------------------------------------------------------------------

  ghost predicate AnyNonZero(data: seq<Byte>) { exists i :: 0 <= i < |data| && data[i] != 0 }

  lemma ZeroWord(data: seq<Byte>)
    requires |data| == 4
    ensures FromLe32(data) != 0 <==> AnyNonZero(data)
    ensures FromLe32(data) == 0x5245_4254 <==> data == [0x54, 0x42, 0x45, 0x52]
  {
    SpelledIsLe32(data);
    hide FromLe32;
    if FromLe32(data) != 0 {
      assert data[0] != 0 || data[1] != 0 || data[2] != 0 || data[3] != 0;
    }
  }

  /** Of the first 21 parameters three can be written: 15 resets the diagnostics, 17 arms for
      anything but zero and disarms for zero, and 19 reboots for the four letters TBER and
      nothing else. */
  lemma PlatformWrites(cfg: Config, index: nat, data: seq<Byte>)
    requires cfg.Ok() && index < 21
    ensures
      var plan := PlanFor(cfg, Set(index, data));
      if index != 15 && index != 17 && index != 19 then plan == Refuse(ReadOnly)
      else if |data| != 4 then plan == Refuse(BadLength)
      else if index == 15 then plan == Local(if AnyNonZero(data) then ResetDiagnostics else NoEffect)
      else if index == 17 then plan == Local(Arm(AnyNonZero(data)))
      else plan == if data == [0x54, 0x42, 0x45, 0x52] then Local(Reboot) else Refuse(BadValue)
  {
    Bases(cfg);
    WriteAt(cfg, PLATFORM, index, index, data);
    if |data| == 4 { ZeroWord(data); }
    hide PlanFor, Base, Located, FromLe32, AnyNonZero;
  }

  // ---------------------------------------------------------------------------
  // Coefficients
  // ---------------------------------------------------------------------------

  /** A coefficient vector is refused unless it has a mean and two words for every harmonic,
      all numbers; otherwise its words, in order, are staged. */
  ghost predicate IsVectorWrite(cfg: Config, data: seq<Byte>, plan: Plan, k: nat, allowed: seq<U32> -> bool)
    requires cfg.Ok()
  {
    if |data| != 4 * (1 + 2 * cfg.harmonics) then plan == Refuse(BadLength)
    else
      var cells := WordsOf(data);
      if (exists i :: 0 <= i < |cells| && !Number(cells[i])) || !allowed(cells) then plan == Refuse(BadValue)
      else plan.Stage? && plan.k == k && BytesOf(plan.cells) == data
  }

  lemma AllNumbers(cells: seq<U32>)
    ensures AllFinite(cells) <==> !exists i :: 0 <= i < |cells| && !Number(cells[i])
  {
    forall i | 0 <= i < |cells| ensures IsFinite(cells[i]) <==> Number(cells[i]) { FiniteExactly(cells[i]); }
    hide IsFinite, Number;
  }

  /** The target coefficients are parameter 22 and the forcing ones, which have a bound of
      their own, parameter 23. */
  lemma VectorWrites(cfg: Config, data: seq<Byte>)
    requires cfg.Ok()
    ensures IsVectorWrite(cfg, data, PlanFor(cfg, Set(22, data)), 0, cells => true)
    ensures IsVectorWrite(cfg, data, PlanFor(cfg, Set(23, data)), 1, cfg.forcingAllowed)
  {
    Bases(cfg);
    WriteAt(cfg, GENERATOR, 1, 22, data);
    WriteAt(cfg, GENERATOR, 2, 23, data);
    hide PlanFor, Base, Located, AllFinite, Number;
    if |data| == 4 * (1 + 2 * cfg.harmonics) {
      AllNumbers(WordsOf(data));
      BytesRoundTrip(data);
      hide WordsOf, BytesOf;
    }
  }

  // ---------------------------------------------------------------------------
  // Table playback
  // ---------------------------------------------------------------------------

  /** Gain is any number; interpolation is numbered 0 or 1, the mode 0 to 4, the multiple of
      the master is not zero, the offset is a fraction of a turn, and any trigger but zero
      triggers. Each travels to the table under its own number. */
  ghost predicate IsTableWrite(index: nat, word: int, plan: Plan)
    requires 26 <= index <= 31 && 0 <= word < TWO32
  {
    match index
    case 26 => plan == if Number(word) then Send(RtCommand(2, 2, F32(word)), Gain(word)) else Refuse(BadValue)
    case 27 => plan == if word <= 1 then Send(RtCommand(2, 3, Word(word)), Interpolation(word)) else Refuse(BadValue)
    case 28 => plan == if word <= 4 then Send(RtCommand(2, 4, Word(word)), Mode(word)) else Refuse(BadValue)
    case 29 => plan == if word > 0 then Send(RtCommand(2, 5, Word(word)), Multiplier(word)) else Refuse(BadValue)
    case 30 =>
      if !Number(word) || RealOf(word) < 0.0 || RealOf(word) >= 1.0 then plan == Refuse(BadValue)
      else
        && plan.Send? && plan.update == PhaseOffset(word) && plan.command.domain == 2 && plan.command.id == 6
        && plan.command.payload.Word?
        && var offset := plan.command.payload.value as real;
           offset <= RealOf(word) * 4294967296.0 < offset + 1.0
    case _ => plan == if word == 0 then Local(NoEffect) else Send(RtCommand(2, 7, Unit), Nothing)
  }

  /** The table's own words are written in blocks only; its settings are parameters 25 to 31. */
  lemma TableWrites(cfg: Config, index: nat, data: seq<Byte>)
    requires cfg.Ok() && 24 <= index <= 31 && index != 25
    ensures
      var plan := PlanFor(cfg, Set(index, data));
      if index == 24 || |data| != 4 then plan == Refuse(BadLength)
      else IsTableWrite(index, Spelled(data), plan)
  {
    Bases(cfg);
    WriteAt(cfg, TABLES, index - 24, index, data);
    hide PlanFor, Base, Located, RealOf, IsFinite, Number;
    if |data| == 4 {
      SpelledIsLe32(data);
      NumberExactly(FromLe32(data));
      hide FromLe32, Spelled;
    }
  }

  lemma NumberExactly(bits: U32)
    ensures IsFinite(bits) <==> Number(bits)
  {
    FiniteExactly(bits);
  }

  /** Tokens of the target, forcing and table buffers travel under these addresses. */
  lemma TokenAddresses(token: CommitToken)
    ensures TokenCommand(0, token) == RtCommand(1, 1, Buffer(token))
    ensures TokenCommand(1, token) == RtCommand(1, 2, Buffer(token))
    ensures TokenCommand(2, token) == RtCommand(2, 0, Buffer(token))
  {}

  // ---------------------------------------------------------------------------
  // Controller and rig scalars
  // ---------------------------------------------------------------------------

  /** A scalar is refused as its owner decides, or sent as its owner rounds it. */
  ghost predicate IsScalarWrite(
    data: seq<Byte>, plan: Plan, domain: nat, id: nat, normalise: (nat, U32) -> Option<U32>)
  {
    if |data| != 4 then plan == Refuse(BadLength)
    else
      match normalise(id, Spelled(data))
      case None => plan == Refuse(BadValue)
      case Some(value) =>
        && plan.Send? && plan.command == RtCommand(domain, id, F32(value))
        && plan.update == if domain == 3 then ControlScalar(id, value) else RigScalar(id, value)
  }

  /** The controller's scalars begin at parameter 32, the rig's follow, and the telemetry
      behind them cannot be written. */
  lemma ScalarWrites(cfg: Config, id: nat, data: seq<Byte>)
    requires cfg.Ok()
    ensures
      var c, r := |cfg.controlDefaults|, |cfg.rigDefaults|;
      && (id < c ==> IsScalarWrite(data, PlanFor(cfg, Set(32 + id, data)), 3, id, cfg.normaliseControl))
      && (id < r ==> IsScalarWrite(data, PlanFor(cfg, Set(32 + c + id, data)), 0, id, cfg.normaliseRig))
      && (id < cfg.telemetry ==> PlanFor(cfg, Set(32 + c + r + id, data)) == Refuse(ReadOnly))
      && (id >= cfg.telemetry ==> PlanFor(cfg, Set(32 + c + r + id, data)) == Refuse(BadIndex))
  {
    hide PlanFor, IsScalarWrite;
    var c, r := |cfg.controlDefaults|, |cfg.rigDefaults|;
    if id < c { ControlWrite(cfg, id, data); }
    if id < r { RigWrite(cfg, id, data); }
    BehindTheScalars(cfg, id, data);
  }

  lemma ControlWrite(cfg: Config, id: nat, data: seq<Byte>)
    requires cfg.Ok() && id < |cfg.controlDefaults|
    ensures IsScalarWrite(data, PlanFor(cfg, Set(32 + id, data)), 3, id, cfg.normaliseControl)
  {
    Bases(cfg);
    WriteAt(cfg, CONTROL, id, 32 + id, data);
    if |data| == 4 { SpelledIsLe32(data); }
    hide PlanFor, Base, Located, FromLe32, Spelled;
  }

  lemma RigWrite(cfg: Config, id: nat, data: seq<Byte>)
    requires cfg.Ok() && id < |cfg.rigDefaults|
    ensures IsScalarWrite(data, PlanFor(cfg, Set(32 + |cfg.controlDefaults| + id, data)), 0, id, cfg.normaliseRig)
  {
    Bases(cfg);
    WriteAt(cfg, RIG, id, 32 + |cfg.controlDefaults| + id, data);
    if |data| == 4 { SpelledIsLe32(data); }
    hide PlanFor, Base, Located, FromLe32, Spelled;
  }

  lemma BehindTheScalars(cfg: Config, id: nat, data: seq<Byte>)
    requires cfg.Ok()
    ensures
      PlanFor(cfg, Set(32 + |cfg.controlDefaults| + |cfg.rigDefaults| + id, data))
      == Refuse(if id < cfg.telemetry then ReadOnly else BadIndex)
  {
    var index := 32 + |cfg.controlDefaults| + |cfg.rigDefaults| + id;
    Bases(cfg);
    if id < cfg.telemetry {
      WriteAt(cfg, TELEMETRY, id, index, data);
    } else {
      assert Located(Defs(cfg), index).None?;
    }
    hide Base, Located, GroupPlan;
  }

  // ---------------------------------------------------------------------------
  // Blocks and commits
  // ---------------------------------------------------------------------------

  /** Only parameter 24, the table, takes blocks and commits: whole words within its capacity,
      and a length of two to its capacity. */
  lemma BlocksAndCommits(cfg: Config, index: nat, offset: U32, data: seq<Byte>, len: U32)
    requires cfg.Ok()
    ensures
      var all := 32 + |cfg.controlDefaults| + |cfg.rigDefaults| + cfg.telemetry;
      var block, commit := PlanFor(cfg, SetBlock(index, offset, data)), PlanFor(cfg, Commit(index, len));
      if index >= all then block == commit == Refuse(BadIndex)
      else if index < 24 || index >= 32 then block == commit == Refuse(UnknownType)
      else if index > 24 then block == commit == Refuse(BadIndex)
      else
        && (if |data| % 4 != 0 || 4 * offset + |data| > 4 * cfg.tableCapacity then block == Refuse(BadLength)
            else block.Write? && block.offset == offset && BytesOf(block.cells) == data)
        && commit == if 2 <= len <= cfg.tableCapacity then Publish(len) else Refuse(BadValue)
  {
    Bases(cfg);
    var found := Located(Defs(cfg), index);
    if found.Some? {
      BaseMonotone(Defs(cfg), 0, 6);
      GroupOf(cfg, index, found.value.0, found.value.1);
    }
    if |data| % 4 == 0 { BytesRoundTrip(data); }
    hide Base, Located, WordsOf, BytesOf;
  }

  lemma GroupOf(cfg: Config, index: nat, g: nat, id: nat)
    requires Owns(Defs(cfg), g, id, index)
    ensures g == TABLES <==> 24 <= index < 32
    ensures g == TABLES ==> id == index - 24
  {
    Bases(cfg);
    assert |Defs(cfg)[2]| == 8;
    if g < 2 {
      BaseMonotone(Defs(cfg), g + 1, 2);
    } else if g > 2 {
      BaseMonotone(Defs(cfg), 3, g);
    }
  }
}
