/** The parameter registry as the store sees it: which group owns an index, and what a
    host request amounts to once it has been validated. */
module Params {
  import opened Wrappers
  import opened Words
  import opened Floats
  import opened Commands
  import Phase
  import Table

  /** Contents of one coefficient or table bank, in wire order; a table also has a length. */
  datatype Bank = Bank(cells: seq<U32>, len: nat)

  /** Everything an experiment fixes when it composes the store. */
  datatype Config = Config(
    hz: real,
    harmonics: nat,
    tableCapacity: nat,
    forcingAllowed: seq<U32> -> bool,
    controlDefaults: seq<U32>,
    rigDefaults: seq<U32>,
    telemetry: nat,
    normaliseControl: (nat, U32) -> Option<U32>,
    normaliseRig: (nat, U32) -> Option<U32>)
  {
    predicate Ok() { hz > 0.0 && harmonics <= 16 && 2 <= tableCapacity < 0x1_0000 }

    /** Words held by each bank of buffer `k`. */
    function Width(k: nat): nat { if k == TABLE then tableCapacity else 1 + 2 * harmonics }
  }

  // ---------------------------------------------------------------------------
  // Registry: groups laid end to end
  // ---------------------------------------------------------------------------

  datatype Def = Def(bytes: nat, writable: bool)

  const PLATFORM: nat := 0
  const GENERATOR: nat := 1
  const TABLES: nat := 2
  const CONTROL: nat := 3
  const RIG: nat := 4
  const TELEMETRY: nat := 5

  const DIAG_RESET: nat := 15
  const ARM: nat := 17
  const MCU_REBOOT: nat := 19
  const TABLE_LEN: nat := 20

  const MCU_REBOOT_CONFIRMATION: U32 := 0x5245_4254

  function PlatformDef(id: nat): Def {
    if id <= 1 then Def(16, false)
    else if id == TABLE_LEN then Def(2, false)
    else Def(4, id == DIAG_RESET || id == ARM || id == MCU_REBOOT)
  }

  function Defs(cfg: Config): seq<seq<Def>> {
    [ seq(21, id requires 0 <= id => PlatformDef(id)),
      [Def(4, true), Def(4 * cfg.Width(TARGET), true), Def(4 * cfg.Width(FORCING), true)],
      [Def(4 * cfg.tableCapacity, true)] + seq(7, _ => Def(4, true)),
      seq(|cfg.controlDefaults|, _ => Def(4, true)),
      seq(|cfg.rigDefaults|, _ => Def(4, true)),
      seq(cfg.telemetry, _ => Def(4, false)) ]
  }

  /** Number of parameters in the groups before `g`. */
  function Base<T>(groups: seq<seq<T>>, g: nat): nat
    requires g <= |groups|
  {
    if g == 0 then 0 else Base(groups, g - 1) + |groups[g - 1]|
  }

  /** The sole global-to-local index arithmetic. */
  method Locate<T>(groups: seq<seq<T>>, index: nat) returns (found: Option<(nat, nat)>)
    ensures found == Located(groups, index)
  {
    var base := 0;
    for g := 0 to |groups|
      invariant base == Base(groups, g) <= index
    {
      var count := |groups[g]|;
      if index < base + count {
        LocatedIs(groups, g, index - base);
        return Some((g, index - base));
      }
      base := base + count;
    }
    BaseMonotone(groups, 0, |groups|);
    found := None;
  }

  /** Owner and local id of a global index: the last group starting at or before it. */
  ghost predicate Owns<T>(groups: seq<seq<T>>, g: nat, id: nat, index: nat) {
    g < |groups| && id < |groups[g]| && index == Base(groups, g) + id
  }

  function Located<T>(groups: seq<seq<T>>, index: nat): (found: Option<(nat, nat)>)
    ensures found.Some? ==> Owns(groups, found.value.0, found.value.1, index)
    ensures found.None? <==> index >= Base(groups, |groups|)
  {
    LocatedFrom(groups, 0, index)
  }

  function LocatedFrom<T>(groups: seq<seq<T>>, g: nat, index: nat): (found: Option<(nat, nat)>)
    requires g <= |groups| && Base(groups, g) <= index
    ensures found.Some? ==> Owns(groups, found.value.0, found.value.1, index)
    ensures found.None? <==> index >= Base(groups, |groups|)
    decreases |groups| - g
  {
    if g == |groups| then None
    else if index < Base(groups, g) + |groups[g]| then
      BaseMonotone(groups, g + 1, |groups|);
      Some((g, index - Base(groups, g)))
    else LocatedFrom(groups, g + 1, index)
  }

  lemma {:induction false} BaseMonotone<T>(groups: seq<seq<T>>, g: nat, h: nat)
    requires g <= h <= |groups|
    ensures Base(groups, g) <= Base(groups, h)
  {
    if g < h { BaseMonotone(groups, g, h - 1); }
  }

  lemma OwnerIsUnique<T>(groups: seq<seq<T>>, g: nat, id: nat, h: nat, other: nat, index: nat)
    requires Owns(groups, g, id, index) && Owns(groups, h, other, index)
    ensures g == h && id == other
  {
    if h < g {
      BaseMonotone(groups, h + 1, g);
    } else if g < h {
      BaseMonotone(groups, g + 1, h);
    }
  }

  /** Locating inverts the global numbering, and no index has two owners. */
  lemma LocatedIs<T>(groups: seq<seq<T>>, g: nat, id: nat)
    requires g < |groups| && id < |groups[g]|
    ensures Located(groups, Base(groups, g) + id) == Some((g, id))
  {
    hide LocatedFrom;
    var index := Base(groups, g) + id;
    BaseMonotone(groups, g + 1, |groups|);
    var found := Located(groups, index);
    assert found.Some?;
    OwnerIsUnique(groups, g, id, found.value.0, found.value.1, index);
  }

  // ---------------------------------------------------------------------------
  // Wire data
  // ---------------------------------------------------------------------------

  function WordsOf(data: seq<Byte>): (words: seq<U32>)
    ensures |words| == |data| / 4
  {
    if |data| < 4 then [] else [FromLe32(data[..4])] + WordsOf(data[4..])
  }

  function BytesOf(words: seq<U32>): (data: seq<Byte>)
    ensures |data| == 4 * |words|
  {
    if words == [] then [] else Le32(words[0]) + BytesOf(words[1..])
  }

  lemma {:induction false} WordsRoundTrip(words: seq<U32>)
    ensures WordsOf(BytesOf(words)) == words
  {
    if words != [] {
      WordsRoundTrip(words[1..]);
      Le32RoundTrip(words[0]);
      var data := BytesOf(words);
      assert data[..4] == Le32(words[0]) && data[4..] == BytesOf(words[1..]);
    }
  }

  lemma {:induction false} BytesRoundTrip(data: seq<Byte>)
    requires |data| % 4 == 0
    ensures BytesOf(WordsOf(data)) == data
  {
    if |data| >= 4 {
      BytesRoundTrip(data[4..]);
      FromLe32RoundTrip(data[..4]);
      assert WordsOf(data)[1..] == WordsOf(data[4..]);
      assert data == data[..4] + data[4..];
    }
  }

  predicate AllFinite(cells: seq<U32>) { forall i :: 0 <= i < |cells| ==> IsFinite(cells[i]) }

  // ---------------------------------------------------------------------------
  // Host requests
  // ---------------------------------------------------------------------------

  datatype Request =
    | Set(index: nat, data: seq<Byte>)
    | SetBlock(index: nat, offset: U32, data: seq<Byte>)
    | Commit(index: nat, len: U32)

  datatype LocalEffect = NoEffect | Reboot | ResetDiagnostics | Arm(on: bool)

  datatype Action = NoAction | RebootAction

  type Reply = Result<Action, ErrorCode>

  /** What an accepted request changes in the values the host reads back. */
  datatype Update =
    | Nothing
    | Frequency(bits: U32)
    | BankValue(k: nat, bank: Bank)
    | TableFrequency(bits: U32)
    | Gain(bits: U32)
    | Interpolation(value: U32)
    | Mode(value: U32)
    | Multiplier(value: U32)
    | PhaseOffset(bits: U32)
    | ControlScalar(id: nat, bits: U32)
    | RigScalar(id: nat, bits: U32)

  /** A validated request: refused, local to core 0, one scalar command, a coefficient
      vector to stage and commit, table words to write, or a table length to publish. */
  datatype Plan =
    | Refuse(error: ErrorCode)
    | Local(effect: LocalEffect)
    | Send(command: RtCommand, update: Update)
    | Stage(k: nat, cells: seq<U32>)
    | Write(offset: nat, cells: seq<U32>)
    | Publish(len: nat)

  /** A frequency the generator can produce: finite, not negative, below half the rate. */
  predicate InBand(cfg: Config, bits: U32) {
    IsFinite(bits) && 0.0 <= RealOf(bits) < cfg.hz / 2.0
  }

  function Increment(cfg: Config, bits: U32): U32
    requires cfg.Ok() && InBand(cfg, bits)
  {
    Phase.IncrementFor(RealOf(bits), cfg.hz)
  }

  /** A fraction of a turn. */
  predicate InTurn(bits: U32) { IsFinite(bits) && 0.0 <= RealOf(bits) < 1.0 }

  function PhaseWord(bits: U32): U32
    requires InTurn(bits)
  {
    (RealOf(bits) * TWO32 as real).Floor
  }

  function PlatformPlan(id: nat, value: U32): Plan {
    if id == DIAG_RESET then Local(if value == 0 then NoEffect else ResetDiagnostics)
    else if id == ARM then Local(LocalEffect.Arm(value != 0))
    else if id == MCU_REBOOT then
      if value == MCU_REBOOT_CONFIRMATION then Local(Reboot) else Refuse(BadValue)
    else Refuse(BadIndex)
  }

  function GeneratorPlan(cfg: Config, id: nat, data: seq<Byte>): Plan
    requires cfg.Ok()
  {
    if id == 0 then
      if |data| != 4 then Refuse(BadLength)
      else
        var bits := FromLe32(data);
        if !InBand(cfg, bits) then Refuse(BadValue)
        else Send(RtCommand(DOMAIN_GENERATOR, GENERATOR_SET_INCREMENT, Word(Increment(cfg, bits))),
                  Frequency(bits))
    else if id <= 2 then
      var k := if id == 1 then TARGET else FORCING;
      if |data| != 4 * cfg.Width(k) then Refuse(BadLength)
      else
        var cells := WordsOf(data);
        if !AllFinite(cells) then Refuse(BadValue)
        else if k == FORCING && !cfg.forcingAllowed(cells) then Refuse(BadValue)
        else Stage(k, cells)
    else Refuse(BadIndex)
  }

  function TableCommand(id: nat, payload: Payload): RtCommand { RtCommand(DOMAIN_TABLE, id, payload) }

  function TablePlan(cfg: Config, id: nat, data: seq<Byte>): Plan
    requires cfg.Ok()
  {
    if id == 0 || (id <= 7 && |data| != 4) then Refuse(BadLength)
    else if id > 7 then Refuse(BadIndex)
    else
      var word := FromLe32(data);
      match id
      case 1 =>
        if !InBand(cfg, word) then Refuse(BadValue)
        else Send(TableCommand(TABLE_SET_INCREMENT, Word(Increment(cfg, word))), TableFrequency(word))
      case 2 =>
        if !IsFinite(word) then Refuse(BadValue)
        else Send(TableCommand(TABLE_SET_GAIN, F32(word)), Gain(word))
      case 3 =>
        if Table.InterpolationFrom(word).None? then Refuse(BadValue)
        else Send(TableCommand(TABLE_SET_INTERPOLATION, Word(word)), Interpolation(word))
      case 4 =>
        if Table.ModeFrom(word).None? then Refuse(BadValue)
        else Send(TableCommand(TABLE_SET_MODE, Word(word)), Mode(word))
      case 5 =>
        if word == 0 then Refuse(BadValue)
        else Send(TableCommand(TABLE_SET_MULTIPLIER, Word(word)), Multiplier(word))
      case 6 =>
        if !InTurn(word) then Refuse(BadValue)
        else Send(TableCommand(TABLE_SET_PHASE, Word(PhaseWord(word))), PhaseOffset(word))
      case _ =>
        if word == 0 then Local(NoEffect)
        else Send(TableCommand(TABLE_TRIGGER, Unit), Nothing)
  }

  function ScalarPlan(
    domain: nat, id: nat, data: seq<Byte>, normalise: (nat, U32) -> Option<U32>, update: U32 -> Update): Plan
  {
    if |data| != 4 then Refuse(BadLength)
    else
      match normalise(id, FromLe32(data))
      case None => Refuse(BadValue)
      case Some(value) => Send(RtCommand(domain, id, F32(value)), update(value))
  }

  function GroupPlan(cfg: Config, g: nat, id: nat, data: seq<Byte>): Plan
    requires cfg.Ok()
  {
    if g == PLATFORM then
      if |data| != 4 then Refuse(BadLength) else PlatformPlan(id, FromLe32(data))
    else if g == GENERATOR then GeneratorPlan(cfg, id, data)
    else if g == TABLES then TablePlan(cfg, id, data)
    else if g == CONTROL then
      ScalarPlan(DOMAIN_CONTROLLER, id, data, cfg.normaliseControl, (value: U32) => ControlScalar(id, value))
    else if g == RIG then
      ScalarPlan(DOMAIN_RIG, id, data, cfg.normaliseRig, (value: U32) => RigScalar(id, value))
    else Refuse(ReadOnly)
  }

  function PlanFor(cfg: Config, request: Request): Plan
    requires cfg.Ok()
  {
    match Located(Defs(cfg), request.index)
    case None => Refuse(BadIndex)
    case Some((g, id)) =>
      match request
      case Set(_, data) =>
        var def := Defs(cfg)[g][id];
        if !def.writable then Refuse(ReadOnly)
        else if |data| != def.bytes then Refuse(BadLength)
        else GroupPlan(cfg, g, id, data)
      case SetBlock(_, offset, data) =>
        if g != TABLES then Refuse(UnknownType)
        else if id != 0 then Refuse(BadIndex)
        else if |data| % 4 != 0 || offset as int + |data| / 4 > cfg.tableCapacity then Refuse(BadLength)
        else Write(offset, WordsOf(data))
      case Commit(_, len) =>
        if g != TABLES then Refuse(UnknownType)
        else if id != 0 then Refuse(BadIndex)
        else if !(2 <= len <= cfg.tableCapacity) then Refuse(BadValue)
        else Publish(len)
  }

  // ---------------------------------------------------------------------------
  // What the host reads back
  // ---------------------------------------------------------------------------

  datatype TableShadow = TableShadow(
    frequency: U32, gain: U32, interpolation: U32, mode: U32, multiplier: U32, phase: U32)

  /** The values the groups report. `banks` holds the target and forcing coefficients, and,
      as bookkeeping the source leaves to the host, the table last accepted. */
  datatype Shadows = Shadows(
    frequency: U32, banks: seq<Bank>, table: TableShadow, control: seq<U32>, rig: seq<U32>)

  function Accepted(sh: Shadows, u: Update): Shadows {
    match u
    case Nothing => sh
    case Frequency(bits) => sh.(frequency := bits)
    case BankValue(k, bank) => if k < |sh.banks| then sh.(banks := sh.banks[k := bank]) else sh
    case TableFrequency(bits) => sh.(table := sh.table.(frequency := bits))
    case Gain(bits) => sh.(table := sh.table.(gain := bits))
    case Interpolation(value) => sh.(table := sh.table.(interpolation := value))
    case Mode(value) => sh.(table := sh.table.(mode := value))
    case Multiplier(value) => sh.(table := sh.table.(multiplier := value))
    case PhaseOffset(bits) => sh.(table := sh.table.(phase := bits))
    case ControlScalar(id, bits) =>
      if id < |sh.control| then sh.(control := sh.control[id := bits]) else sh
    case RigScalar(id, bits) => if id < |sh.rig| then sh.(rig := sh.rig[id := bits]) else sh
  }
}
