/** The standard real-time programme: how core 1 applies commands and steps one sample. */
module StandardProgram {
  import opened Wrappers
  import opened Words
  import opened Floats
  import opened Commands
  import opened TableBuffer
  import opened Params
  import Table

  /** Core-1 state apart from the three buffers. The control and the rig are kept abstract:
      all that is modelled of them is the scalars they were last given. */
  datatype Program = Program(
    phase: U32,
    increment: U32,
    nominal: U32,
    overridden: bool,
    player: Table.Player,
    control: seq<U32>,
    rig: seq<U32>,
    tableLen: nat)

  type Bufs = seq<Buf<Bank>>

  datatype Core = Core(program: Program, bufs: Bufs)

  /** One command, applied at a sample boundary: commands that address nothing are dropped. */
  function ScalarApplied(p: Program, c: RtCommand): Program {
    if c.domain == DOMAIN_GENERATOR && c.id == GENERATOR_SET_INCREMENT && c.payload.Word? then
      p.(nominal := c.payload.value,
         increment := if p.overridden then p.increment else c.payload.value)
    else if c.domain == DOMAIN_TABLE then
      p.(player := PlayerApplied(p.player, c))
    else if c.domain == DOMAIN_CONTROLLER && c.payload.F32? && c.id < |p.control| then
      p.(control := p.control[c.id := c.payload.bits])
    else if c.domain == DOMAIN_RIG && c.payload.F32? && c.id < |p.rig| then
      p.(rig := p.rig[c.id := c.payload.bits])
    else p
  }

  function PlayerApplied(p: Table.Player, c: RtCommand): Table.Player {
    match c.payload
    case Word(value) =>
      if c.id == TABLE_SET_INCREMENT then p.(increment := value)
      else if c.id == TABLE_SET_INTERPOLATION && Table.InterpolationFrom(value).Some? then
        p.(interpolation := Table.InterpolationFrom(value).value)
      else if c.id == TABLE_SET_MODE && Table.ModeFrom(value).Some? then
        p.(mode := Table.ModeFrom(value).value, oneShot := Table.Idle)
      else if c.id == TABLE_SET_MULTIPLIER then p.(multiplier := if value == 0 then 1 else value)
      else if c.id == TABLE_SET_PHASE then p.(phaseOffset := value)
      else p
    case F32(bits) => if c.id == TABLE_SET_GAIN then p.(gain := RealOf(bits)) else p
    case Unit => if c.id == TABLE_TRIGGER then Table.Triggered(p) else p
    case Buffer(_) => p
  }

  /** The buffer a command activates, if it carries a token to one of the three addresses. */
  function ActivatedBy(c: RtCommand): Option<nat> {
    if !c.payload.Buffer? then None
    else if (c.domain, c.id) == Route(TARGET) then Some(TARGET)
    else if (c.domain, c.id) == Route(FORCING) then Some(FORCING)
    else if (c.domain, c.id) == Route(TABLE) then Some(TABLE)
    else None
  }

  function Applied(core: Core, c: RtCommand): Core
    requires |core.bufs| == BUFFERS && forall k :: 0 <= k < BUFFERS ==> core.bufs[k].Ok()
  {
    match ActivatedBy(c)
    case None => core.(program := ScalarApplied(core.program, c))
    case Some(k) =>
      var b := Activated(core.bufs[k], k, c.payload.token);
      Core(if k == TABLE then core.program.(tableLen := b.Get().len) else core.program,
           core.bufs[k := b])
  }

  /** What the control policy decides in one sample. */
  datatype ControlStep = ControlStep(output: real, nextIncrement: Option<U32>)

  /** One sample: the generator advances, the player follows it, and the control may take
      over the generator's next increment, but only while the output is enabled. */
  function Stepped(p: Program, tableLen: nat, outputEnabled: bool, control: ControlStep): Program {
    var phase := WrapAdd(p.phase, p.increment);
    var start := p.phase as int + p.increment as int >= TWO32;
    p.(phase := phase,
       player := Table.PlayerStep(p.player, tableLen, phase, start).0,
       overridden := outputEnabled && control.nextIncrement.Some?,
       increment := if outputEnabled && control.nextIncrement.Some?
                    then control.nextIncrement.value else p.nominal)
  }

  /** Away from an override the generator runs at the frequency the host set. */
  predicate FollowsNominal(p: Program) { p.overridden || p.increment == p.nominal }

  lemma ApplyFollowsNominal(p: Program, c: RtCommand)
    requires FollowsNominal(p)
    ensures FollowsNominal(ScalarApplied(p, c))
  {}

  lemma StepFollowsNominal(p: Program, tableLen: nat, outputEnabled: bool, control: ControlStep)
    ensures FollowsNominal(Stepped(p, tableLen, outputEnabled, control))
  {}

  /** While the control overrides the frequency, no command moves the generator's increment. */
  lemma OverrideHolds(p: Program, c: RtCommand)
    requires p.overridden
    ensures ScalarApplied(p, c).increment == p.increment && ScalarApplied(p, c).overridden
  {}

  /** No command moves the generator's phase, nor, but for a trigger or a change of mode, where a
      one-shot is; a change of mode ends it. */
  lemma CommandsKeepPlaying(p: Program, c: RtCommand)
    ensures
      var q, player, after := ScalarApplied(p, c), p.player, ScalarApplied(p, c).player;
      && q.phase == p.phase && q.overridden == p.overridden && q.tableLen == p.tableLen
      && (c.domain != 2 || (c.id != 4 && c.id != 7) ==>
            && after.oneShot == player.oneShot && after.phase == player.phase
            && after.previousMaster == player.previousMaster && after.lockedProgress == player.lockedProgress)
      && (c.domain == 2 && c.id == 4 && c.payload.Word? && c.payload.value <= 4 ==> after.oneShot == Table.Idle)
      && (c.domain == 2 && c.id == 7 && c.payload.Unit? ==> after == Table.Triggered(player))
  {
    hide RealOf, Table.Triggered;
  }

  /** One sample: the phase advances by the increment round the turn, the player is told of it and
      of the start of a period, and the next increment is the control's exactly while the output
      is enabled and the control asks for one, else the nominal one. Nothing else moves. */
  lemma SampleMeans(p: Program, tableLen: nat, outputEnabled: bool, control: ControlStep)
    ensures
      var q := Stepped(p, tableLen, outputEnabled, control);
      var start := q.phase < p.phase || (q.phase == p.phase && p.increment > 0);
      && q.phase as int == (p.phase as int + p.increment as int) % 0x1_0000_0000
      && q.player == Table.PlayerStep(p.player, tableLen, q.phase, start).0
      && (q.overridden <==> outputEnabled && control.nextIncrement.Some?)
      && q.increment == (if q.overridden then control.nextIncrement.value else p.nominal)
      && q == p.(phase := q.phase, player := q.player, overridden := q.overridden, increment := q.increment)
  {
    WrapAddIsMod(p.phase, p.increment);
  }

  // ---------------------------------------------------------------------------
  // The settings a host write determines, as core 1 holds them
  // ---------------------------------------------------------------------------

  datatype Settings = Settings(
    increment: U32, gain: real, interpolation: Table.Interpolation, mode: Table.TableMode,
    multiplier: U32, phaseOffset: U32)

  datatype View = View(nominal: U32, banks: seq<Bank>, table: Settings, control: seq<U32>, rig: seq<U32>)

  function SettingsOf(p: Table.Player): Settings {
    Settings(p.increment, p.gain, p.interpolation, p.mode, p.multiplier, p.phaseOffset)
  }

  /** What core 1 would act on: its settings and the banks its endpoints read. */
  function ViewOf(core: Core): View
    requires forall k :: 0 <= k < |core.bufs| ==> core.bufs[k].Ok()
  {
    View(core.program.nominal, seq(|core.bufs|, k requires 0 <= k < |core.bufs| => core.bufs[k].Get()),
         SettingsOf(core.program.player), core.program.control, core.program.rig)
  }

  /** Stepping a sample changes no setting. */
  lemma StepKeepsView(core: Core, outputEnabled: bool, control: ControlStep, tableLen: nat)
    requires forall k :: 0 <= k < |core.bufs| ==> core.bufs[k].Ok()
    ensures ViewOf(core.(program := Stepped(core.program, tableLen, outputEnabled, control)))
         == ViewOf(core)
  {}

  /** All that the shadows' values are good for on core 1. */
  predicate ShadowsOk(cfg: Config, sh: Shadows) {
    && cfg.Ok()
    && InBand(cfg, sh.frequency)
    && InBand(cfg, sh.table.frequency)
    && IsFinite(sh.table.gain)
    && Table.InterpolationFrom(sh.table.interpolation).Some?
    && Table.ModeFrom(sh.table.mode).Some?
    && sh.table.multiplier != 0
    && InTurn(sh.table.phase)
    && |sh.banks| == BUFFERS
    && |sh.control| == |cfg.controlDefaults|
    && |sh.rig| == |cfg.rigDefaults|
  }

  /** The core-1 settings that the reported values stand for. */
  function Reported(cfg: Config, sh: Shadows): View
    requires ShadowsOk(cfg, sh)
  {
    View(Increment(cfg, sh.frequency), sh.banks,
         Settings(Increment(cfg, sh.table.frequency), RealOf(sh.table.gain),
                  Table.InterpolationFrom(sh.table.interpolation).value,
                  Table.ModeFrom(sh.table.mode).value,
                  sh.table.multiplier, PhaseWord(sh.table.phase)),
         sh.control, sh.rig)
  }

  /** The effect of one command on the settings; a token installs the bank it published. */
  function Effect(v: View, c: RtCommand, bufs: Bufs): View {
    match ActivatedBy(c)
    case Some(k) => if k < |v.banks| then v.(banks := v.banks[k := Published(bufs, c.payload.token)]) else v
    case None =>
      if c.domain == DOMAIN_GENERATOR && c.id == GENERATOR_SET_INCREMENT && c.payload.Word? then
        v.(nominal := c.payload.value)
      else if c.domain == DOMAIN_TABLE then
        v.(table := SettingsApplied(v.table, c))
      else if c.domain == DOMAIN_CONTROLLER && c.payload.F32? && c.id < |v.control| then
        v.(control := v.control[c.id := c.payload.bits])
      else if c.domain == DOMAIN_RIG && c.payload.F32? && c.id < |v.rig| then
        v.(rig := v.rig[c.id := c.payload.bits])
      else v
  }

  function SettingsApplied(s: Settings, c: RtCommand): Settings {
    match c.payload
    case Word(value) =>
      if c.id == TABLE_SET_INCREMENT then s.(increment := value)
      else if c.id == TABLE_SET_INTERPOLATION && Table.InterpolationFrom(value).Some? then
        s.(interpolation := Table.InterpolationFrom(value).value)
      else if c.id == TABLE_SET_MODE && Table.ModeFrom(value).Some? then
        s.(mode := Table.ModeFrom(value).value)
      else if c.id == TABLE_SET_MULTIPLIER then s.(multiplier := if value == 0 then 1 else value)
      else if c.id == TABLE_SET_PHASE then s.(phaseOffset := value)
      else s
    case F32(bits) => if c.id == TABLE_SET_GAIN then s.(gain := RealOf(bits)) else s
    case Unit => s
    case Buffer(_) => s
  }

  const NO_BANK := Bank([], 0)

  function Published(bufs: Bufs, token: CommitToken): Bank {
    if token.owner < |bufs| && token.bank < |bufs[token.owner].banks|
    then bufs[token.owner].banks[token.bank] else NO_BANK
  }

  lemma SettingsCommute(p: Table.Player, c: RtCommand)
    ensures SettingsOf(PlayerApplied(p, c)) == SettingsApplied(SettingsOf(p), c)
  {
    hide RealOf;
  }

  /** A scalar command does to the settings what it does to the state. */
  lemma ScalarEffect(core: Core, c: RtCommand)
    requires forall k :: 0 <= k < |core.bufs| ==> core.bufs[k].Ok()
    requires ActivatedBy(c).None?
    ensures ViewOf(core.(program := ScalarApplied(core.program, c))) == Effect(ViewOf(core), c, core.bufs)
  {
    hide PlayerApplied, SettingsApplied;
    SettingsCommute(core.program.player, c);
  }

  /** The command a validated request sends does to core 1's settings exactly what
      accepting the request does to the reported values. */
  lemma SentCommandMatchesUpdate(cfg: Config, sh: Shadows, request: Request, bufs: Bufs)
    requires ShadowsOk(cfg, sh) && PlanFor(cfg, request).Send?
    ensures
      var plan := PlanFor(cfg, request);
      && ActivatedBy(plan.command).None?
      && ShadowsOk(cfg, Accepted(sh, plan.update))
      && Reported(cfg, Accepted(sh, plan.update)) == Effect(Reported(cfg, sh), plan.command, bufs)
  {
    hide RealOf, IsFinite, Increment, PhaseWord, Located;
    var (g, id) := Located(Defs(cfg), request.index).value;
    SentByGroup(cfg, sh, g, id, request.data, bufs);
  }

  lemma SentByGroup(cfg: Config, sh: Shadows, g: nat, id: nat, data: seq<Byte>, bufs: Bufs)
    requires ShadowsOk(cfg, sh) && GroupPlan(cfg, g, id, data).Send?
    ensures
      var plan := GroupPlan(cfg, g, id, data);
      && ActivatedBy(plan.command).None?
      && ShadowsOk(cfg, Accepted(sh, plan.update))
      && Reported(cfg, Accepted(sh, plan.update)) == Effect(Reported(cfg, sh), plan.command, bufs)
  {
    hide RealOf, IsFinite, Increment, PhaseWord, FromLe32, Table.InterpolationFrom, Table.ModeFrom;
  }
}
