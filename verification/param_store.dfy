/** The transactional store: the only place that turns an index into a group and decides
    whether a staged update is accepted or rejected. */
module ParamStore {
  import opened Wrappers
  import opened Words
  import opened Commands
  import opened TableBuffer
  import opened Params
  import opened StandardProgram
  import opened CommandPath
  import opened StoreSpec
  import opened Groups
  import opened Safety
  import opened Floats
  import opened Phase
  import HostWrites

  class PlatformGroup {
    const safety: SafetyState
    var pending: Option<bool>

    constructor (safety: SafetyState)
      ensures this.safety == safety && pending == None
    {
      this.safety := safety;
      pending := None;
    }

    method Stage(id: nat, data: seq<Byte>) returns (r: Result<Staged, ErrorCode>)
      requires pending == None
      modifies this`pending
      ensures
        if |data| != 4 then r == Err(BadLength) && pending == None
        else
          match PlatformPlan(id, FromLe32(data))
          case Refuse(error) => r == Err(error) && pending == None
          case Local(effect) =>
            r.Ok? && (match effect
                      case Arm(on) => r.value == OnCore0(NoEffect) && pending == Some(on)
                      case _ => r.value == OnCore0(effect) && pending == None)
          case _ => false
    {
      if |data| != 4 {
        return Err(BadLength);
      }
      var value := FromLe32(data);
      if id == DIAG_RESET {
        return Ok(OnCore0(if value == 0 then NoEffect else ResetDiagnostics));
      } else if id == ARM {
        pending := Some(value != 0);
        return Ok(OnCore0(NoEffect));
      } else if id == MCU_REBOOT {
        return if value == MCU_REBOOT_CONFIRMATION then Ok(OnCore0(Reboot)) else Err(BadValue);
      }
      return Err(BadIndex);
    }

    method Accept()
      modifies this, safety
      ensures pending == None
      ensures (safety.armed, safety.tripped) == ArmedBy(old(pending), old(safety.armed), old(safety.tripped))
    {
      if pending == Some(true) {
        safety.Arm();
      } else if pending == Some(false) {
        safety.Disarm();
      }
      pending := None;
    }
  }

  /** Arming clears an old trip; disarming keeps it. */
  function ArmedBy(request: Option<bool>, armed: bool, tripped: bool): (bool, bool) {
    match request
    case Some(true) => (true, false)
    case Some(false) => (false, tripped)
    case None => (armed, tripped)
  }

  /** One command is queued behind the others, with the increment nearest to this frequency. */
  ghost predicate QueuesIncrement(before: seq<RtCommand>, after: seq<RtCommand>, frequency: real, rate: real)
    requires rate > 0.0
  {
    && |after| == |before| + 1 && after[..|before|] == before && after[|before|].payload.Word?
    && NearestQuantum(after[|before|].payload.value, frequency, rate)
  }

  /** A frequency written to the generator (parameter 21) or the table (25) and accepted is queued
      as the increment nearest to what its bytes spell in hertz. */
  lemma FrequencyQueues(cfg: Config, c: Core0State, index: nat, data: seq<Byte>)
    requires cfg.Ok() && BufsOk(c.bufs) && (index == 21 || index == 25)
    ensures
      var (after, r) := Performed(cfg, c, Request.Set(index, data));
      r.Ok? ==> |data| == 4 && QueuesIncrement(c.queue, after.queue, RealOf(HostWrites.Spelled(data)), cfg.hz)
  {
    HostWrites.FrequencyWrites(cfg, data);
    hide PlanFor, RealOf, HostWrites.Spelled, HostWrites.Number, NearestQuantum, Accepted;
  }

  /** What a request asks of the safety state. */
  function ArmRequest(plan: Plan): Option<bool> {
    match plan
    case Local(Arm(on)) => Some(on)
    case _ => None
  }

  class Store {
    const cfg: Config
    const platform: PlatformGroup
    const generator: GeneratorGroup
    const tables: TableGroup
    const control: ScalarGroup
    const rig: ScalarGroup
    var commands: seq<RtCommand>

    /** Everything a request may touch besides the queue. */
    ghost function Footprint(): set<object> {
      { platform, platform.safety, generator, tables, control, rig,
        generator.targetBuffer, generator.targetBuffer.banks,
        generator.forcingBuffer, generator.forcingBuffer.banks,
        tables.staging, tables.staging.banks }
    }

    /** Between requests no group has anything pending. */
    ghost predicate Valid()
      reads this, Footprint()
    {
      && this !in Footprint()
      && Composed()
      && platform.pending == None && generator.pending == Nothing
      && tables.pending == Nothing && tables.publishing == None
      && control.pending == None && rig.pending == None
    }

    ghost predicate Composed()
      reads this, Footprint()
    {
      && cfg.Ok() && generator.cfg == cfg && tables.cfg == cfg
      && control != rig
      && tables.staging != generator.targetBuffer && tables.staging != generator.forcingBuffer
      && tables.staging.banks != generator.targetBuffer.banks
      && tables.staging.banks != generator.forcingBuffer.banks
      && generator.Valid() && tables.Valid()
      && control.domain == DOMAIN_CONTROLLER && control.normalise == cfg.normaliseControl
      && rig.domain == DOMAIN_RIG && rig.normalise == cfg.normaliseRig
      && |control.values| == |cfg.controlDefaults| && |rig.values| == |cfg.rigDefaults|
      && |commands| <= QUEUE_CAPACITY
    }

    /** The reported values, the buffers and the queue. */
    ghost function Model(): Core0State
      reads this, Footprint()
    {
      Core0State(
        Shadows(generator.frequency, [generator.target, generator.forcing, tables.committed],
                tables.shadow, control.values, rig.values),
        [generator.targetBuffer.Model(), generator.forcingBuffer.Model(), tables.staging.Model()],
        commands)
    }

    constructor (cfg: Config, safety: SafetyState,
                 target: DoubleBuffer<Bank>, forcing: DoubleBuffer<Bank>, table: DoubleBuffer<Bank>)
      requires cfg.Ok()
      requires target != forcing && target.banks != forcing.banks
      requires table != target && table != forcing && table.banks != target.banks && table.banks != forcing.banks
      requires target.identity == TARGET && forcing.identity == FORCING && table.identity == TABLE
      requires target.Valid() && forcing.Valid() && table.Valid()
      requires target.Model() == NewBuf(cfg, TARGET) && forcing.Model() == NewBuf(cfg, FORCING)
      requires table.Model() == NewBuf(cfg, TABLE)
      ensures Valid() && this.cfg == cfg
      ensures Model() == Core0Of(Initial(cfg))
    {
      this.cfg := cfg;
      platform := new PlatformGroup(safety);
      generator := new GeneratorGroup(cfg, target, forcing);
      tables := new TableGroup(cfg, table);
      control := new ScalarGroup(DOMAIN_CONTROLLER, cfg.controlDefaults, cfg.normaliseControl);
      rig := new ScalarGroup(DOMAIN_RIG, cfg.rigDefaults, cfg.normaliseRig);
      commands := [];
    }

    /** The update the groups hold between staging and the queue's answer. */
    ghost predicate Holds(g: nat, id: nat, u: Update)
      reads Footprint()
    {
      && platform.pending == None
      && generator.pending == (if g == GENERATOR then u else Nothing)
      && control.pending == (if g == CONTROL && u.ControlScalar? then Some((u.id, u.bits)) else None)
      && rig.pending == (if g == RIG && u.RigScalar? then Some((u.id, u.bits)) else None)
      && (if g == TABLES && u.BankValue? then
            tables.publishing == Some(u.bank) && u.k == TABLE && tables.pending == Nothing
          else tables.publishing == None && tables.pending == if g == TABLES then u else Nothing)
    }

    function Domain(g: nat): nat {
      if g == GENERATOR then DOMAIN_GENERATOR
      else if g == TABLES then DOMAIN_TABLE
      else if g == CONTROL then DOMAIN_CONTROLLER
      else DOMAIN_RIG
    }

    /** Which updates a group can hold, and which payloads may come back to it. */
    ghost predicate Fitting(g: nat, id: nat, u: Update, payload: Payload) {
      match g
      case 1 => u.Frequency? || (u.BankValue? && u.k <= FORCING)
      case 2 => !u.Frequency? && !u.ControlScalar? && !u.RigScalar? && (u.BankValue? ==> u.k == TABLE)
      case 3 => u.ControlScalar? && u.id < |cfg.controlDefaults| && payload.F32?
      case 4 => u.RigScalar? && u.id < |cfg.rigDefaults| && payload.F32?
      case _ => false
    }

    method AcceptIn(g: nat, id: nat, payload: Payload, ghost u: Update)
      requires GENERATOR <= g <= RIG && Composed() && this !in Footprint()
      requires Holds(g, id, u) && Fitting(g, id, u, payload)
      modifies generator, tables, control, rig
      ensures Valid() && Model() == old(Model()).(sh := Accepted(old(Model()).sh, u))
    {
      ghost var before := Model().sh;
      match g {
        case 1 => generator.Accept();
        case 2 => tables.Accept();
        case 3 => control.Accept();
        case _ => rig.Accept();
      }
      assert Model().sh.banks == Accepted(before, u).banks;
      assert Model().sh.table == Accepted(before, u).table;
    }

    method RejectIn(g: nat, id: nat, payload: Payload, ghost u: Update)
      requires GENERATOR <= g <= RIG && Composed() && this !in Footprint()
      requires Holds(g, id, u) && Fitting(g, id, u, payload)
      requires payload.Buffer? ==> ActivatedBy(RtCommand(Domain(g), id, payload)).Some?
      modifies generator, tables, control, rig
      modifies generator.targetBuffer`pending, generator.forcingBuffer`pending, tables.staging`pending
      ensures Valid()
      ensures
        Model() == match ActivatedBy(RtCommand(Domain(g), id, payload))
                   case Some(k) => old(Model()).(bufs := old(Model()).bufs[k := Cancelled(old(Model()).bufs[k], k, payload.token)])
                   case None => old(Model())
    {
      match g {
        case 1 => generator.Reject(id, payload);
        case 2 => tables.Reject(id, payload);
        case 3 => control.Reject();
        case _ => rig.Reject();
      }
    }

    /** Queue the staged command; accept the update if there was room, else take it back. */
    method FinishStaged(g: nat, id: nat, payload: Payload, ghost u: Update) returns (r: Reply)
      requires GENERATOR <= g <= RIG && Composed() && this !in Footprint()
      requires Holds(g, id, u) && Fitting(g, id, u, payload)
      requires payload.Buffer? ==> ActivatedBy(RtCommand(Domain(g), id, payload)).Some?
      modifies this`commands, generator, tables, control, rig
      modifies generator.targetBuffer`pending, generator.forcingBuffer`pending, tables.staging`pending
      ensures Valid()
      ensures (Model(), r) == Queued(old(Model()), RtCommand(Domain(g), id, payload), u)
    {
      hide Accepted, ActivatedBy, Cancelled;
      if |commands| < QUEUE_CAPACITY {
        commands := commands + [RtCommand(Domain(g), id, payload)];
        AcceptIn(g, id, payload, u);
        r := Ok(NoAction);
      } else {
        RejectIn(g, id, payload, u);
        r := Err(ErrorCode.Busy);
      }
    }

    ghost predicate SafetyKept(armed: bool, tripped: bool)
      reads platform.safety
    {
      platform.safety.armed == armed && platform.safety.tripped == tripped
    }

    method SetGenerator(id: nat, data: seq<Byte>) returns (r: Reply)
      requires Valid()
      modifies this`commands, Footprint() - {platform, platform.safety}
      ensures Valid()
      ensures (Model(), r) == Executed(old(Model()), GeneratorPlan(cfg, id, data))
    {
      hide Accepted, Queued, GeneratorPlan, Cancelled;
      ghost var plan := GeneratorPlan(cfg, id, data);
      GeneratorPlanFits(cfg, id, data);
      var staged := generator.Stage(id, data);
      if staged.Err? {
        return Err(staged.error);
      }
      if plan.Stage? {
        StagedBuffers(old(Model()), plan.k, plan.cells, Model(), staged.value);
      }
      r := FinishStaged(GENERATOR, id, staged.value.payload, generator.pending);
    }

    method SetTable(id: nat, data: seq<Byte>) returns (r: Reply)
      requires Valid()
      modifies this`commands, Footprint() - {platform, platform.safety}
      ensures Valid()
      ensures (Model(), r) == Executed(old(Model()), TablePlan(cfg, id, data))
    {
      hide Accepted, Queued, TablePlan, Cancelled;
      TablePlanFits(cfg, id, data);
      var staged := tables.Stage(id, data);
      if staged.Err? {
        return Err(staged.error);
      }
      match staged.value {
        case OnCore0(_) =>
          NothingChanges(Shadows(0, [], tables.shadow, [], []));
          tables.Accept();
          r := Ok(NoAction);
        case Rt(payload) =>
          r := FinishStaged(TABLES, id, payload, tables.pending);
      }
    }

    method SetControl(id: nat, data: seq<Byte>) returns (r: Reply)
      requires Valid() && id < |cfg.controlDefaults|
      modifies this`commands, Footprint() - {platform, platform.safety}
      ensures Valid()
      ensures (Model(), r) == Executed(old(Model()), GroupPlan(cfg, CONTROL, id, data))
    {
      hide Accepted, Queued, Cancelled, FromLe32;
      var staged := control.Stage(id, data);
      if staged.Err? {
        return Err(staged.error);
      }
      r := FinishStaged(CONTROL, id, staged.value.payload, ControlScalar(id, control.pending.value.1));
    }

    method SetRig(id: nat, data: seq<Byte>) returns (r: Reply)
      requires Valid() && id < |cfg.rigDefaults|
      modifies this`commands, Footprint() - {platform, platform.safety}
      ensures Valid()
      ensures (Model(), r) == Executed(old(Model()), GroupPlan(cfg, RIG, id, data))
    {
      hide Accepted, Queued, Cancelled, FromLe32;
      var staged := rig.Stage(id, data);
      if staged.Err? {
        return Err(staged.error);
      }
      r := FinishStaged(RIG, id, staged.value.payload, RigScalar(id, rig.pending.value.1));
    }

    method SetPlatform(id: nat, data: seq<Byte>) returns (r: Reply)
      requires Valid() && |data| == 4
      modifies platform, platform.safety
      ensures Valid()
      ensures (Model(), r) == Executed(old(Model()), PlatformPlan(id, FromLe32(data)))
      ensures (platform.safety.armed, platform.safety.tripped)
           == ArmedBy(ArmRequest(PlatformPlan(id, FromLe32(data))), old(platform.safety.armed), old(platform.safety.tripped))
    {
      hide FromLe32;
      var staged := platform.Stage(id, data);
      if staged.Err? {
        return Err(staged.error);
      }
      platform.Accept();
      r := Ok(if staged.value.effect.Reboot? then RebootAction else NoAction);
    }

    /** A host write. Whatever happens, it is the whole-request specification that happened,
        and only an arming request touches the safety state. */
    method Set(index: nat, data: seq<Byte>) returns (r: Reply)
      requires Valid()
      modifies this`commands, Footprint()
      ensures Valid()
      ensures (Model(), r) == Performed(cfg, old(Model()), Request.Set(index, data))
      ensures (platform.safety.armed, platform.safety.tripped)
           == ArmedBy(ArmRequest(PlanFor(cfg, Request.Set(index, data))), old(platform.safety.armed), old(platform.safety.tripped))
    {
      ghost var plan := PlanFor(cfg, Request.Set(index, data));
      SetPlan(cfg, index, data);
      hide PlanFor, Executed, GroupPlan, Defs, FromLe32, Located;
      var found := Locate(Defs(cfg), index);
      if found.None? {
        RefusedPlan(Model(), BadIndex);
        return Err(BadIndex);
      }
      var (g, id) := found.value;
      var def := Defs(cfg)[g][id];
      if !def.writable {
        RefusedPlan(Model(), ReadOnly);
        return Err(ReadOnly);
      }
      if |data| != def.bytes {
        RefusedPlan(Model(), BadLength);
        return Err(BadLength);
      }
      WritableGroups(cfg, g, id, data);
      match g {
        case 0 => r := SetPlatform(id, data);
        case 1 => r := SetGenerator(id, data);
        case 2 => r := SetTable(id, data);
        case 3 => r := SetControl(id, data);
        case _ => r := SetRig(id, data);
      }
    }

    /** Stage words of the waveform table. */
    method SetBlock(index: nat, offset: U32, data: seq<Byte>) returns (r: Reply)
      requires Valid()
      modifies tables.staging.banks
      ensures Valid()
      ensures (Model(), r) == Performed(cfg, old(Model()), Request.SetBlock(index, offset, data))
    {
      hide Located, WordsOf, Overwritten, AllFinite, Defs;
      DefsShape(cfg);
      var found := Locate(Defs(cfg), index);
      if found.None? {
        return Err(BadIndex);
      }
      var (g, id) := found.value;
      if g != TABLES {
        return Err(UnknownType);
      }
      var written := tables.SetBlock(id, offset, data);
      assert Model().bufs == old(Model()).bufs[TABLE := tables.staging.Model()];
      r := if written.Err? then Err(written.error) else Ok(NoAction);
    }

    method CommitTable(len: U32) returns (r: Reply)
      requires Valid() && 2 <= len <= cfg.tableCapacity
      modifies this`commands, Footprint() - {platform, platform.safety}
      ensures Valid()
      ensures (Model(), r) == Executed(old(Model()), Publish(len))
    {
      hide AllFinite, Queued, Accepted, Cancelled, ActivatedBy, TokenCommand;
      var staged := tables.StageCommit(0, len);
      if staged.Err? {
        return Err(staged.error);
      }
      ghost var bank := tables.publishing.value;
      PublishedBuffers(old(Model()), len, bank, Model(), staged.value);
      TableToken(staged.value.payload.token);
      r := FinishStaged(TABLES, 0, staged.value.payload, BankValue(TABLE, bank));
    }

    /** Commit a staged table of the given length. */
    method Commit(index: nat, len: U32) returns (r: Reply)
      requires Valid()
      modifies this`commands, Footprint() - {platform, platform.safety}
      ensures Valid()
      ensures (Model(), r) == Performed(cfg, old(Model()), Request.Commit(index, len))
    {
      hide Located, Executed, Defs;
      RefusedPlan(Model(), BadIndex);
      RefusedPlan(Model(), UnknownType);
      RefusedPlan(Model(), BadValue);
      var found := Locate(Defs(cfg), index);
      if found.None? {
        return Err(BadIndex);
      }
      var (g, id) := found.value;
      if g != TABLES {
        return Err(UnknownType);
      } else if id != 0 {
        return Err(BadIndex);
      } else if !(2 <= len <= cfg.tableCapacity) {
        return Err(BadValue);
      }
      r := CommitTable(len);
    }
  }

  lemma TableToken(token: CommitToken)
    ensures TokenCommand(TABLE, token) == RtCommand(DOMAIN_TABLE, 0, Buffer(token))
    ensures ActivatedBy(TokenCommand(TABLE, token)) == Some(TABLE)
  {}

  lemma RefusedPlan(c: Core0State, error: ErrorCode)
    requires BufsOk(c.bufs)
    ensures Executed(c, Refuse(error)) == (c, Err(error))
  {}

  lemma NothingChanges(sh: Shadows)
    ensures Accepted(sh, Nothing) == sh
  {}

  lemma DefsShape(cfg: Config)
    ensures |Defs(cfg)| == 6
    ensures |Defs(cfg)[CONTROL]| == |cfg.controlDefaults| && |Defs(cfg)[RIG]| == |cfg.rigDefaults|
    ensures forall id :: 0 <= id < |Defs(cfg)[TELEMETRY]| ==> !Defs(cfg)[TELEMETRY][id].writable
    ensures forall id :: 0 <= id < |Defs(cfg)[PLATFORM]| && Defs(cfg)[PLATFORM][id].writable ==>
      Defs(cfg)[PLATFORM][id].bytes == 4
  {}

  lemma SetPlan(cfg: Config, index: nat, data: seq<Byte>)
    requires cfg.Ok()
    ensures
      PlanFor(cfg, Request.Set(index, data))
      == match Located(Defs(cfg), index)
         case None => Refuse(BadIndex)
         case Some((g, id)) =>
           if !Defs(cfg)[g][id].writable then Refuse(ReadOnly)
           else if |data| != Defs(cfg)[g][id].bytes then Refuse(BadLength)
           else GroupPlan(cfg, g, id, data)
  {
    hide GroupPlan, Defs, Located;
  }

  /** The groups whose parameters can be written, and how each plans. */
  lemma WritableGroups(cfg: Config, g: nat, id: nat, data: seq<Byte>)
    requires cfg.Ok() && g < |Defs(cfg)| && id < |Defs(cfg)[g]| && Defs(cfg)[g][id].writable
    requires |data| == Defs(cfg)[g][id].bytes
    ensures g <= RIG
    ensures g == CONTROL ==> id < |cfg.controlDefaults|
    ensures g == RIG ==> id < |cfg.rigDefaults|
    ensures g == PLATFORM ==> |data| == 4 && GroupPlan(cfg, g, id, data) == PlatformPlan(id, FromLe32(data))
    ensures g == GENERATOR ==> GroupPlan(cfg, g, id, data) == GeneratorPlan(cfg, id, data)
    ensures g == TABLES ==> GroupPlan(cfg, g, id, data) == TablePlan(cfg, id, data)
    ensures g != PLATFORM ==> ArmRequest(GroupPlan(cfg, g, id, data)) == None
  {
    hide Floats.RealOf, Floats.IsFinite, Increment, FromLe32, WordsOf, AllFinite, PhaseWord, Defs;
    DefsShape(cfg);
  }

  lemma TablePlanFits(cfg: Config, id: nat, data: seq<Byte>)
    requires cfg.Ok()
    ensures
      match TablePlan(cfg, id, data)
      case Send(command, update) =>
        && command == RtCommand(DOMAIN_TABLE, id, command.payload) && !command.payload.Buffer?
        && !update.Frequency? && !update.ControlScalar? && !update.RigScalar? && !update.BankValue?
      case Local(effect) => effect == NoEffect
      case Refuse(_) => true
      case _ => false
  {
    hide Floats.RealOf, Floats.IsFinite, Increment, FromLe32, PhaseWord;
  }

  lemma PublishedBuffers(c: Core0State, len: nat, bank: Bank, after: Core0State, staged: Staged)
    requires BufsOk(c.bufs) && BufsOk(after.bufs)
    requires
      var free := c.bufs[TABLE].banks[1 - c.bufs[TABLE].active];
      bank == free.(len := len) && len <= |free.cells| && AllFinite(free.cells[..len])
    requires Issued(c.bufs[TABLE], TABLE, bank, after.bufs[TABLE], staged)
    requires after == c.(bufs := c.bufs[TABLE := after.bufs[TABLE]])
    ensures
      Executed(c, Publish(len)) == Queued(after, TokenCommand(TABLE, staged.payload.token), BankValue(TABLE, bank))
  {
    hide Queued, TokenCommand, AllFinite;
    UpdateTwice(c.bufs, TABLE, WithBank(c.bufs[TABLE], bank), after.bufs[TABLE]);
  }

  /** What a generator request can ask for. */
  lemma GeneratorPlanFits(cfg: Config, id: nat, data: seq<Byte>)
    requires cfg.Ok()
    ensures
      match GeneratorPlan(cfg, id, data)
      case Send(command, update) =>
        command == RtCommand(DOMAIN_GENERATOR, id, command.payload) && !command.payload.Buffer? && update.Frequency?
      case Stage(k, cells) =>
        k <= FORCING && forall token :: TokenCommand(k, token) == RtCommand(DOMAIN_GENERATOR, id, Buffer(token))
      case Refuse(_) => true
      case _ => false
  {
    hide Floats.RealOf, Floats.IsFinite, Increment, FromLe32, WordsOf, AllFinite;
  }

  /** Staging in one buffer is the first half of the whole-request specification. */
  lemma StagedBuffers(c: Core0State, k: nat, cells: seq<U32>, after: Core0State, staged: Staged)
    requires BufsOk(c.bufs) && BufsOk(after.bufs) && k < BUFFERS
    requires Issued(c.bufs[k], k, Bank(cells, |cells|), after.bufs[k], staged)
    requires after == c.(bufs := c.bufs[k := after.bufs[k]])
    ensures
      Executed(c, Stage(k, cells))
      == Queued(after, TokenCommand(k, staged.payload.token), BankValue(k, Bank(cells, |cells|)))
  {
    hide Queued, TokenCommand;
    UpdateTwice(c.bufs, k, WithBank(c.bufs[k], Bank(cells, |cells|)), after.bufs[k]);
  }
}
