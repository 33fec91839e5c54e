/** The two-core command path as interleaved atomic steps: core 0 carries out one host
    request at a time while core 1 drains the queue and runs its ticks. */
module CommandPath {
  import opened Wrappers
  import opened Words
  import opened Commands
  import opened TableBuffer
  import opened Params
  import opened StandardProgram
  import opened Floats
  import Table

  /** Work on a staging bank: a coefficient vector, table words, or a table length. */
  datatype Job =
    | StageJob(k: nat, cells: seq<U32>)
    | WriteJob(offset: nat, cells: seq<U32>)
    | PublishJob(len: nat)
  {
    function Target(): nat { if StageJob? then k else TABLE }

    /** Offset of the first word this job writes. */
    function Offset(): nat { if WriteJob? then offset else 0 }

    function Cells(): seq<U32> { if PublishJob? then [] else cells }
  }

  /** Where core 0 is inside a request; each step performs one atomic access. */
  datatype Pc0 =
    | Ready(reply: Option<Reply>)
    | BufferCheck(job: Job)
    | BufferSelect(job: Job)
    | Filling(job: Job, bank: nat, i: nat)
    | CommitCheck(job: Job)
    | CommitSelect(job: Job)
    | CommitStore(job: Job, bank: nat)
    | Enqueue(command: RtCommand, update: Update)
    | Accept(update: Update)
    | Cancel(k: nat, token: CommitToken)

  /** Where core 1 is inside a tick, and how many commands the tick has taken. */
  datatype Pc1 =
    | Waiting
    | Draining(applied: nat)
    | Activating(k: nat, token: CommitToken, applied: nat)
    | StoreActive(k: nat, token: CommitToken, applied: nat)
    | StorePending(k: nat, token: CommitToken, applied: nat)
    | StoreLen(applied: nat)

  /** `log` and `done` are histories: every command ever queued, and those completely applied. */
  datatype State = State(
    sh: Shadows, pc0: Pc0,
    queue: seq<RtCommand>, bufs: Bufs,
    program: Program, pc1: Pc1,
    log: seq<RtCommand>, done: seq<RtCommand>)

  /** What a tick sees of the world outside: the safety snapshot and the control's decision. */
  datatype Sample = Sample(outputEnabled: bool, control: ControlStep)

  datatype Event = Host(request: Request) | Core0 | Core1(sample: Sample)

  // ---------------------------------------------------------------------------
  // Initial state
  // ---------------------------------------------------------------------------

  function Zeros(n: nat): seq<U32> { seq(n, _ => 0) }

  function EmptyBank(cfg: Config, k: nat): Bank {
    Bank(Zeros(cfg.Width(k)), if k == TABLE then 0 else cfg.Width(k))
  }

  function NewBuf(cfg: Config, k: nat): Buf<Bank> {
    Buf([EmptyBank(cfg, k), EmptyBank(cfg, k)], 0, NO_PENDING, 0)
  }

  const ONE: U32 := 0x3F80_0000

  function NewShadows(cfg: Config): Shadows {
    Shadows(0, [EmptyBank(cfg, TARGET), EmptyBank(cfg, FORCING), EmptyBank(cfg, TABLE)],
            TableShadow(0, ONE, 1, 0, 1, 0), cfg.controlDefaults, cfg.rigDefaults)
  }

  function NewProgram(cfg: Config): Program {
    Program(0, 0, 0, false, Table.NEW_PLAYER, cfg.controlDefaults, cfg.rigDefaults, 0)
  }

  function Initial(cfg: Config): State {
    State(NewShadows(cfg), Ready(None), [], [NewBuf(cfg, TARGET), NewBuf(cfg, FORCING), NewBuf(cfg, TABLE)],
          NewProgram(cfg), Waiting, [], [])
  }

  // ---------------------------------------------------------------------------
  // Steps
  // ---------------------------------------------------------------------------

  function Begin(plan: Plan): Pc0 {
    match plan
    case Refuse(error) => Ready(Some(Err(error)))
    case Local(effect) => Ready(Some(Ok(if effect.Reboot? then RebootAction else NoAction)))
    case Send(command, update) => Enqueue(command, update)
    case Stage(k, cells) => BufferCheck(StageJob(k, cells))
    case Write(offset, cells) => BufferCheck(WriteJob(offset, cells))
    case Publish(len) => BufferCheck(PublishJob(len))
  }

  const DONE := Ready(Some(Ok(NoAction)))

  const BUSY := Ready(Some(Err(ErrorCode.Busy)))

  const REJECTED := Ready(Some(Err(BadValue)))

  ghost predicate BufsOk(bufs: Bufs) {
    |bufs| == BUFFERS && forall k :: 0 <= k < BUFFERS ==> bufs[k].Ok()
  }

  function WithCell(b: Buf<Bank>, bank: nat, i: nat, cell: U32): Buf<Bank> {
    if bank < |b.banks| && i < |b.banks[bank].cells| then
      b.(banks := b.banks[bank := b.banks[bank].(cells := b.banks[bank].cells[i := cell])])
    else b
  }

  function WithLen(b: Buf<Bank>, bank: nat, len: nat): Buf<Bank> {
    if bank < |b.banks| then b.(banks := b.banks[bank := b.banks[bank].(len := len)]) else b
  }

  /** One word of a bank, or the check-and-set of a table's length, or the end of the work. */
  function Filled(s: State, job: Job, bank: nat, i: nat): State
    requires BufsOk(s.bufs) && job.Target() < BUFFERS && bank < 2
  {
    var k := job.Target();
    var b := s.bufs[k];
    if job.PublishJob? then
      if job.len <= |b.banks[bank].cells| && AllFinite(b.banks[bank].cells[..job.len]) then
        s.(bufs := s.bufs[k := WithLen(b, bank, job.len)], pc0 := CommitCheck(job))
      else s.(pc0 := REJECTED)
    else if i < |job.cells| then
      s.(bufs := s.bufs[k := WithCell(b, bank, job.Offset() + i, job.cells[i])],
         pc0 := Filling(job, bank, i + 1))
    else s.(pc0 := if job.WriteJob? then DONE else CommitCheck(job))
  }

  /** The value a committed job makes the shadow report. */
  function JobUpdate(s: State, job: Job, bank: nat): Update
    requires BufsOk(s.bufs) && job.Target() < BUFFERS && bank < 2
  {
    if job.StageJob? then BankValue(job.k, Bank(job.cells, |job.cells|))
    else BankValue(TABLE, s.bufs[TABLE].banks[bank])
  }

  ghost predicate JobOk(cfg: Config, job: Job) {
    match job
    case StageJob(k, cells) => (k == TARGET || k == FORCING) && |cells| == cfg.Width(k)
    case WriteJob(offset, cells) => offset + |cells| <= cfg.tableCapacity
    case PublishJob(len) => 2 <= len <= cfg.tableCapacity
  }

  /** Facts about core 0's own locals. */
  ghost predicate Pc0Ok(cfg: Config, pc: Pc0) {
    match pc
    case BufferCheck(job) => JobOk(cfg, job)
    case BufferSelect(job) => JobOk(cfg, job)
    case Filling(job, bank, i) => JobOk(cfg, job) && bank < 2 && i <= |job.Cells()|
    case CommitCheck(job) => JobOk(cfg, job) && !job.WriteJob?
    case CommitSelect(job) => JobOk(cfg, job) && !job.WriteJob?
    case CommitStore(job, bank) => JobOk(cfg, job) && !job.WriteJob? && bank < 2
    case Enqueue(_, _) => true
    case Accept(_) => true
    case Cancel(k, _) => k < BUFFERS
    case Ready(_) => true
  }

  function Step0(cfg: Config, s: State): State
    requires BufsOk(s.bufs) && Pc0Ok(cfg, s.pc0)
  {
    match s.pc0
    case Ready(_) => s
    case BufferCheck(job) =>
      s.(pc0 := if s.bufs[job.Target()].pending != NO_PENDING then BUSY else BufferSelect(job))
    case BufferSelect(job) => s.(pc0 := Filling(job, 1 - s.bufs[job.Target()].active, 0))
    case Filling(job, bank, i) => Filled(s, job, bank, i)
    case CommitCheck(job) =>
      s.(pc0 := if s.bufs[job.Target()].pending != NO_PENDING then BUSY else CommitSelect(job))
    case CommitSelect(job) => s.(pc0 := CommitStore(job, 1 - s.bufs[job.Target()].active))
    case CommitStore(job, bank) =>
      var k := job.Target();
      s.(bufs := s.bufs[k := s.bufs[k].(pending := bank + 1)],
         pc0 := Enqueue(TokenCommand(k, CommitToken(k, bank)), JobUpdate(s, job, bank)))
    case Enqueue(command, update) =>
      if |s.queue| < QUEUE_CAPACITY then
        s.(queue := s.queue + [command], log := s.log + [command], pc0 := Accept(update))
      else
        s.(pc0 := match ActivatedBy(command)
                  case Some(k) => Cancel(k, command.payload.token)
                  case None => BUSY)
    case Accept(update) => s.(sh := Accepted(s.sh, update), pc0 := DONE)
    case Cancel(k, token) =>
      s.(bufs := s.bufs[k := Cancelled(s.bufs[k], k, token)], pc0 := BUSY)
  }

  ghost predicate Pc1Ok(pc: Pc1) {
    match pc
    case Waiting => true
    case Draining(applied) => applied <= COMMANDS_PER_TICK
    case Activating(k, _, applied) => k < BUFFERS && 0 < applied <= COMMANDS_PER_TICK
    case StoreActive(k, _, applied) => k < BUFFERS && 0 < applied <= COMMANDS_PER_TICK
    case StorePending(k, _, applied) => k < BUFFERS && 0 < applied <= COMMANDS_PER_TICK
    case StoreLen(applied) => 0 < applied <= COMMANDS_PER_TICK
  }

  function Dequeued(s: State, applied: nat): State
    requires s.queue != []
  {
    var c := s.queue[0];
    match ActivatedBy(c)
    case Some(k) => s.(queue := s.queue[1..], pc1 := Activating(k, c.payload.token, applied + 1))
    case None =>
      s.(queue := s.queue[1..], program := ScalarApplied(s.program, c),
         pc1 := Draining(applied + 1), done := s.done + [c])
  }

  function AfterActivation(k: nat, applied: nat): Pc1 {
    if k == TABLE then StoreLen(applied) else Draining(applied)
  }

  function Step1(s: State, sample: Sample): State
    requires BufsOk(s.bufs) && Pc1Ok(s.pc1)
  {
    match s.pc1
    case Waiting => s.(pc1 := Draining(0))
    case Draining(applied) =>
      if applied < COMMANDS_PER_TICK && s.queue != [] then Dequeued(s, applied)
      else
        s.(program := Stepped(s.program, s.bufs[TABLE].Get().len, sample.outputEnabled, sample.control),
           pc1 := Waiting)
    case Activating(k, token, applied) =>
      var b := s.bufs[k];
      if token.owner != k || b.pending == NO_PENDING || b.pending - 1 != token.bank then
        s.(pc1 := AfterActivation(k, applied), done := s.done + [TokenCommand(k, token)])
      else
        s.(bufs := s.bufs[k := b.(current := b.pending - 1)], pc1 := StoreActive(k, token, applied))
    case StoreActive(k, token, applied) =>
      var b := s.bufs[k];
      s.(bufs := s.bufs[k := b.(active := b.current)], pc1 := StorePending(k, token, applied))
    case StorePending(k, token, applied) =>
      var b := s.bufs[k];
      s.(bufs := s.bufs[k := b.(pending := NO_PENDING)],
         pc1 := AfterActivation(k, applied), done := s.done + [TokenCommand(k, token)])
    case StoreLen(applied) =>
      s.(program := s.program.(tableLen := s.bufs[TABLE].Get().len), pc1 := Draining(applied))
  }

  /** Every bank keeps its width; coefficient banks are always full. */
  ghost predicate Widths(cfg: Config, bufs: Bufs) {
    && BufsOk(bufs)
    && forall k, b :: 0 <= k < BUFFERS && 0 <= b < 2 ==> BankFits(cfg, k, bufs[k].banks[b])
  }

  predicate BankFits(cfg: Config, k: nat, bank: Bank) {
    |bank.cells| == cfg.Width(k) && if k == TABLE then bank.len <= cfg.tableCapacity else bank.len == cfg.Width(k)
  }

  /** Every index a step uses is in range. */
  ghost predicate Wf(cfg: Config, s: State) {
    cfg.Ok() && BufsOk(s.bufs) && Pc0Ok(cfg, s.pc0) && Pc1Ok(s.pc1)
  }

  function Step(cfg: Config, s: State, event: Event): State
    requires Wf(cfg, s)
  {
    match event
    case Host(request) => if s.pc0.Ready? then s.(pc0 := Begin(PlanFor(cfg, request))) else s
    case Core0 => Step0(cfg, s)
    case Core1(sample) => Step1(s, sample)
  }

  /** A validated plan stays inside the bank it names. */
  lemma PlanShape(cfg: Config, request: Request)
    requires cfg.Ok()
    ensures Pc0Ok(cfg, Begin(PlanFor(cfg, request)))
  {
    hide RealOf, IsFinite, Increment, PhaseWord, FromLe32, Located, Defs;
    match Located(Defs(cfg), request.index)
    case None =>
    case Some((g, id)) =>
      if request.Set? { GroupPlanShape(cfg, g, id, request.data); }
  }

  lemma GroupPlanShape(cfg: Config, g: nat, id: nat, data: seq<Byte>)
    requires cfg.Ok()
    ensures Pc0Ok(cfg, Begin(GroupPlan(cfg, g, id, data)))
  {
    hide RealOf, IsFinite, Increment, PhaseWord, FromLe32, AllFinite;
  }

  lemma Step0Wf(cfg: Config, s: State)
    requires Wf(cfg, s)
    ensures Wf(cfg, Step0(cfg, s))
  {
    hide AllFinite, JobUpdate, Accepted, TokenCommand;
  }

  lemma Step1Wf(cfg: Config, s: State, sample: Sample)
    requires Wf(cfg, s)
    ensures Wf(cfg, Step1(s, sample))
  {
    hide Stepped, ScalarApplied, TokenCommand, JobOk;
  }

  lemma StepWf(cfg: Config, s: State, event: Event)
    requires Wf(cfg, s)
    ensures Wf(cfg, Step(cfg, s, event))
  {
    hide PlanFor, Step0, Step1, BufsOk, Begin, Pc0Ok, Pc1Ok;
    match event {
      case Host(request) => PlanShape(cfg, request);
      case Core0 => Step0Wf(cfg, s);
      case Core1(sample) => Step1Wf(cfg, s, sample);
    }
  }

  /** The state after any interleaving of host requests and single core steps. */
  function Run(cfg: Config, s: State, events: seq<Event>): (after: State)
    requires Wf(cfg, s)
    ensures Wf(cfg, after)
  {
    if events == [] then s
    else
      var before := Run(cfg, s, events[..|events| - 1]);
      StepWf(cfg, before, events[|events| - 1]);
      Step(cfg, before, events[|events| - 1])
  }

  lemma InitiallyWf(cfg: Config)
    requires cfg.Ok()
    ensures Wf(cfg, Initial(cfg))
  {}

  /** A reachable state: what some interleaving makes of the initial one. */
  function Reached(cfg: Config, events: seq<Event>): (s: State)
    requires cfg.Ok()
    ensures Wf(cfg, s)
  {
    InitiallyWf(cfg);
    Run(cfg, Initial(cfg), events)
  }

  // ---------------------------------------------------------------------------
  // One core running alone
  // ---------------------------------------------------------------------------

  /** The state after `n` repetitions of one event. */
  function Repeated(cfg: Config, event: Event, s: State, n: nat): (t: State)
    requires Wf(cfg, s)
    ensures Wf(cfg, t)
    decreases n
  {
    if n == 0 then s
    else
      StepWf(cfg, s, event);
      Repeated(cfg, event, Step(cfg, s, event), n - 1)
  }

  /** Repeating the event alone gets from one state to the other. */
  ghost predicate Alone(cfg: Config, event: Event, s: State, t: State)
    requires Wf(cfg, s)
  {
    exists n: nat :: Repeated(cfg, event, s, n) == t
  }

  lemma AloneAlready(cfg: Config, event: Event, s: State)
    requires Wf(cfg, s)
    ensures Alone(cfg, event, s, s)
  {
    assert Repeated(cfg, event, s, 0) == s;
  }

  lemma {:induction false} RepeatedAdds(cfg: Config, event: Event, s: State, m: nat, n: nat)
    requires Wf(cfg, s)
    ensures Repeated(cfg, event, s, m + n) == Repeated(cfg, event, Repeated(cfg, event, s, m), n)
    decreases m
  {
    hide Wf, Step;
    if m > 0 {
      StepWf(cfg, s, event);
      RepeatedAdds(cfg, event, Step(cfg, s, event), m - 1, n);
    }
  }

  lemma AloneTransitive(cfg: Config, event: Event, s: State, t: State, u: State)
    requires Wf(cfg, s) && Wf(cfg, t) && Alone(cfg, event, s, t) && Alone(cfg, event, t, u)
    ensures Alone(cfg, event, s, u)
  {
    hide Wf, Step;
    var m: nat :| Repeated(cfg, event, s, m) == t;
    var n: nat :| Repeated(cfg, event, t, n) == u;
    RepeatedAdds(cfg, event, s, m, n);
  }

  lemma AloneOnce(cfg: Config, event: Event, s: State)
    requires Wf(cfg, s)
    ensures Wf(cfg, Step(cfg, s, event)) && Alone(cfg, event, s, Step(cfg, s, event))
  {
    hide Wf, Step;
    StepWf(cfg, s, event);
    var t := Step(cfg, s, event);
    assert Repeated(cfg, event, t, 0) == t;
    assert Repeated(cfg, event, s, 1) == t;
  }

  lemma AloneIsWf(cfg: Config, event: Event, s: State, t: State)
    requires Wf(cfg, s) && Alone(cfg, event, s, t)
    ensures Wf(cfg, t)
  {
    hide Wf, Step;
  }
}
