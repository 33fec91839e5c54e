/** One host request as core 0 performs it without interference, and what it reads back. */
module StoreSpec {
  import opened Wrappers
  import opened Words
  import opened Floats
  import opened Commands
  import opened TableBuffer
  import opened Params
  import opened StandardProgram
  import opened CommandPath
  import Table

  /** The state core 0 works on: the groups' values, the buffers, and the command queue. */
  datatype Core0State = Core0State(sh: Shadows, bufs: Bufs, queue: seq<RtCommand>)

  function Overwritten(cells: seq<U32>, offset: nat, words: seq<U32>): seq<U32>
    requires offset + |words| <= |cells|
  {
    cells[..offset] + words + cells[offset + |words|..]
  }

  /** Queueing decides the request: the update is made, or everything is taken back. */
  function Queued(c: Core0State, command: RtCommand, update: Update): (Core0State, Reply)
    requires BufsOk(c.bufs)
  {
    if |c.queue| < QUEUE_CAPACITY then
      (c.(sh := Accepted(c.sh, update), queue := c.queue + [command]), Ok(NoAction))
    else
      (match ActivatedBy(command)
       case Some(k) => c.(bufs := c.bufs[k := Cancelled(c.bufs[k], k, command.payload.token)])
       case None => c,
       Err(ErrorCode.Busy))
  }

  /** Commit the free bank of buffer `k`, then queue its token. */
  function CommittedAndQueued(c: Core0State, k: nat, update: Update): (Core0State, Reply)
    requires BufsOk(c.bufs) && k < BUFFERS && c.bufs[k].pending == NO_PENDING
  {
    var (b, token) := Committed(c.bufs[k], k);
    Queued(c.(bufs := c.bufs[k := b]), TokenCommand(k, token.value), update)
  }

  function WithBank(b: Buf<Bank>, bank: Bank): Buf<Bank>
    requires b.Ok()
  {
    b.(banks := b.banks[1 - b.active := bank])
  }

  function Executed(c: Core0State, plan: Plan): (Core0State, Reply)
    requires BufsOk(c.bufs)
  {
    match plan
    case Refuse(error) => (c, Err(error))
    case Local(effect) => (c, Ok(if effect.Reboot? then RebootAction else NoAction))
    case Send(command, update) => Queued(c, command, update)
    case Stage(k, cells) =>
      if k >= BUFFERS || c.bufs[k].pending != NO_PENDING then (c, Err(ErrorCode.Busy))
      else
        var bank := Bank(cells, |cells|);
        CommittedAndQueued(c.(bufs := c.bufs[k := WithBank(c.bufs[k], bank)]), k, BankValue(k, bank))
    case Write(offset, cells) =>
      var b := c.bufs[TABLE];
      var free := b.banks[1 - b.active];
      if b.pending != NO_PENDING || offset + |cells| > |free.cells| then (c, Err(ErrorCode.Busy))
      else
        (c.(bufs := c.bufs[TABLE := WithBank(b, free.(cells := Overwritten(free.cells, offset, cells)))]),
         Ok(NoAction))
    case Publish(len) =>
      var b := c.bufs[TABLE];
      var free := b.banks[1 - b.active];
      if b.pending != NO_PENDING then (c, Err(ErrorCode.Busy))
      else if len > |free.cells| || !AllFinite(free.cells[..len]) then (c, Err(BadValue))
      else
        var bank := free.(len := len);
        CommittedAndQueued(c.(bufs := c.bufs[TABLE := WithBank(b, bank)]), TABLE, BankValue(TABLE, bank))
  }

  /** A command is refused as busy exactly when 31 are waiting, and then leaves nothing behind. */
  lemma BusyExactlyWhenFull(c: Core0State, command: RtCommand, update: Update)
    requires BufsOk(c.bufs)
    ensures
      var (after, reply) := Queued(c, command, update);
      && (reply == Err(ErrorCode.Busy) <==> |c.queue| >= 31)
      && (|c.queue| < 31 ==> reply == Ok(NoAction) && after.queue == c.queue + [command] && after.bufs == c.bufs)
      && (|c.queue| >= 31 ==> after.queue == c.queue && after.sh == c.sh)
  {
    hide Accepted;
  }

  function Performed(cfg: Config, c: Core0State, request: Request): (Core0State, Reply)
    requires cfg.Ok() && BufsOk(c.bufs)
  {
    Executed(c, PlanFor(cfg, request))
  }

  // ---------------------------------------------------------------------------
  // The atomic steps add up to the request
  // ---------------------------------------------------------------------------

  function Core0Of(s: State): Core0State { Core0State(s.sh, s.bufs, s.queue) }

  /** A finished state with this outcome. */
  ghost predicate Outcome(t: State, outcome: (Core0State, Reply)) {
    Core0Of(t) == outcome.0 && t.pc0 == Ready(Some(outcome.1))
  }

  lemma QueueingFinishes(cfg: Config, s: State) returns (t: State)
    requires Wf(cfg, s) && s.pc0.Enqueue?
    ensures Wf(cfg, t) && Alone(cfg, Core0, s, t)
    ensures Outcome(t, Queued(Core0Of(s), s.pc0.command, s.pc0.update))
  {
    hide Accepted, Alone;
    t := Step0(cfg, s);
    AloneOnce(cfg, Core0, s);
    if !t.pc0.Ready? {
      var u := Step0(cfg, t);
      AloneOnce(cfg, Core0, t);
      AloneTransitive(cfg, Core0, s, t, u);
      t := u;
    }
  }

  lemma CommitFinishes(cfg: Config, s: State) returns (t: State)
    requires Wf(cfg, s) && s.pc0.CommitCheck? && s.bufs[s.pc0.job.Target()].pending == NO_PENDING
    ensures Wf(cfg, t) && Alone(cfg, Core0, s, t)
    ensures
      var job := s.pc0.job;
      var k := job.Target();
      Outcome(t, CommittedAndQueued(Core0Of(s), k, JobUpdate(s, job, 1 - s.bufs[k].active)))
  {
    hide Accepted, Queued, TokenCommand, ActivatedBy, JobOk, Alone;
    var u := Step0(cfg, s);
    AloneOnce(cfg, Core0, s);
    var v := Step0(cfg, u);
    AloneOnce(cfg, Core0, u);
    AloneTransitive(cfg, Core0, s, u, v);
    var w := Step0(cfg, v);
    AloneOnce(cfg, Core0, v);
    AloneTransitive(cfg, Core0, s, v, w);
    t := QueueingFinishes(cfg, w);
    AloneTransitive(cfg, Core0, s, w, t);
  }

  /** The state once every word of the job is in place. */
  function AllFilled(s: State, job: Job, bank: nat): State
    requires BufsOk(s.bufs) && job.Target() < BUFFERS && bank < 2 && !job.PublishJob?
    requires job.Offset() + |job.cells| <= |s.bufs[job.Target()].banks[bank].cells|
  {
    var k := job.Target();
    var free := s.bufs[k].banks[bank];
    var full := free.(cells := Overwritten(free.cells, job.Offset(), job.cells));
    s.(bufs := s.bufs[k := s.bufs[k].(banks := s.bufs[k].banks[bank := full])],
       pc0 := if job.WriteJob? then DONE else CommitCheck(job))
  }

  /** The first `i` words are in place. */
  ghost predicate PartlyFilled(s: State, job: Job, bank: nat, i: nat) {
    && BufsOk(s.bufs) && job.Target() < BUFFERS && bank < 2 && !job.PublishJob? && i <= |job.cells|
    && var cells := s.bufs[job.Target()].banks[bank].cells;
       && job.Offset() + |job.cells| <= |cells|
       && cells[job.Offset()..job.Offset() + i] == job.cells[..i]
  }

  lemma FillOne(cfg: Config, s: State, job: Job, bank: nat, i: nat)
    requires Wf(cfg, s) && s.pc0 == Filling(job, bank, i) && PartlyFilled(s, job, bank, i) && i < |job.cells|
    ensures
      var t := Step0(cfg, s);
      && t.pc0 == Filling(job, bank, i + 1)
      && PartlyFilled(t, job, bank, i + 1)
      && AllFilled(t, job, bank) == AllFilled(s, job, bank)
  {
    hide JobOk, AllFinite;
    var at := job.Offset();
    var cells := s.bufs[job.Target()].banks[bank].cells;
    var next := cells[at + i := job.cells[i]];
    assert next[at..at + i + 1] == cells[at..at + i] + [job.cells[i]];
    assert job.cells[..i + 1] == job.cells[..i] + [job.cells[i]];
    assert Overwritten(next, at, job.cells) == Overwritten(cells, at, job.cells);
    var b := s.bufs[job.Target()];
    var t := Step0(cfg, s);
    assert t.bufs[job.Target()] == WithCell(b, bank, at + i, job.cells[i]);
    UpdateTwice(b.banks, bank, b.banks[bank].(cells := next), AllFilled(s, job, bank).bufs[job.Target()].banks[bank]);
    UpdateTwice(s.bufs, job.Target(), t.bufs[job.Target()], AllFilled(s, job, bank).bufs[job.Target()]);
  }

  lemma UpdateTwice<T>(q: seq<T>, i: nat, x: T, y: T)
    requires i < |q|
    ensures q[i := x][i := y] == q[i := y]
  {}

  lemma FillEnds(cfg: Config, s: State, job: Job, bank: nat)
    requires Wf(cfg, s) && s.pc0 == Filling(job, bank, |job.Cells()|) && PartlyFilled(s, job, bank, |job.Cells()|)
    ensures Step0(cfg, s) == AllFilled(s, job, bank)
  {
    hide JobOk, AllFinite;
    var cells := s.bufs[job.Target()].banks[bank].cells;
    assert job.cells[..|job.cells|] == job.cells;
    assert Overwritten(cells, job.Offset(), job.cells) == cells;
    var b := s.bufs[job.Target()];
    assert b.banks[bank := b.banks[bank]] == b.banks;
    assert s.bufs[job.Target() := b] == s.bufs;
  }

  lemma {:induction false} FillingReaches(cfg: Config, s: State, job: Job, bank: nat, i: nat)
    requires Wf(cfg, s) && s.pc0 == Filling(job, bank, i) && PartlyFilled(s, job, bank, i)
    ensures Alone(cfg, Core0, s, AllFilled(s, job, bank))
    decreases |job.cells| - i
  {
    hide Step0, Alone, AllFilled, JobOk;
    AloneOnce(cfg, Core0, s);
    if i < |job.cells| {
      FillOne(cfg, s, job, bank, i);
      FillingReaches(cfg, Step0(cfg, s), job, bank, i + 1);
      AloneTransitive(cfg, Core0, s, Step0(cfg, s), AllFilled(s, job, bank));
    } else {
      FillEnds(cfg, s, job, bank);
    }
  }

  /** A staging job on a free buffer gets as far as its borrowed bank. */
  lemma BorrowReaches(cfg: Config, s: State) returns (t: State)
    requires Wf(cfg, s) && s.pc0.BufferCheck? && s.bufs[s.pc0.job.Target()].pending == NO_PENDING
    ensures Wf(cfg, t) && Alone(cfg, Core0, s, t)
    ensures t == s.(pc0 := Filling(s.pc0.job, 1 - s.bufs[s.pc0.job.Target()].active, 0))
  {
    hide JobOk, Alone;
    var u := Step0(cfg, s);
    AloneOnce(cfg, Core0, s);
    t := Step0(cfg, u);
    AloneOnce(cfg, Core0, u);
    AloneTransitive(cfg, Core0, s, u, t);
  }

  lemma StageFinishes(cfg: Config, s: State, k: nat, cells: seq<U32>) returns (t: State)
    requires Wf(cfg, s) && Widths(cfg, s.bufs) && s.pc0 == BufferCheck(StageJob(k, cells))
    ensures Wf(cfg, t) && Alone(cfg, Core0, s, t) && Outcome(t, Executed(Core0Of(s), Stage(k, cells)))
  {
    hide Alone, CommittedAndQueued, Step0;
    if s.bufs[k].pending != NO_PENDING {
      t := Step0(cfg, s);
      AloneOnce(cfg, Core0, s);
      BusyAtOnce(cfg, s);
    } else {
      var job := s.pc0.job;
      var u := BorrowReaches(cfg, s);
      var bank := 1 - s.bufs[k].active;
      assert BankFits(cfg, k, s.bufs[k].banks[bank]);
      FillingReaches(cfg, u, job, bank, 0);
      var v := AllFilled(u, job, bank);
      assert Overwritten(s.bufs[k].banks[bank].cells, 0, cells) == cells;
      AloneTransitive(cfg, Core0, s, u, v);
      AloneIsWf(cfg, Core0, u, v);
      t := CommitFinishes(cfg, v);
      AloneTransitive(cfg, Core0, s, v, t);
    }
  }

  lemma BusyAtOnce(cfg: Config, s: State)
    requires Wf(cfg, s) && s.pc0.BufferCheck? && s.bufs[s.pc0.job.Target()].pending != NO_PENDING
    ensures Step0(cfg, s) == s.(pc0 := BUSY)
  {}

  lemma WriteFinishes(cfg: Config, s: State, offset: nat, cells: seq<U32>) returns (t: State)
    requires Wf(cfg, s) && Widths(cfg, s.bufs) && s.pc0 == BufferCheck(WriteJob(offset, cells))
    ensures Wf(cfg, t) && Alone(cfg, Core0, s, t) && Outcome(t, Executed(Core0Of(s), Write(offset, cells)))
  {
    hide Alone, Step0;
    if s.bufs[TABLE].pending != NO_PENDING {
      t := Step0(cfg, s);
      AloneOnce(cfg, Core0, s);
      BusyAtOnce(cfg, s);
    } else {
      var u := BorrowReaches(cfg, s);
      var bank := 1 - s.bufs[TABLE].active;
      assert BankFits(cfg, TABLE, s.bufs[TABLE].banks[bank]);
      FillingReaches(cfg, u, s.pc0.job, bank, 0);
      t := AllFilled(u, s.pc0.job, bank);
      AloneTransitive(cfg, Core0, s, u, t);
      AloneIsWf(cfg, Core0, u, t);
    }
  }

  lemma PublishChecks(cfg: Config, s: State, len: nat, bank: nat)
    requires Wf(cfg, s) && Widths(cfg, s.bufs) && s.pc0 == Filling(PublishJob(len), bank, 0)
    ensures
      var cells := s.bufs[TABLE].banks[bank].cells;
      && len <= |cells|
      && Step0(cfg, s) == if AllFinite(cells[..len])
                          then s.(bufs := s.bufs[TABLE := WithLen(s.bufs[TABLE], bank, len)], pc0 := CommitCheck(PublishJob(len)))
                          else s.(pc0 := REJECTED)
  {
    hide AllFinite;
    assert BankFits(cfg, TABLE, s.bufs[TABLE].banks[bank]);
  }

  lemma PublishFinishes(cfg: Config, s: State, len: nat) returns (t: State)
    requires Wf(cfg, s) && Widths(cfg, s.bufs) && s.pc0 == BufferCheck(PublishJob(len))
    ensures Wf(cfg, t) && Alone(cfg, Core0, s, t) && Outcome(t, Executed(Core0Of(s), Publish(len)))
  {
    hide Alone, Step0, AllFinite, CommittedAndQueued;
    if s.bufs[TABLE].pending != NO_PENDING {
      t := Step0(cfg, s);
      AloneOnce(cfg, Core0, s);
      BusyAtOnce(cfg, s);
    } else {
      var u := BorrowReaches(cfg, s);
      var bank := 1 - s.bufs[TABLE].active;
      PublishChecks(cfg, u, len, bank);
      t := Step0(cfg, u);
      AloneOnce(cfg, Core0, u);
      AloneTransitive(cfg, Core0, s, u, t);
      if AllFinite(s.bufs[TABLE].banks[bank].cells[..len]) {
        var v := t;
        t := CommitFinishes(cfg, v);
        AloneTransitive(cfg, Core0, s, v, t);
      }
    }
  }

  /** Core 0's atomic steps, run without interruption, carry a request out exactly as the
      whole-request specification says: same reply, same values, same banks, same queue. */
  lemma StepsPerformTheRequest(cfg: Config, s: State, request: Request) returns (t: State)
    requires Wf(cfg, s) && Widths(cfg, s.bufs) && s.pc0.Ready?
    ensures
      var begun := Step(cfg, s, Host(request));
      && Wf(cfg, begun) && Alone(cfg, Core0, begun, t)
      && Outcome(t, Performed(cfg, Core0Of(s), request))
  {
    hide PlanFor, Executed, Alone, Pc0Ok, Step0, Step1;
    var plan := PlanFor(cfg, request);
    var begun := Step(cfg, s, Host(request));
    StepWf(cfg, s, Host(request));
    AloneAlready(cfg, Core0, begun);
    match plan {
      case Refuse(_) => t := begun; ImmediateOutcome(s, plan);
      case Local(_) => t := begun; ImmediateOutcome(s, plan);
      case Send(command, update) => t := QueueingFinishes(cfg, begun); SendOutcome(s, plan);
      case Stage(k, cells) => t := StageFinishes(cfg, begun, k, cells);
      case Write(offset, cells) => t := WriteFinishes(cfg, begun, offset, cells);
      case Publish(len) => t := PublishFinishes(cfg, begun, len);
    }
  }

  lemma ImmediateOutcome(s: State, plan: Plan)
    requires BufsOk(s.bufs) && (plan.Refuse? || plan.Local?)
    ensures Outcome(s.(pc0 := Begin(plan)), Executed(Core0Of(s), plan))
  {}

  lemma SendOutcome(s: State, plan: Plan)
    requires BufsOk(s.bufs) && plan.Send?
    ensures Executed(Core0Of(s), plan) == Queued(Core0Of(s), plan.command, plan.update)
  {}

  // ---------------------------------------------------------------------------
  // Reading back
  // ---------------------------------------------------------------------------

  /** The bytes a group reports for one of its own parameters. */
  function ReadBack(sh: Shadows, g: nat, id: nat): Result<seq<Byte>, ErrorCode>
    requires |sh.banks| == BUFFERS
  {
    if g == GENERATOR then
      if id == 0 then Ok(Le32(sh.frequency))
      else if id == 1 then Ok(BytesOf(sh.banks[TARGET].cells))
      else if id == 2 then Ok(BytesOf(sh.banks[FORCING].cells))
      else Err(BadIndex)
    else if g == TABLES then
      if id == 0 then Err(BadLength)
      else if id > 7 then Err(BadIndex)
      else Ok(Le32(TableWord(sh.table, id)))
    else if g == CONTROL then
      if id < |sh.control| then Ok(Le32(sh.control[id])) else Err(BadIndex)
    else if g == RIG then
      if id < |sh.rig| then Ok(Le32(sh.rig[id])) else Err(BadIndex)
    else Err(BadIndex)
  }

  function TableWord(t: TableShadow, id: nat): U32 {
    match id
    case 1 => t.frequency
    case 2 => t.gain
    case 3 => t.interpolation
    case 4 => t.mode
    case 5 => t.multiplier
    case 6 => t.phase
    case _ => 0
  }

  /** A parameter whose bytes are stored as they were sent. */
  predicate StoredVerbatim(g: nat, id: nat) { g == GENERATOR || (g == TABLES && id != 7) }

  /** Writing a generator or table parameter and reading it back returns the same bytes,
      whatever they were, as soon as the write succeeds. */
  lemma GetReturnsWhatWasSet(cfg: Config, c: Core0State, g: nat, id: nat, data: seq<Byte>)
    requires cfg.Ok() && BufsOk(c.bufs) && |c.sh.banks| == BUFFERS && StoredVerbatim(g, id)
    requires Executed(c, GroupPlan(cfg, g, id, data)).1.Ok?
    ensures
      var after := Executed(c, GroupPlan(cfg, g, id, data)).0;
      |after.sh.banks| == BUFFERS && ReadBack(after.sh, g, id) == Ok(data)
  {
    hide RealOf, IsFinite, Increment, PhaseWord, FromLe32, Le32, AllFinite, Table.InterpolationFrom, Table.ModeFrom;
    if |data| == 4 { FromLe32RoundTrip(data); }
    if |data| % 4 == 0 { BytesRoundTrip(data); }
  }

  /** A request that fails leaves every reported value, the queue, every active value and
      every buffer's availability as they were; only a bank nobody reads may differ. */
  lemma FailureRestores(cfg: Config, c: Core0State, request: Request, k: nat)
    requires cfg.Ok() && BufsOk(c.bufs) && k < BUFFERS && c.bufs[k].current == c.bufs[k].active
    requires Performed(cfg, c, request).1.Err?
    ensures
      var after := Performed(cfg, c, request).0;
      && after.sh == c.sh && after.queue == c.queue
      && BufsOk(after.bufs)
      && after.bufs[k].Get() == c.bufs[k].Get()
      && after.bufs[k].pending == c.bufs[k].pending
      && after.bufs[k].active == c.bufs[k].active
      && after.bufs[k].current == c.bufs[k].current
  {
    hide PlanFor, Executed;
    SendsScalars(cfg, request);
    ExecutedRestores(c, PlanFor(cfg, request), k);
  }

  lemma ExecutedRestores(c: Core0State, plan: Plan, k: nat)
    requires BufsOk(c.bufs) && k < BUFFERS && c.bufs[k].current == c.bufs[k].active
    requires plan.Send? ==> ActivatedBy(plan.command).None?
    requires Executed(c, plan).1.Err?
    ensures
      var after := Executed(c, plan).0;
      && after.sh == c.sh && after.queue == c.queue
      && BufsOk(after.bufs)
      && after.bufs[k].Get() == c.bufs[k].Get()
      && after.bufs[k].pending == c.bufs[k].pending
      && after.bufs[k].active == c.bufs[k].active
      && after.bufs[k].current == c.bufs[k].current
  {
    hide AllFinite, Overwritten, Accepted, TokenCommand, ActivatedBy;
    match plan {
      case Stage(j, _) => if j < BUFFERS { TokenGoesTo(j); }
      case Publish(_) => TokenGoesTo(TABLE);
      case _ =>
    }
  }

  lemma TokenGoesTo(k: nat)
    requires k < BUFFERS
    ensures forall token ::
      ActivatedBy(TokenCommand(k, token)) == Some(k) && TokenCommand(k, token).payload == Buffer(token)
  {}

  lemma SendsScalars(cfg: Config, request: Request)
    requires cfg.Ok()
    ensures PlanFor(cfg, request).Send? ==> ActivatedBy(PlanFor(cfg, request).command).None?
  {
    hide GroupPlan, Located, Defs;
    match Located(Defs(cfg), request.index)
    case None =>
    case Some((g, id)) =>
      if request.Set? { GroupSends(cfg, g, id, request.data); }
  }

  lemma GroupSends(cfg: Config, g: nat, id: nat, data: seq<Byte>)
    requires cfg.Ok()
    ensures GroupPlan(cfg, g, id, data).Send? ==> ActivatedBy(GroupPlan(cfg, g, id, data).command).None?
  {
    hide RealOf, IsFinite, Increment, PhaseWord, FromLe32, AllFinite;
  }
}
