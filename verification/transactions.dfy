/** Every host request is all or nothing, in every interleaving with core 1. */
module Transactions {
  import opened Commands
  import opened Params
  import opened StandardProgram
  import opened CommandPath
  import opened TokenProtocol

  /** The one command and the one update that a plan may produce. */
  predicate Answers(plan: Plan, c: RtCommand, u: Update) {
    match plan
    case Send(command, update) => c == command && u == update
    case Stage(k, cells) => CarriesTokenOf(k, c) && u == BankValue(k, Bank(cells, |cells|))
    case Publish(len) => CarriesTokenOf(TABLE, c) && u.BankValue? && u.k == TABLE && Playable(u.bank, len)
    case _ => false
  }

  /** A table of this length with only finite knots. */
  predicate Playable(bank: Bank, len: nat) {
    bank.len == len <= |bank.cells| && AllFinite(bank.cells[..len])
  }

  predicate Carries(plan: Plan, job: Job) {
    match plan
    case Stage(k, cells) => job == StageJob(k, cells)
    case Write(offset, cells) => job == WriteJob(offset, cells)
    case Publish(len) => job == PublishJob(len)
    case _ => false
  }

  predicate Untouched(s: State, t: State) { t.sh == s.sh && t.log == s.log }

  /** The plan's command was the only one queued, and its update the only one made, if any. */
  ghost predicate Completed(s: State, plan: Plan, t: State) {
    if plan.Local? || plan.Write? then Untouched(s, t)
    else
      exists c, u :: Answers(plan, c, u) && t.log == s.log + [c] && t.sh == Accepted(s.sh, u)
  }

  /** How far a request that began in `s` has come in `t`. */
  ghost predicate Underway(s: State, plan: Plan, t: State) {
    match t.pc0
    case Ready(None) => false
    case Ready(Some(Ok(_))) => Completed(s, plan, t)
    case Ready(Some(Err(_))) => Untouched(s, t)
    case Accept(u) => t.sh == s.sh && exists c :: Answers(plan, c, u) && t.log == s.log + [c]
    case Enqueue(c, u) => Untouched(s, t) && Answers(plan, c, u)
    case Cancel(_, _) => Untouched(s, t)
    case BufferCheck(job) => Untouched(s, t) && Carries(plan, job)
    case BufferSelect(job) => Untouched(s, t) && Carries(plan, job)
    case Filling(job, _, _) => Untouched(s, t) && Carries(plan, job)
    case CommitCheck(job) => Untouched(s, t) && Carries(plan, job) && Checked(job, t)
    case CommitSelect(job) => Untouched(s, t) && Carries(plan, job) && Checked(job, t)
    case CommitStore(job, _) => Untouched(s, t) && Carries(plan, job) && Checked(job, t)
  }

  /** A table about to be committed passed its check and got its length. */
  ghost predicate Checked(job: Job, t: State) {
    job.PublishJob? && BufsOk(t.bufs) ==> Playable(t.bufs[TABLE].banks[1 - t.bufs[TABLE].active], job.len)
  }

  lemma BeginIsUnderway(cfg: Config, s: State, request: Request)
    requires Wf(cfg, s) && s.pc0.Ready?
    ensures Underway(s, PlanFor(cfg, request), Step(cfg, s, Host(request)))
  {
    hide PlanFor;
  }

  lemma FilledIsUnderway(cfg: Config, s: State, plan: Plan, t: State)
    requires Wf(cfg, t) && Tokens(t) && t.pc0.Filling? && Underway(s, plan, t)
    ensures Underway(s, plan, Step0(cfg, t))
  {
    hide Conserved, AllGenuine, AllFinite, TokenCommand;
  }

  lemma Step0StaysUnderway(cfg: Config, s: State, plan: Plan, t: State)
    requires Wf(cfg, t) && Tokens(t) && Underway(s, plan, t) && !t.pc0.Ready?
    ensures Underway(s, plan, Step0(cfg, t))
  {
    hide Conserved, AllGenuine, AllFinite, Accepted, Filled, Endpoints;
    match t.pc0 {
      case Filling(_, _, _) => FilledIsUnderway(cfg, s, plan, t);
      case Enqueue(c, u) =>
      case Accept(u) =>
      case _ =>
    }
  }

  lemma Step1StaysUnderway(cfg: Config, s: State, plan: Plan, t: State, sample: Sample)
    requires Wf(cfg, t) && Tokens(t) && Underway(s, plan, t)
    ensures Underway(s, plan, Step1(t, sample))
  {
    hide Tokens, Step1, Answers, Playable, Carries;
    var u := Step1(t, sample);
    Step1LeavesCore0(cfg, t, sample);
    if Staging(t.pc0).Some? { StagedBufferIsCore0s(cfg, t, sample); }
  }

  lemma Step1LeavesCore0(cfg: Config, s: State, sample: Sample)
    requires Wf(cfg, s)
    ensures
      var t := Step1(s, sample);
      BufsOk(t.bufs) && t.sh == s.sh && t.log == s.log && t.pc0 == s.pc0
  {
    hide Stepped, ScalarApplied, TokenCommand, JobOk;
  }

  /** The events of one request: core 0 answers only at the end. */
  ghost predicate AnsweredAtTheEnd(cfg: Config, begun: State, events: seq<Event>)
    requires Wf(cfg, begun)
  {
    forall i :: 0 <= i < |events| ==> !Run(cfg, begun, events[..i]).pc0.Ready?
  }

  lemma {:induction false} StaysUnderway(cfg: Config, s: State, plan: Plan, begun: State, events: seq<Event>)
    requires Wf(cfg, begun) && Tokens(begun) && Underway(s, plan, begun)
    requires AnsweredAtTheEnd(cfg, begun, events)
    ensures
      var t := Run(cfg, begun, events);
      Tokens(t) && Underway(s, plan, t)
  {
    hide Underway, Tokens, Wf, Step0, Step1;
    if events != [] {
      var before := events[..|events| - 1];
      var last := events[|before|];
      forall i | 0 <= i < |before| ensures before[..i] == events[..i] {}
      StaysUnderway(cfg, s, plan, begun, before);
      var m := Run(cfg, begun, before);
      assert before == events[..|before|];
      StepKeepsTokens(cfg, m, last);
      match last {
        case Host(_) =>
        case Core0 => Step0StaysUnderway(cfg, s, plan, m);
        case Core1(sample) => Step1StaysUnderway(cfg, s, plan, m, sample);
      }
    }
  }

  /** However core 1 interleaves, a request that is answered with an error has changed no
      reported value and queued nothing; one that succeeds has made exactly the update its
      data asks for, and queued exactly the one command that makes core 1 agree. */
  lemma {:induction false} RequestsAreTransactions(
    cfg: Config, prefix: seq<Event>, s: State, request: Request, begun: State, events: seq<Event>, t: State)
    requires cfg.Ok() && s == Reached(cfg, prefix)
    requires s.pc0.Ready? && begun == Step(cfg, s, Host(request)) && Wf(cfg, begun)
    requires AnsweredAtTheEnd(cfg, begun, events) && t == Run(cfg, begun, events)
    requires t.pc0.Ready?
    ensures t.pc0.reply.Some?
    ensures t.pc0.reply.value.Err? ==> t.sh == s.sh && t.log == s.log
    ensures t.pc0.reply.value.Ok? ==> Completed(s, PlanFor(cfg, request), t)
  {
    TokensAlways(cfg, prefix);
    StepKeepsTokens(cfg, s, Host(request));
    BeginIsUnderway(cfg, s, request);
    StaysUnderway(cfg, s, PlanFor(cfg, request), begun, events);
    hide Tokens, Step, Wf, Run;
  }

  // ---------------------------------------------------------------------------
  // Queue discipline
  // ---------------------------------------------------------------------------

  /** Commands leave in the order they entered, none is lost and none is repeated, and the
      queue stays within its capacity. */
  predicate Fifo(s: State) { s.log == s.done + Flight(s) && |s.queue| <= QUEUE_CAPACITY }

  lemma Step0KeepsFifo(cfg: Config, s: State)
    requires Wf(cfg, s) && Fifo(s)
    ensures Fifo(Step0(cfg, s))
  {
    hide AllFinite, Accepted, TokenCommand, JobUpdate, JobOk, BufsOk;
    var t := Step0(cfg, s);
    if s.pc0.Enqueue? && |s.queue| < QUEUE_CAPACITY {
      var c := [s.pc0.command];
      assert Hand1(s.pc1) + (s.queue + c) == Flight(s) + c;
      assert s.done + (Flight(s) + c) == s.done + Flight(s) + c;
    } else {
      assert Flight(t) == Flight(s);
    }
  }

  predicate IsTokenCommand(c: RtCommand) {
    c.payload.Buffer? && ActivatedBy(c).Some? && c == TokenCommand(ActivatedBy(c).value, c.payload.token)
  }

  /** Taking the front command over, whether it is applied at once or held in hand. */
  lemma DequeueKeepsFifo(s: State, applied: nat)
    requires Fifo(s) && s.queue != [] && Hand1(s.pc1) == []
    requires s.queue[0].payload.Buffer? ==> IsTokenCommand(s.queue[0])
    ensures Fifo(Dequeued(s, applied))
  {
    hide ScalarApplied, TokenCommand;
    var c, rest := s.queue[0], s.queue[1..];
    assert s.queue == [c] + rest && Flight(s) == s.queue;
    assert s.done + ([c] + rest) == (s.done + [c]) + rest;
  }

  lemma GenuineIsTokenCommand(bufs: Bufs, c: RtCommand)
    requires |bufs| == BUFFERS && Genuine(bufs, c) && c.payload.Buffer?
    ensures IsTokenCommand(c)
  {}

  lemma Step1KeepsFifo(cfg: Config, s: State, sample: Sample)
    requires Wf(cfg, s) && Tokens(s) && Fifo(s)
    ensures Fifo(Step1(s, sample))
  {
    hide Conserved, AllGenuine, Stepped, ScalarApplied, JobOk, TokenCommand, Endpoints, Genuine;
    if s.pc1.Draining? && s.pc1.applied < COMMANDS_PER_TICK && s.queue != [] {
      var c, rest := s.queue[0], s.queue[1..] + Hand0(s.pc0);
      assert Pipeline(s) == [c] + rest;
      FirstIsGenuine(s.bufs, c, rest);
      if c.payload.Buffer? { GenuineIsTokenCommand(s.bufs, c); }
      DequeueKeepsFifo(s, s.pc1.applied);
    } else if s.pc1.Activating? || s.pc1.StoreActive? || s.pc1.StorePending? {
      var c := TokenCommand(s.pc1.k, s.pc1.token);
      assert s.done + ([c] + s.queue) == s.done + [c] + s.queue;
    }
  }

  lemma {:induction false} FifoAlways(cfg: Config, events: seq<Event>)
    requires cfg.Ok()
    ensures Fifo(Reached(cfg, events))
  {
    hide Tokens, Wf, Step0, Step1, PlanFor;
    InitiallyTokens(cfg);
    if events != [] {
      var before := events[..|events| - 1];
      var s := Reached(cfg, before);
      FifoAlways(cfg, before);
      TokensAlways(cfg, before);
      match events[|before|] {
        case Host(request) =>
        case Core0 => Step0KeepsFifo(cfg, s);
        case Core1(sample) => Step1KeepsFifo(cfg, s, sample);
      }
    }
  }

  // ---------------------------------------------------------------------------
  // What core 1 publishes and plays
  // ---------------------------------------------------------------------------

  /** Core 1 is not between a table activation and the store of its length. */
  predicate LengthIsSettled(pc: Pc1) {
    !pc.StoreLen? && !((pc.StoreActive? || pc.StorePending?) && pc.k == TABLE)
  }

  /** Away from an override the generator runs at the nominal increment, and the published
      table length is the active table's. */
  ghost predicate Settled(s: State) {
    && BufsOk(s.bufs)
    && FollowsNominal(s.program)
    && (LengthIsSettled(s.pc1) ==> s.program.tableLen == s.bufs[TABLE].Get().len)
  }

  lemma ScalarKeepsLength(p: Program, c: RtCommand)
    ensures ScalarApplied(p, c).tableLen == p.tableLen
  {}

  lemma SampleKeepsLength(p: Program, len: nat, sample: Sample)
    ensures Stepped(p, len, sample.outputEnabled, sample.control).tableLen == p.tableLen
  {}

  lemma Step0KeepsProgram(cfg: Config, s: State)
    requires Wf(cfg, s)
    ensures Step0(cfg, s).program == s.program && Step0(cfg, s).pc1 == s.pc1
  {
    hide AllFinite, Accepted, TokenCommand, JobUpdate, JobOk, BufsOk;
  }

  lemma Step0KeepsSettled(cfg: Config, s: State)
    requires Wf(cfg, s) && Tokens(s) && Settled(s)
    ensures Settled(Step0(cfg, s))
  {
    hide Tokens, Step0, FollowsNominal;
    Step0Wf(cfg, s);
    Step0KeepsProgram(cfg, s);
    ActiveValueIsStable(cfg, s, Core0, Step0(cfg, s), TABLE);
  }

  lemma Step1KeepsSettled(cfg: Config, s: State, sample: Sample)
    requires Wf(cfg, s) && Tokens(s) && Settled(s)
    ensures Settled(Step1(s, sample))
  {
    hide Conserved, AllGenuine, Stepped, ScalarApplied, JobOk, TokenCommand, FollowsNominal, Endpoints;
    Step1Wf(cfg, s, sample);
    StepFollowsNominal(s.program, s.bufs[TABLE].Get().len, sample.outputEnabled, sample.control);
    SampleKeepsLength(s.program, s.bufs[TABLE].Get().len, sample);
    if s.queue != [] {
      ApplyFollowsNominal(s.program, s.queue[0]);
      ScalarKeepsLength(s.program, s.queue[0]);
    }
    if s.pc1.StoreLen? { LengthKeepsNominal(s.program, s.bufs[TABLE].Get().len); }
    if s.pc1.Activating? { HandIsGenuine(s); }
  }

  lemma LengthKeepsNominal(p: Program, len: nat)
    requires FollowsNominal(p)
    ensures FollowsNominal(p.(tableLen := len))
  {}

  lemma {:induction false} SettledAlways(cfg: Config, events: seq<Event>)
    requires cfg.Ok()
    ensures Settled(Reached(cfg, events))
  {
    hide Tokens, Wf, Step0, Step1, PlanFor, FollowsNominal;
    InitiallyTokens(cfg);
    if events == [] {
      InitiallySettled(cfg);
    } else {
      var before := events[..|events| - 1];
      var s := Reached(cfg, before);
      SettledAlways(cfg, before);
      TokensAlways(cfg, before);
      match events[|before|] {
        case Host(request) =>
        case Core0 => Step0KeepsSettled(cfg, s);
        case Core1(sample) => Step1KeepsSettled(cfg, s, sample);
      }
    }
  }

  lemma InitiallySettled(cfg: Config)
    ensures Settled(Initial(cfg))
  {}
}
