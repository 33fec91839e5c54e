/** Shadow refinement: draining the queue into core 1's state always yields exactly what
    core 0 reports to the host. */
module ShadowRefinement {
  import opened Wrappers
  import opened Words
  import opened Floats
  import opened Commands
  import opened TableBuffer
  import opened Params
  import opened StandardProgram
  import opened CommandPath
  import opened TokenProtocol
  import opened Phase
  import Table

  // ---------------------------------------------------------------------------
  // Draining, literally and as a fold over the settings
  // ---------------------------------------------------------------------------

  /** Core 1's state after applying these commands in order. */
  function Drain(core: Core, commands: seq<RtCommand>): (after: Core)
    requires BufsOk(core.bufs)
    ensures BufsOk(after.bufs)
    decreases |commands|
  {
    if commands == [] then core
    else
      AppliedKeepsBufsOk(core, commands[0]);
      Drain(Applied(core, commands[0]), commands[1..])
  }

  lemma AppliedKeepsBufsOk(core: Core, c: RtCommand)
    requires BufsOk(core.bufs)
    ensures BufsOk(Applied(core, c).bufs)
  {
    hide ScalarApplied;
  }

  /** The settings after these commands, when every token stands for the bank it published. */
  function Through(v: View, commands: seq<RtCommand>, bufs: Bufs): View
    decreases |commands|
  {
    if commands == [] then v else Through(Effect(v, commands[0], bufs), commands[1..], bufs)
  }

  lemma {:induction false} ThroughAppend(v: View, commands: seq<RtCommand>, c: RtCommand, bufs: Bufs)
    ensures Through(v, commands + [c], bufs) == Effect(Through(v, commands, bufs), c, bufs)
    decreases |commands|
  {
    hide Effect;
    if commands == [] {
      assert ([] + [c])[1..] == [];
    } else {
      assert (commands + [c])[1..] == commands[1..] + [c];
      ThroughAppend(Effect(v, commands[0], bufs), commands[1..], c, bufs);
    }
  }

  /** Only the published banks of the tokens among the commands matter. */
  lemma {:induction false} ThroughFrame(v: View, commands: seq<RtCommand>, bufs: Bufs, after: Bufs)
    requires forall i :: 0 <= i < |commands| && commands[i].payload.Buffer? ==>
      Published(after, commands[i].payload.token) == Published(bufs, commands[i].payload.token)
    ensures Through(v, commands, after) == Through(v, commands, bufs)
    decreases |commands|
  {
    if commands != [] {
      EffectFrame(v, commands[0], bufs, after);
      ThroughFrame(Effect(v, commands[0], bufs), commands[1..], bufs, after);
    }
  }

  lemma EffectFrame(v: View, c: RtCommand, bufs: Bufs, after: Bufs)
    requires c.payload.Buffer? ==> Published(after, c.payload.token) == Published(bufs, c.payload.token)
    ensures Effect(v, c, after) == Effect(v, c, bufs)
  {
    hide SettingsApplied;
  }

  /** No buffer has two tokens among these commands, and each names its pending bank. */
  ghost predicate Drainable(bufs: Bufs, commands: seq<RtCommand>) {
    && AllGenuine(bufs, commands)
    && forall k :: 0 <= k < |bufs| ==> TokensOf(k, commands) <= 1
  }

  lemma {:induction false} DrainIsThrough(core: Core, commands: seq<RtCommand>)
    requires BufsOk(core.bufs) && Drainable(core.bufs, commands)
    ensures ViewOf(Drain(core, commands)) == Through(ViewOf(core), commands, core.bufs)
    decreases |commands|
  {
    hide Effect, ViewOf, Applied, AllGenuine;
    if commands != [] {
      var c, rest := commands[0], commands[1..];
      var next := Applied(core, c);
      AppliedKeepsBufsOk(core, c);
      FirstApplied(core, c, rest) by { assert [c] + rest == commands; }
      DrainIsThrough(next, rest);
      ThroughFrame(Effect(ViewOf(core), c, core.bufs), rest, core.bufs, next.bufs);
    }
  }

  lemma FirstApplied(core: Core, c: RtCommand, rest: seq<RtCommand>)
    requires BufsOk(core.bufs) && Drainable(core.bufs, [c] + rest)
    ensures
      var next := Applied(core, c);
      && BufsOk(next.bufs)
      && ViewOf(next) == Effect(ViewOf(core), c, core.bufs)
      && Drainable(next.bufs, rest)
      && (forall token :: Published(next.bufs, token) == Published(core.bufs, token))
  {
    hide ScalarApplied, AllGenuine;
    FirstIsGenuine(core.bufs, c, rest);
    AllGenuineRest(core.bufs, c, rest);
    forall k | 0 <= k < BUFFERS
      ensures TokensOf(k, [c] + rest) == TokensOf(k, rest) + if CarriesTokenOf(k, c) then 1 else 0
    {
      assert [] + [c] + rest == [c] + rest && [] + rest == rest;
      RemoveCount(k, [], c, rest);
    }
    if c.payload.Buffer? {
      var next := Applied(core, c);
      var k := c.payload.token.owner;
      GenuineElsewhere(core.bufs, next.bufs, rest, k);
      TokenApplied(core, c, k);
    } else {
      ScalarEffect(core, c);
    }
  }

  lemma AllGenuineRest(bufs: Bufs, c: RtCommand, rest: seq<RtCommand>)
    requires AllGenuine(bufs, [c] + rest)
    ensures AllGenuine(bufs, rest)
  {
    assert [] + [c] + rest == [c] + rest && [] + rest == rest;
    Remove(bufs, [], c, rest);
  }

  /** Applying a genuine token installs the bank it published. */
  lemma TokenApplied(core: Core, c: RtCommand, k: nat)
    requires BufsOk(core.bufs) && Genuine(core.bufs, c) && CarriesTokenOf(k, c)
    ensures BufsOk(Applied(core, c).bufs)
    ensures ViewOf(Applied(core, c)) == Effect(ViewOf(core), c, core.bufs)
  {
    hide PlayerApplied, SettingsApplied, ScalarApplied;
    assert ActivatedBy(c) == Some(k);
  }

  // ---------------------------------------------------------------------------
  // Invariants of the staging work
  // ---------------------------------------------------------------------------

  /** How much of the bank a coefficient job has filled. */
  function Progress(pc: Pc0): nat {
    match pc
    case Filling(_, _, i) => i
    case CommitCheck(job) => |job.Cells()|
    case CommitSelect(job) => |job.Cells()|
    case CommitStore(job, _) => |job.Cells()|
    case _ => 0
  }

  ghost predicate StagedSoFar(s: State) {
    var job := Staging(s.pc0);
    job.Some? && job.value.StageJob? && BufsOk(s.bufs) && job.value.k < BUFFERS ==>
      var cells := s.bufs[job.value.k].banks[1 - s.bufs[job.value.k].active].cells;
      Progress(s.pc0) <= |cells| && Progress(s.pc0) <= |job.value.cells|
      && cells[..Progress(s.pc0)] == job.value.cells[..Progress(s.pc0)]
  }

  /** The shadow as it will be once core 0's completed enqueue is acknowledged. */
  function Pending(s: State): Shadows {
    match s.pc0
    case Accept(update) => Accepted(s.sh, update)
    case _ => s.sh
  }

  /** The command core 0 is about to queue does to core 1 what its update does to the shadow. */
  ghost predicate Matched(cfg: Config, s: State) {
    s.pc0.Enqueue? ==>
      && ShadowsOk(cfg, s.sh)
      && ShadowsOk(cfg, Accepted(s.sh, s.pc0.update))
      && Reported(cfg, Accepted(s.sh, s.pc0.update)) == Effect(Reported(cfg, s.sh), s.pc0.command, s.bufs)
  }

  ghost predicate Refines(cfg: Config, s: State) {
    && BufsOk(s.bufs)
    && ShadowsOk(cfg, Pending(s))
    && Through(ViewOf(Core(s.program, s.bufs)), Flight(s), s.bufs) == Reported(cfg, Pending(s))
  }

  ghost predicate Inv(cfg: Config, s: State) {
    && Wf(cfg, s)
    && Tokens(s)
    && Widths(cfg, s.bufs)
    && StagedSoFar(s)
    && Matched(cfg, s)
    && Refines(cfg, s)
  }

  // ---------------------------------------------------------------------------
  // Every step keeps the staging work
  // ---------------------------------------------------------------------------

  lemma CellFits(cfg: Config, k: nat, b: Buf<Bank>, bank: nat, i: nat, cell: U32)
    requires b.Ok() && bank < 2 && forall j :: 0 <= j < 2 ==> BankFits(cfg, k, b.banks[j])
    ensures forall j :: 0 <= j < 2 ==> BankFits(cfg, k, WithCell(b, bank, i, cell).banks[j])
  {}

  /** Replacing one buffer by one whose banks fit. */
  lemma BufferFits(cfg: Config, bufs: Bufs, k: nat, b: Buf<Bank>)
    requires Widths(cfg, bufs) && k < BUFFERS && b.Ok()
    requires forall j :: 0 <= j < 2 ==> BankFits(cfg, k, b.banks[j])
    ensures Widths(cfg, bufs[k := b])
  {
    hide BankFits;
  }

  lemma FillKeepsWidths(cfg: Config, s: State)
    requires Wf(cfg, s) && Widths(cfg, s.bufs) && s.pc0.Filling?
    ensures Widths(cfg, Step0(cfg, s).bufs)
  {
    hide BankFits, AllFinite;
    var job, bank, i := s.pc0.job, s.pc0.bank, s.pc0.i;
    var k := job.Target();
    var b := s.bufs[k];
    if job.PublishJob? {
      LenFits(cfg, b, bank, job.len);
      BufferFits(cfg, s.bufs, k, WithLen(b, bank, job.len));
    } else if i < |job.cells| {
      CellFits(cfg, k, b, bank, job.Offset() + i, job.cells[i]);
      BufferFits(cfg, s.bufs, k, WithCell(b, bank, job.Offset() + i, job.cells[i]));
    }
  }

  lemma StepKeepsWidths(cfg: Config, s: State, event: Event)
    requires Wf(cfg, s) && Widths(cfg, s.bufs)
    ensures Widths(cfg, Step(cfg, s, event).bufs)
  {
    StepWf(cfg, s, event);
    if event.Core0? && s.pc0.Filling? {
      FillKeepsWidths(cfg, s);
    } else {
      BanksKeptOtherwise(cfg, s, event);
      hide Step, BankFits;
    }
  }

  lemma BanksKeptOtherwise(cfg: Config, s: State, event: Event)
    requires Wf(cfg, s) && !(event.Core0? && s.pc0.Filling?)
    ensures
      var bufs := Step(cfg, s, event).bufs;
      |bufs| == BUFFERS && forall k :: 0 <= k < BUFFERS ==> bufs[k].banks == s.bufs[k].banks
  {
    hide PlanFor, AllFinite, Stepped, ScalarApplied, TokenCommand, JobUpdate, Accepted;
  }

  lemma LenFits(cfg: Config, b: Buf<Bank>, bank: nat, len: nat)
    requires b.Ok() && bank < 2 && len <= cfg.tableCapacity
    requires forall j :: 0 <= j < 2 ==> BankFits(cfg, TABLE, b.banks[j])
    ensures forall j :: 0 <= j < 2 ==> BankFits(cfg, TABLE, WithLen(b, bank, len).banks[j])
  {}

  lemma FillKeepsStaged(cfg: Config, s: State)
    requires Wf(cfg, s) && Tokens(s) && Widths(cfg, s.bufs) && StagedSoFar(s) && s.pc0.Filling?
    ensures StagedSoFar(Step0(cfg, s))
  {
    hide AllFinite, Conserved, AllGenuine, TokenCommand;
    var job, bank, i := s.pc0.job, s.pc0.bank, s.pc0.i;
    if job.StageJob? && i < |job.cells| {
      assert BankFits(cfg, job.k, s.bufs[job.k].banks[bank]);
      var cells := s.bufs[job.k].banks[bank].cells;
      assert cells[i := job.cells[i]][..i + 1] == cells[..i] + [job.cells[i]];
      assert job.cells[..i + 1] == job.cells[..i] + [job.cells[i]];
    }
  }

  lemma Step0KeepsStaged(cfg: Config, s: State)
    requires Wf(cfg, s) && Tokens(s) && Widths(cfg, s.bufs) && StagedSoFar(s)
    ensures StagedSoFar(Step0(cfg, s))
  {
    hide AllFinite, Conserved, AllGenuine, TokenCommand, JobUpdate, Accepted, Filled;
    if s.pc0.Filling? {
      FillKeepsStaged(cfg, s);
    } else if s.pc0.BufferSelect? && s.pc0.job.StageJob? {
      assert BankFits(cfg, s.pc0.job.k, s.bufs[s.pc0.job.k].banks[1 - s.bufs[s.pc0.job.k].active]);
    }
  }

  lemma Step1KeepsStaged(cfg: Config, s: State, sample: Sample)
    requires Wf(cfg, s) && Tokens(s) && StagedSoFar(s)
    ensures StagedSoFar(Step1(s, sample))
  {
    hide Tokens, Stepped, ScalarApplied, JobOk;
    if Staging(s.pc0).Some? { StagedBufferIsCore0s(cfg, s, sample); }
  }

  lemma StepKeepsStaged(cfg: Config, s: State, event: Event)
    requires Wf(cfg, s) && Tokens(s) && Widths(cfg, s.bufs) && StagedSoFar(s)
    ensures StagedSoFar(Step(cfg, s, event))
  {
    hide Tokens, Step0, Step1, PlanFor, Widths;
    match event {
      case Host(request) =>
      case Core0 => Step0KeepsStaged(cfg, s);
      case Core1(sample) => Step1KeepsStaged(cfg, s, sample);
    }
  }

  // ---------------------------------------------------------------------------
  // Every step keeps the refinement
  // ---------------------------------------------------------------------------

  lemma HostKeepsRefinement(cfg: Config, s: State, request: Request)
    requires Inv(cfg, s)
    ensures
      var t := Step(cfg, s, Host(request));
      Matched(cfg, t) && Refines(cfg, t)
  {
    hide PlanFor, Reported, Effect, Through, ShadowsOk, Tokens, Widths, StagedSoFar;
    if s.pc0.Ready? && PlanFor(cfg, request).Send? {
      SentCommandMatchesUpdate(cfg, s.sh, request, s.bufs);
    }
  }

  /** Bank contents that no token in flight names, and no endpoint reads, do not matter. */
  lemma SameSettings(cfg: Config, s: State, t: State)
    requires BufsOk(s.bufs) && BufsOk(t.bufs) && Tokens(s)
    requires t.program == s.program && Flight(t) == Flight(s)
    requires forall k :: 0 <= k < BUFFERS ==> t.bufs[k].Get() == s.bufs[k].Get()
    requires forall k :: 0 <= k < BUFFERS && s.bufs[k].pending != NO_PENDING ==>
      t.bufs[k].banks[s.bufs[k].pending - 1] == s.bufs[k].banks[s.bufs[k].pending - 1]
    ensures ViewOf(Core(t.program, t.bufs)) == ViewOf(Core(s.program, s.bufs))
    ensures Through(ViewOf(Core(t.program, t.bufs)), Flight(t), t.bufs)
         == Through(ViewOf(Core(s.program, s.bufs)), Flight(s), s.bufs)
  {
    hide Effect, Conserved, Endpoints;
    var v := ViewOf(Core(s.program, s.bufs));
    var commands := Flight(s);
    forall i | 0 <= i < |commands| && commands[i].payload.Buffer?
      ensures Published(t.bufs, commands[i].payload.token) == Published(s.bufs, commands[i].payload.token)
    {
      assert Pipeline(s)[i] == commands[i];
      assert Genuine(s.bufs, commands[i]);
    }
    ThroughFrame(v, commands, s.bufs, t.bufs);
  }

  lemma FillKeepsRefinement(cfg: Config, s: State)
    requires Inv(cfg, s) && s.pc0.Filling?
    ensures
      var t := Step0(cfg, s);
      Matched(cfg, t) && Refines(cfg, t)
  {
    hide Reported, Effect, Through, ShadowsOk, Conserved, AllGenuine, AllFinite, ViewOf, Widths, StagedSoFar;
    var t := Step0(cfg, s);
    Step0Wf(cfg, s);
    assert Endpoints(s.pc1, s.pc0.job.Target(), s.bufs[s.pc0.job.Target()]);
    SameSettings(cfg, s, t);
  }

  /** A commit changes no setting, and its token carries exactly what its update reports. */
  lemma CommitKeepsRefinement(cfg: Config, s: State)
    requires Inv(cfg, s) && s.pc0.CommitStore?
    ensures
      var t := Step0(cfg, s);
      Matched(cfg, t) && Refines(cfg, t)
  {
    hide Through, Conserved, AllGenuine, AllFinite, ViewOf, RealOf, InBand, InTurn, Increment, PhaseWord;
    hide Table.InterpolationFrom, Table.ModeFrom;
    var t := Step0(cfg, s);
    Step0Wf(cfg, s);
    SameSettings(cfg, s, t);
    var k, bank := s.pc0.job.Target(), s.pc0.bank;
    CommittedBank(cfg, s);
    assert Published(t.bufs, CommitToken(k, bank)) == s.bufs[k].banks[bank];
    assert ActivatedBy(TokenCommand(k, CommitToken(k, bank))) == Some(k);
  }

  /** The bank being committed holds what the job's update will report. */
  lemma CommittedBank(cfg: Config, s: State)
    requires Wf(cfg, s) && Tokens(s) && Widths(cfg, s.bufs) && StagedSoFar(s) && s.pc0.CommitStore?
    ensures JobUpdate(s, s.pc0.job, s.pc0.bank)
         == BankValue(s.pc0.job.Target(), s.bufs[s.pc0.job.Target()].banks[s.pc0.bank])
  {
    hide Conserved, AllGenuine;
    var job, bank := s.pc0.job, s.pc0.bank;
    if job.StageJob? {
      var held := s.bufs[job.k].banks[bank];
      assert BankFits(cfg, job.k, held);
      assert held.cells[..|job.cells|] == held.cells && job.cells[..|job.cells|] == job.cells;
    }
  }

  lemma EnqueueKeepsRefinement(cfg: Config, s: State)
    requires Inv(cfg, s) && s.pc0.Enqueue?
    ensures
      var t := Step0(cfg, s);
      Matched(cfg, t) && Refines(cfg, t)
  {
    hide Reported, Effect, Through, ShadowsOk, Tokens, ViewOf, Widths, StagedSoFar, Accepted;
    var t := Step0(cfg, s);
    if |s.queue| < QUEUE_CAPACITY {
      var v := ViewOf(Core(s.program, s.bufs));
      assert Flight(t) == Flight(s) + [s.pc0.command];
      ThroughAppend(v, Flight(s), s.pc0.command, s.bufs);
    }
  }

  lemma CancelKeepsRefinement(cfg: Config, s: State)
    requires Inv(cfg, s) && s.pc0.Cancel?
    ensures
      var t := Step0(cfg, s);
      Matched(cfg, t) && Refines(cfg, t)
  {
    hide Reported, Effect, Through, ShadowsOk, Conserved, AllGenuine, ViewOf, Widths, StagedSoFar, Endpoints;
    var t := Step0(cfg, s);
    Step0Wf(cfg, s);
    SameSettings(cfg, s, t);
  }

  lemma Step0KeepsRefinement(cfg: Config, s: State)
    requires Inv(cfg, s)
    ensures
      var t := Step0(cfg, s);
      Matched(cfg, t) && Refines(cfg, t)
  {
    hide Reported, Effect, Through, ShadowsOk, Tokens, ViewOf, Widths, StagedSoFar, AllFinite, JobOk, Accepted;
    match s.pc0 {
      case Filling(_, _, _) => FillKeepsRefinement(cfg, s);
      case CommitStore(_, _) => CommitKeepsRefinement(cfg, s);
      case Enqueue(_, _) => EnqueueKeepsRefinement(cfg, s);
      case Cancel(_, _) => CancelKeepsRefinement(cfg, s);
      case _ =>
    }
  }

  /** What core 0 has in hand still means the same after a step of core 1. */
  lemma MatchedFrame(cfg: Config, s: State, t: State)
    requires BufsOk(s.bufs) && BufsOk(t.bufs) && Tokens(s) && Matched(cfg, s)
    requires t.pc0 == s.pc0 && t.sh == s.sh
    requires forall k :: 0 <= k < BUFFERS ==> t.bufs[k].banks == s.bufs[k].banks
    ensures Matched(cfg, t)
  {
    hide Reported, ShadowsOk, Tokens, Accepted, Effect;
    if s.pc0.Enqueue? {
      EffectFrame(Reported(cfg, s.sh), s.pc0.command, s.bufs, t.bufs);
    }
  }

  lemma DequeueKeepsRefinement(cfg: Config, s: State, sample: Sample)
    requires Inv(cfg, s)
    requires s.pc1.Draining? && s.pc1.applied < COMMANDS_PER_TICK && s.queue != []
    ensures Refines(cfg, Step1(s, sample))
  {
    hide Reported, Effect, ShadowsOk, Conserved, AllGenuine, ViewOf, Widths, StagedSoFar, ScalarApplied, Endpoints;
    var t := Step1(s, sample);
    var c := s.queue[0];
    var core := Core(s.program, s.bufs);
    assert Pipeline(s) == [c] + (s.queue[1..] + Hand0(s.pc0));
    FirstIsGenuine(s.bufs, c, s.queue[1..] + Hand0(s.pc0));
    assert Flight(s) == s.queue;
    if c.payload.Buffer? {
      assert Flight(t) == s.queue;
    } else {
      ScalarEffect(core, c);
      assert Flight(t) == s.queue[1..];
    }
  }

  /** Core 1 caching the bank of the token in its hand: the token's effect is now visible,
      and applying it once more changes nothing. */
  lemma ActivatingKeepsRefinement(cfg: Config, s: State, sample: Sample)
    requires Inv(cfg, s) && s.pc1.Activating?
    ensures Refines(cfg, Step1(s, sample))
  {
    hide Reported, ShadowsOk, Conserved, AllGenuine, Widths, StagedSoFar, SettingsApplied, TokenCommand;
    var t := Step1(s, sample);
    HandIsGenuine(s);
    Step1Wf(cfg, s, sample);
    var k := s.pc1.k;
    var c := TokenCommand(k, s.pc1.token);
    var v, w := ViewOf(Core(s.program, s.bufs)), ViewOf(Core(t.program, t.bufs));
    TokenAddress(k, s.pc1.token);
    assert w == Effect(v, c, s.bufs);
    assert Effect(w, c, t.bufs) == w;
    assert Flight(s) == [c] + s.queue && ([c] + s.queue)[1..] == s.queue;
    assert Flight(t) == Flight(s);
    ThroughFrame(w, s.queue, s.bufs, t.bufs);
  }

  lemma TokenAddress(k: nat, token: CommitToken)
    requires k < BUFFERS
    ensures ActivatedBy(TokenCommand(k, token)) == Some(k)
    ensures TokenCommand(k, token).payload == Buffer(token)
  {}

  /** A token whose bank core 1 already reads has no effect left. */
  lemma EffectInPlace(s: State, k: nat, token: CommitToken)
    requires BufsOk(s.bufs) && k < BUFFERS && token.owner == k
    requires s.bufs[k].current == token.bank
    ensures
      var v := ViewOf(Core(s.program, s.bufs));
      Effect(v, TokenCommand(k, token), s.bufs) == v
  {
    hide SettingsApplied, TokenCommand;
    TokenAddress(k, token);
  }

  /** The two stores that finish an activation change no setting; after the last one the
      token's effect is already in place. */
  lemma FinishingKeepsRefinement(cfg: Config, s: State, sample: Sample)
    requires Inv(cfg, s) && (s.pc1.StoreActive? || s.pc1.StorePending?)
    ensures Refines(cfg, Step1(s, sample))
  {
    hide Reported, ShadowsOk, Conserved, AllGenuine, Widths, StagedSoFar, Effect, TokenCommand, Pipeline;
    var t := Step1(s, sample);
    HandIsGenuine(s);
    Step1Wf(cfg, s, sample);
    var k := s.pc1.k;
    var c := TokenCommand(k, s.pc1.token);
    var v := ViewOf(Core(s.program, s.bufs));
    assert Endpoints(s.pc1, k, s.bufs[k]);
    EffectInPlace(s, k, s.pc1.token);
    assert ViewOf(Core(t.program, t.bufs)) == v;
    assert Flight(s) == [c] + s.queue && ([c] + s.queue)[1..] == s.queue;
    if s.pc1.StorePending? {
      assert Flight(t) == s.queue;
      ThroughFrame(v, s.queue, s.bufs, t.bufs);
    } else {
      assert Flight(t) == Flight(s);
      ThroughFrame(v, Flight(s), s.bufs, t.bufs);
    }
  }

  lemma QuietStepKeepsRefinement(cfg: Config, s: State, sample: Sample)
    requires Inv(cfg, s)
    requires s.pc1.Waiting? || s.pc1.StoreLen?
          || (s.pc1.Draining? && (s.pc1.applied == COMMANDS_PER_TICK || s.queue == []))
    ensures Refines(cfg, Step1(s, sample))
  {
    hide Reported, Effect, Through, ShadowsOk, Tokens, Widths, StagedSoFar, Stepped;
    if s.pc1.Draining? {
      StepKeepsView(Core(s.program, s.bufs), sample.outputEnabled, sample.control, s.bufs[TABLE].Get().len);
    }
  }

  lemma Step1KeepsRefinement(cfg: Config, s: State, sample: Sample)
    requires Inv(cfg, s)
    ensures
      var t := Step1(s, sample);
      Matched(cfg, t) && Refines(cfg, t)
  {
    hide Reported, Effect, Through, ShadowsOk, Tokens, ViewOf, Widths, StagedSoFar, Stepped, ScalarApplied, Refines, Matched;
    var t := Step1(s, sample);
    Step1Wf(cfg, s, sample);
    MatchedFrame(cfg, s, t);
    match s.pc1 {
      case Activating(_, _, _) => ActivatingKeepsRefinement(cfg, s, sample);
      case StoreActive(_, _, _) => FinishingKeepsRefinement(cfg, s, sample);
      case StorePending(_, _, _) => FinishingKeepsRefinement(cfg, s, sample);
      case Draining(applied) =>
        if applied < COMMANDS_PER_TICK && s.queue != [] {
          DequeueKeepsRefinement(cfg, s, sample);
        } else {
          QuietStepKeepsRefinement(cfg, s, sample);
        }
      case _ => QuietStepKeepsRefinement(cfg, s, sample);
    }
  }

  lemma StepKeepsInv(cfg: Config, s: State, event: Event)
    requires Inv(cfg, s)
    ensures Inv(cfg, Step(cfg, s, event))
  {
    hide Tokens, Widths, StagedSoFar, Matched, Refines, Step0, Step1, PlanFor;
    StepWf(cfg, s, event);
    StepKeepsTokens(cfg, s, event);
    StepKeepsWidths(cfg, s, event);
    StepKeepsStaged(cfg, s, event);
    match event {
      case Host(request) => HostKeepsRefinement(cfg, s, request);
      case Core0 => Step0KeepsRefinement(cfg, s);
      case Core1(sample) => Step1KeepsRefinement(cfg, s, sample);
    }
  }

  lemma InitiallyInv(cfg: Config)
    requires cfg.Ok()
    ensures Inv(cfg, Initial(cfg))
  {
    hide RealOf, IsFinite;
    InitiallyTokens(cfg);
    ZeroIsZero();
    OneIsOne();
    InitialView(cfg);
  }

  lemma InitialView(cfg: Config)
    requires cfg.Ok()
    ensures
      var s := Initial(cfg);
      && ShadowsOk(cfg, s.sh)
      && BufsOk(s.bufs)
      && ViewOf(Core(s.program, s.bufs)) == Reported(cfg, s.sh)
  {
    hide RealOf, IsFinite;
    ZeroIsZero();
    OneIsOne();
    ZeroIncrement(cfg);
  }

  lemma ZeroIncrement(cfg: Config)
    requires cfg.Ok()
    ensures InBand(cfg, 0) && Increment(cfg, 0) == 0
  {
    hide RealOf, IsFinite;
    ZeroIsZero();
    assert 0.0 / cfg.hz == 0.0;
  }

  lemma {:induction false} InvAlways(cfg: Config, events: seq<Event>)
    requires cfg.Ok()
    ensures Wf(cfg, Initial(cfg)) && Inv(cfg, Run(cfg, Initial(cfg), events))
  {
    hide Inv, Step, Wf;
    InitiallyInv(cfg);
    InitiallyTokens(cfg);
    if events != [] {
      InvAlways(cfg, events[..|events| - 1]);
      StepKeepsInv(cfg, Run(cfg, Initial(cfg), events[..|events| - 1]), events[|events| - 1]);
    }
  }

  /** What core 1 would act on after the commands in flight is what the host is told. While
      core 0 has queued a command but not yet acknowledged it, the value about to be
      acknowledged counts. */
  ghost predicate Agrees(cfg: Config, s: State)
    requires Wf(cfg, s)
  {
    && ShadowsOk(cfg, Pending(s))
    && ViewOf(Drain(Core(s.program, s.bufs), Flight(s))) == Reported(cfg, Pending(s))
  }

  /** In every reachable interleaving, applying the commands still in flight, in order, to
      core 1's own state gives exactly the settings the shadows report: frequency, both
      coefficient sets, the table and its playback settings, and every controller and rig
      scalar. */
  lemma {:induction false} ShadowsAreTheDrainedState(cfg: Config, events: seq<Event>)
    requires cfg.Ok()
    ensures Agrees(cfg, Reached(cfg, events))
  {
    hide Step, ViewOf, Reported, ShadowsOk, Through, Matched, Widths, StagedSoFar, Endpoints;
    InvAlways(cfg, events);
    FlightIsDrainable(Reached(cfg, events));
    DrainIsThrough(Core(Reached(cfg, events).program, Reached(cfg, events).bufs), Flight(Reached(cfg, events)));
  }

  /** What the settings on core 1 mean for the values the host reads, in the host's terms:
      hertz, turns, and the numbers that name a mode. */
  ghost predicate Means(cfg: Config, v: View, sh: Shadows)
    requires cfg.Ok()
  {
    && 0.0 <= RealOf(sh.frequency) && 2.0 * RealOf(sh.frequency) < cfg.hz
    && NearestQuantum(v.nominal, RealOf(sh.frequency), cfg.hz)
    && 0.0 <= RealOf(sh.table.frequency) && 2.0 * RealOf(sh.table.frequency) < cfg.hz
    && NearestQuantum(v.table.increment, RealOf(sh.table.frequency), cfg.hz)
    && v.table.gain == RealOf(sh.table.gain)
    && (v.table.interpolation.ZeroOrderHold? <==> sh.table.interpolation == 0)
    && (v.table.interpolation.Linear? <==> sh.table.interpolation == 1)
    && (v.table.mode.Off? <==> sh.table.mode == 0)
    && (v.table.mode.Loop? <==> sh.table.mode == 1)
    && (v.table.mode.OneShot? <==> sh.table.mode == 2)
    && (v.table.mode.LockedLoop? <==> sh.table.mode == 3)
    && (v.table.mode.LockedOneShot? <==> sh.table.mode == 4)
    && v.table.multiplier == sh.table.multiplier > 0
    && 0.0 <= RealOf(sh.table.phase) < 1.0
    && v.table.phaseOffset as real <= RealOf(sh.table.phase) * 4294967296.0 < v.table.phaseOffset as real + 1.0
    && v.banks == sh.banks && v.control == sh.control && v.rig == sh.rig
  }

  lemma ReportedMeans(cfg: Config, sh: Shadows)
    requires ShadowsOk(cfg, sh)
    ensures Means(cfg, Reported(cfg, sh), sh)
  {
    hide RealOf, IsFinite;
    IncrementMeans(cfg, sh.frequency);
    IncrementMeans(cfg, sh.table.frequency);
    PhaseMeans(sh.table.phase);
    hide Increment, PhaseWord;
  }

  lemma IncrementMeans(cfg: Config, bits: U32)
    requires cfg.Ok() && InBand(cfg, bits)
    ensures 0.0 <= RealOf(bits) && 2.0 * RealOf(bits) < cfg.hz
    ensures NearestQuantum(Increment(cfg, bits), RealOf(bits), cfg.hz)
  {
    hide RealOf, IsFinite;
  }

  lemma PhaseMeans(bits: U32)
    requires InTurn(bits)
    ensures 0.0 <= RealOf(bits) < 1.0
    ensures PhaseWord(bits) as real <= RealOf(bits) * 4294967296.0 < PhaseWord(bits) as real + 1.0
  {
    hide RealOf, IsFinite;
  }

  /** In every reachable interleaving the drained settings mean what the host reads: the
      generator and the table run within half a quantum of the frequencies in hertz, the
      table in the mode with the reported number, at the reported gain, multiple and offset. */
  lemma DrainedSettingsMeanWhatIsReported(cfg: Config, events: seq<Event>)
    requires cfg.Ok()
    ensures
      var s := Reached(cfg, events);
      BufsOk(s.bufs) && Means(cfg, ViewOf(Drain(Core(s.program, s.bufs), Flight(s))), Pending(s))
  {
    ShadowsAreTheDrainedState(cfg, events);
    var s := Reached(cfg, events);
    hide *;
    AgreementMeans(cfg, s);
  }

  lemma AgreementMeans(cfg: Config, s: State)
    requires Wf(cfg, s) && Agrees(cfg, s)
    ensures BufsOk(s.bufs) && Means(cfg, ViewOf(Drain(Core(s.program, s.bufs), Flight(s))), Pending(s))
  {
    hide Means, ShadowsOk, Reported, ViewOf;
    ReportedMeans(cfg, Pending(s));
  }

  /** The commands in flight hold at most one token of each buffer, and each is genuine. */
  lemma FlightIsDrainable(s: State)
    requires BufsOk(s.bufs) && Tokens(s)
    ensures Drainable(s.bufs, Flight(s))
  {
    hide Genuine;
    forall k | 0 <= k < BUFFERS ensures TokensOf(k, Flight(s)) <= 1 {
      TokensAppend(k, Flight(s), Hand0(s.pc0));
    }
    forall i | 0 <= i < |Flight(s)| ensures Genuine(s.bufs, Flight(s)[i]) {
      assert Flight(s)[i] == Pipeline(s)[i];
    }
  }
}
