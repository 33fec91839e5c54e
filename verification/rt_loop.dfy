/** The real-time loop: bounded command service, epochs, and record conservation. */
module RtLoop {
  import opened Wrappers
  import opened Words
  import opened Commands
  import opened TableBuffer
  import opened Params
  import opened StandardProgram
  import opened CommandPath
  import opened TokenProtocol
  import opened ShadowRefinement

  /** A command epoch stays exactly representable in the record's float. */
  const EPOCHS: int := 0x100_0000

  /** A record queue declared with 256 slots holds one item fewer. */
  const RECORD_CAPACITY: nat := 255

  /** `program` is the programme its sample left, which the record's values are read from. */
  datatype Record = Record(index: U32, epoch: U32, program: Program)

  /** Core 1's loop state; `done` and `ticks` are histories. */
  datatype Loop = Loop(
    core: Core, commands: seq<RtCommand>, epoch: U32,
    records: seq<Record>, index: U32, dropped: nat,
    done: seq<RtCommand>, ticks: nat, enqueued: nat)

  function Served(commands: seq<RtCommand>): nat {
    if |commands| < COMMANDS_PER_TICK then |commands| else COMMANDS_PER_TICK
  }

  /** One whole tick. */
  function Ticked(s: Loop, sample: Sample): Loop
    requires BufsOk(s.core.bufs) && s.epoch < EPOCHS
  {
    var n := Served(s.commands);
    var epoch := (s.epoch as int + n) % EPOCHS;
    var drained := Drain(s.core, s.commands[..n]);
    var full := |s.records| >= RECORD_CAPACITY;
    var program := Stepped(drained.program, drained.bufs[TABLE].Get().len, sample.outputEnabled, sample.control);
    s.(core := Core(program, drained.bufs),
       commands := s.commands[n..],
       epoch := epoch,
       records := if full then s.records else s.records + [Record(s.index, epoch, program)],
       index := WrapAdd(s.index, 1),
       dropped := if full then s.dropped + 1 else s.dropped,
       done := s.done + s.commands[..n],
       ticks := s.ticks + 1,
       enqueued := if full then s.enqueued else s.enqueued + 1)
  }

  class RtLoop {
    var core: Core
    var commands: seq<RtCommand>
    var epoch: U32
    var records: seq<Record>
    var index: U32
    var dropped: nat
    ghost var done: seq<RtCommand>
    ghost var ticks: nat
    ghost var enqueued: nat

    ghost function Model(): Loop
      reads this
    {
      Loop(core, commands, epoch, records, index, dropped, done, ticks, enqueued)
    }

    ghost predicate Valid() reads this { BufsOk(core.bufs) && epoch < EPOCHS }

    constructor (core: Core)
      requires BufsOk(core.bufs)
      ensures Valid() && Model() == Loop(core, [], 0, [], 0, 0, [], 0, 0)
    {
      this.core := core;
      commands, epoch, records, index, dropped := [], 0, [], 0, 0;
      done, ticks, enqueued := [], 0, 0;
    }

    /** Take at most two commands, in order, and apply each. */
    method Serve() returns (applied: nat)
      requires Valid()
      modifies this`commands, this`core, this`done
      ensures Valid() && applied == Served(old(commands))
      ensures commands == old(commands)[applied..]
      ensures core == Drain(old(core), old(commands)[..applied])
      ensures done == old(done) + old(commands)[..applied]
    {
      hide Applied;
      ghost var before := commands;
      ghost var n := Served(before);
      applied := 0;
      while applied < COMMANDS_PER_TICK && commands != []
        invariant applied <= n && commands == before[applied..]
        invariant BufsOk(core.bufs)
        invariant Drain(old(core), before[..n]) == Drain(core, before[applied..n])
        invariant done == old(done) + before[..applied]
      {
        var command := commands[0];
        assert before[applied..n][0] == command && before[applied..n][1..] == before[applied + 1..n];
        AppliedKeepsBufsOk(core, command);
        commands := commands[1..];
        core := Applied(core, command);
        done := done + [command];
        applied := applied + 1;
      }
      assert before[n..n] == [];
    }

    /** Serve the queue, then run the sample and report it. */
    method RunTick(sample: Sample)
      requires Valid()
      modifies this
      ensures Valid() && Model() == Ticked(old(Model()), sample)
    {
      hide Drain, Stepped;
      var applied := Serve();
      if applied != 0 {
        epoch := (epoch as int + applied) % EPOCHS;
      }
      core := Core(Stepped(core.program, core.bufs[TABLE].Get().len, sample.outputEnabled, sample.control), core.bufs);
      if |records| < RECORD_CAPACITY {
        records := records + [Record(index, epoch, core.program)];
        enqueued := enqueued + 1;
      } else {
        dropped := dropped + 1;
      }
      index := WrapAdd(index, 1);
      ticks := ticks + 1;
    }
  }

  // ---------------------------------------------------------------------------
  // Runs: the host queues commands and takes records between ticks
  // ---------------------------------------------------------------------------

  /** What happens before a tick, and what the tick sees. */
  datatype Turn = Turn(arrivals: seq<RtCommand>, collected: nat, sample: Sample)

  function Turned(s: Loop, turn: Turn): (t: Loop)
    requires BufsOk(s.core.bufs) && s.epoch < EPOCHS
    ensures BufsOk(t.core.bufs) && t.epoch < EPOCHS
  {
    Ticked(s.(commands := s.commands + turn.arrivals,
              records := if turn.collected <= |s.records| then s.records[turn.collected..] else []),
           turn.sample)
  }

  function After(s: Loop, turns: seq<Turn>): (t: Loop)
    requires BufsOk(s.core.bufs) && s.epoch < EPOCHS
    ensures BufsOk(t.core.bufs) && t.epoch < EPOCHS
  {
    if turns == [] then s else Turned(After(s, turns[..|turns| - 1]), turns[|turns| - 1])
  }

  function Fresh(core: Core): Loop { Loop(core, [], 0, [], 0, 0, [], 0, 0) }

  /** Every record still held carries its own tick's index and an epoch; the counters add up. */
  ghost predicate Conserves(s: Loop) {
    && s.epoch as int == |s.done| % EPOCHS
    && s.enqueued + s.dropped == s.ticks
    && s.index as int == s.ticks % TWO32
    && |s.records| <= RECORD_CAPACITY
  }

  lemma NextIndex(index: U32, ticks: nat)
    requires index as int == ticks % TWO32
    ensures WrapAdd(index, 1) as int == (ticks + 1) % TWO32
  {
    WrapAddIsMod(index, 1);
    SumOfRemainders(ticks, 1, TWO32);
  }

  lemma NextEpoch(epoch: U32, done: nat, n: nat)
    requires epoch as int == done % EPOCHS && n <= COMMANDS_PER_TICK
    ensures (epoch as int + n) % EPOCHS == (done + n) % EPOCHS
  {
    SumOfRemainders(done, n, EPOCHS);
  }

  /** After every run, however commands arrive and records are collected: the epoch is the
      exact number of commands applied, modulo 2^24; every tick's record was either queued or
      counted as dropped; and the index is the number of ticks, modulo 2^32. */
  lemma {:induction false} CountersAddUp(core: Core, turns: seq<Turn>)
    requires BufsOk(core.bufs)
    ensures Conserves(After(Fresh(core), turns))
    ensures After(Fresh(core), turns).ticks == |turns|
    ensures After(Fresh(core), turns).epoch as int == |After(Fresh(core), turns).done| % 16777216
  {
    hide Drain, Stepped;
    if turns != [] {
      var n := |turns| - 1;
      CountersAddUp(core, turns[..n]);
      var s := After(Fresh(core), turns[..n]);
      var commands := s.commands + turns[n].arrivals;
      NextEpoch(s.epoch, |s.done|, Served(commands));
      NextIndex(s.index, s.ticks);
    }
  }

  /** The programme after a sample that follows the commands `done` adds to those done before. */
  ghost function SampledAfter(s: Loop, turn: Turn, done: seq<RtCommand>): Program
    requires BufsOk(s.core.bufs)
  {
    var added := if |s.done| <= |done| then done[|s.done|..] else [];
    var drained := Drain(s.core, added);
    Stepped(drained.program, drained.bufs[TABLE].Get().len, turn.sample.outputEnabled, turn.sample.control)
  }

  /** A tick drops its record exactly when 255 are waiting to be collected. */
  lemma DroppedExactlyWhenFull(s: Loop, sample: Sample)
    requires BufsOk(s.core.bufs) && s.epoch < EPOCHS
    ensures
      var t := Ticked(s, sample);
      && (|s.records| >= 255 <==> t.dropped == s.dropped + 1)
      && (|s.records| >= 255 <==> t.records == s.records)
      && (|s.records| < 255 <==> t.enqueued == s.enqueued + 1 && |t.records| == |s.records| + 1)
  {
    hide Drain, Stepped;
  }

  /** A record queued by a tick carries the tick's own index, the exact number of commands
      applied, and the values of the programme that has applied exactly those. */
  lemma {:induction false} RecordsAreExact(core: Core, turns: seq<Turn>, turn: Turn)
    requires BufsOk(core.bufs)
    ensures
      var s := After(Fresh(core), turns);
      var t := Turned(s, turn);
      t.enqueued == s.enqueued + 1 ==>
        && t.records != []
        && t.records[|t.records| - 1] == Record(|turns| % TWO32, |t.done| % EPOCHS, SampledAfter(s, turn, t.done))
  {
    hide Drain, Stepped;
    CountersAddUp(core, turns);
    var s := After(Fresh(core), turns);
    var commands := s.commands + turn.arrivals;
    NextEpoch(s.epoch, |s.done|, Served(commands));
    assert (s.done + commands[..Served(commands)])[|s.done|..] == commands[..Served(commands)];
  }

  /** Commands are applied in the order they were queued, at most two per tick. */
  lemma ServedInOrder(s: Loop, turn: Turn)
    requires BufsOk(s.core.bufs) && s.epoch < EPOCHS
    ensures
      var t := Turned(s, turn);
      && t.done + t.commands == s.done + s.commands + turn.arrivals
      && |t.done| == |s.done| + Served(s.commands + turn.arrivals)
  {
    hide Drain, Stepped;
    var commands := s.commands + turn.arrivals;
    assert commands[..Served(commands)] + commands[Served(commands)..] == commands;
  }

  /** While more than `2n` commands are waiting, `n` ticks serve exactly `2n` of them and
      leave the others in place. */
  lemma {:induction false} FullService(s: Loop, turns: seq<Turn>)
    requires BufsOk(s.core.bufs) && s.epoch < EPOCHS
    requires 2 * |turns| <= |s.commands|
    ensures
      var t := After(s, turns);
      && t.done == s.done + s.commands[..2 * |turns|]
      && s.commands[2 * |turns|..] <= t.commands
  {
    hide Drain, Stepped;
    if turns != [] {
      var n := |turns| - 1;
      FullService(s, turns[..n]);
      var m := After(s, turns[..n]);
      var commands := m.commands + turns[n].arrivals;
      var rest := s.commands[2 * n..];
      assert rest <= commands;
      assert commands[..2] == rest[..2] == s.commands[2 * n..2 * n + 2];
      assert s.commands[..2 * n] + s.commands[2 * n..2 * n + 2] == s.commands[..2 * n + 2];
      assert rest[2..] == s.commands[2 * n + 2..];
    }
  }

  /** A command with `k` others ahead of it is applied in exactly the (k/2 + 1)-th following
      tick, whatever arrives behind it. */
  lemma {:induction false} ServiceTime(s: Loop, turns: seq<Turn>, k: nat)
    requires BufsOk(s.core.bufs) && s.epoch < EPOCHS
    requires k < |s.commands| && |turns| == k / 2 + 1
    ensures AppliedBetween(s, After(s, turns[..k / 2]), After(s, turns), k)
  {
    ServedInTick(s, turns, k / 2, k);
  }

  /** The waiting command `k` was applied after `before` and no later than `t`. */
  ghost predicate AppliedBetween(s: Loop, before: Loop, t: Loop, k: nat)
    requires k < |s.commands|
  {
    |before.done| <= |s.done| + k < |t.done| && t.done[|s.done| + k] == s.commands[k]
  }

  lemma ServedInTick(s: Loop, turns: seq<Turn>, n: nat, k: nat)
    requires BufsOk(s.core.bufs) && s.epoch < EPOCHS
    requires k < |s.commands| && 2 * n <= k < 2 * n + 2 && |turns| == n + 1
    ensures AppliedBetween(s, After(s, turns[..n]), After(s, turns), k)
  {
    hide Ticked, Turned;
    var m := After(s, turns[..n]);
    FullService(s, turns[..n]);
    ServedInOrder(m, turns[n]);
    var t := After(s, turns);
    assert t == Turned(m, turns[n]);
    hide After;
    assert m.commands[k - 2 * n] == s.commands[2 * n..][k - 2 * n];
    InOrderAt(m.done, m.commands, turns[n].arrivals, t.done, t.commands, k - 2 * n);
  }

  lemma InOrderAt(
    done: seq<RtCommand>, commands: seq<RtCommand>, arrivals: seq<RtCommand>,
    after: seq<RtCommand>, left: seq<RtCommand>, i: nat)
    requires after + left == done + commands + arrivals && i < |commands| && |done| + i < |after|
    ensures after[|done| + i] == commands[i]
  {
    assert (after + left)[|done| + i] == (done + commands + arrivals)[|done| + i];
  }

  // ---------------------------------------------------------------------------
  // A whole tick is the sum of its atomic steps
  // ---------------------------------------------------------------------------

  /** Core 1's state in the interleaved model and in the loop agree. */
  ghost predicate SameTick(s: State, core: Core, commands: seq<RtCommand>) {
    s.program == core.program && s.bufs == core.bufs && s.queue == commands
  }

  lemma ActivationSteps(cfg: Config, s: State, sample: Sample) returns (t: State)
    requires Wf(cfg, s) && Tokens(s) && s.pc1.Activating?
    ensures Wf(cfg, t) && Alone(cfg, Core1(sample), s, t)
    ensures t.pc1 == Draining(s.pc1.applied)
    ensures SameTick(t, Applied(Core(s.program, s.bufs), TokenCommand(s.pc1.k, s.pc1.token)), s.queue)
  {
    hide Alone, Tokens;
    var e := Core1(sample);
    HandIsGenuine(s);
    TokenAddress(s.pc1.k, s.pc1.token);
    hide TokenCommand, ActivatedBy;
    t := Step(cfg, s, e);
    AloneOnce(cfg, e, s);
    var u := Step(cfg, t, e);
    AloneOnce(cfg, e, t);
    AloneTransitive(cfg, e, s, t, u);
    t := Step(cfg, u, e);
    AloneOnce(cfg, e, u);
    AloneTransitive(cfg, e, s, u, t);
    if s.pc1.k == TABLE {
      u := t;
      t := Step(cfg, u, e);
      AloneOnce(cfg, e, u);
      AloneTransitive(cfg, e, s, u, t);
    }
  }

  /** Taking one command from the queue, through every atomic access its token needs. */
  lemma OneCommand(cfg: Config, s: State, sample: Sample) returns (t: State)
    requires Wf(cfg, s) && Tokens(s)
    requires s.pc1.Draining? && s.pc1.applied < COMMANDS_PER_TICK && s.queue != []
    ensures Wf(cfg, t) && Alone(cfg, Core1(sample), s, t)
    ensures t.pc1 == Draining(s.pc1.applied + 1)
    ensures SameTick(t, Applied(Core(s.program, s.bufs), s.queue[0]), s.queue[1..])
  {
    hide Alone, Conserved, AllGenuine, Endpoints, Borrows, ScalarApplied, Activated, TokenCommand;
    var c, e := s.queue[0], Core1(sample);
    assert Pipeline(s) == [c] + (s.queue[1..] + Hand0(s.pc0));
    FirstIsGenuine(s.bufs, c, s.queue[1..] + Hand0(s.pc0));
    t := Step(cfg, s, e);
    AloneOnce(cfg, e, s);
    StepKeepsTokens(cfg, s, e);
    if c.payload.Buffer? {
      AddressOfGenuine(s.bufs, c);
      var u := t;
      t := ActivationSteps(cfg, u, sample);
      AloneTransitive(cfg, e, s, u, t);
    }
  }

  lemma AddressOfGenuine(bufs: Bufs, c: RtCommand)
    requires |bufs| == BUFFERS && Genuine(bufs, c) && c.payload.Buffer?
    ensures ActivatedBy(c) == Some(c.payload.token.owner)
    ensures c == TokenCommand(c.payload.token.owner, c.payload.token)
  {}

  lemma {:induction false} AloneKeepsTokens(cfg: Config, s: State, e: Event, n: nat)
    requires Wf(cfg, s) && Tokens(s)
    ensures Tokens(Repeated(cfg, e, s, n))
    decreases n
  {
    hide Wf, Tokens, Step;
    if n > 0 {
      StepWf(cfg, s, e);
      StepKeepsTokens(cfg, s, e);
      AloneKeepsTokens(cfg, Step(cfg, s, e), e, n - 1);
    }
  }

  lemma ReachedKeepsTokens(cfg: Config, s: State, e: Event, t: State)
    requires Wf(cfg, s) && Tokens(s) && Alone(cfg, e, s, t)
    ensures Tokens(t)
  {
    hide Wf, Tokens, Step;
    var n: nat :| Repeated(cfg, e, s, n) == t;
    AloneKeepsTokens(cfg, s, e, n);
  }

  /** Core 1's atomic steps, run without interruption from one wake to the next, do to the
      programme, the buffers and the queue exactly what one whole tick does. */
  lemma StepsMakeATick(cfg: Config, s: State, sample: Sample, loop: Loop) returns (t: State)
    requires Wf(cfg, s) && Tokens(s) && s.pc1.Waiting?
    requires SameTick(s, loop.core, loop.commands) && loop.epoch < EPOCHS
    ensures Wf(cfg, t) && Alone(cfg, Core1(sample), s, t) && t.pc1.Waiting?
    ensures SameTick(t, Ticked(loop, sample).core, Ticked(loop, sample).commands)
  {
    hide Alone, Tokens, Applied, Stepped;
    var e := Core1(sample);
    var u := Step(cfg, s, e);
    AloneOnce(cfg, e, s);
    AloneAlready(cfg, e, u);
    StepKeepsTokens(cfg, s, e);
    u := ServeAll(cfg, u, sample);
    AloneTransitive(cfg, e, s, Step(cfg, s, e), u);
    t := Step(cfg, u, e);
    AloneOnce(cfg, e, u);
    AloneTransitive(cfg, e, s, u, t);
  }

  /** Serving what one tick serves: nothing, one command, or two. */
  lemma ServeAll(cfg: Config, s: State, sample: Sample) returns (t: State)
    requires Wf(cfg, s) && Tokens(s) && s.pc1 == Draining(0)
    ensures Wf(cfg, t) && Alone(cfg, Core1(sample), s, t) && t.pc1.Draining?
    ensures t.pc1.applied == COMMANDS_PER_TICK || t.queue == []
    ensures SameTick(t, Drain(Core(s.program, s.bufs), s.queue[..Served(s.queue)]), s.queue[Served(s.queue)..])
  {
    hide Alone, Tokens, Applied;
    var e := Core1(sample);
    AloneAlready(cfg, e, s);
    t := s;
    var q := s.queue;
    if q != [] {
      t := OneCommand(cfg, s, sample);
      DrainFirst(Core(s.program, s.bufs), q);
      if |q| > 1 {
        ReachedKeepsTokens(cfg, s, e, t);
        var u := t;
        t := OneCommand(cfg, u, sample);
        AloneTransitive(cfg, e, s, u, t);
        assert q[1..][0] == q[1] && q[1..][1..] == q[2..];
      }
    }
  }

  lemma DrainFirst(core: Core, q: seq<RtCommand>)
    requires BufsOk(core.bufs) && q != []
    ensures BufsOk(Applied(core, q[0]).bufs)
    ensures Drain(core, q[..1]) == Applied(core, q[0])
    ensures |q| > 1 ==> Drain(core, q[..2]) == Applied(Applied(core, q[0]), q[1])
  {
    hide Applied;
    AppliedKeepsBufsOk(core, q[0]);
    assert q[..1] == [q[0]];
    DrainOne(core, q[0]);
    if |q| > 1 {
      assert q[..2][0] == q[0] && q[..2][1..] == [q[1]];
      assert Drain(core, q[..2]) == Drain(Applied(core, q[0]), [q[1]]);
      DrainOne(Applied(core, q[0]), q[1]);
    }
  }

  lemma DrainOne(core: Core, c: RtCommand)
    requires BufsOk(core.bufs)
    ensures Drain(core, [c]) == Applied(core, c)
  {
    hide Applied;
    AppliedKeepsBufsOk(core, c);
    assert [c][1..] == [];
  }
}
