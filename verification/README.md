# HELIC-DAQ model

A Dafny model of the HELIC-DAQ real-time data-acquisition firmware, its host broker and the wire
protocol between them, with proofs of what its concurrent parts keep.

The firmware runs on two cores. Core 0 serves a host: it validates a parameter write, stages it,
queues one command, and only then changes the value it reports. Core 1 runs a control tick at every
sample: it takes at most two commands, steps the generator, the table player and the control, gates
the output for safety and emits a record. Coefficient vectors and waveform tables cross between the
cores through double buffers whose banks change hands with linear tokens.

How the model is laid out:

- Command path: `commands.dfy`, `table_buffer.dfy`, `params.dfy`, `groups.dfy`, `param_store.dfy` hold
  core 0's objects; `program.dfy` and `programme.dfy` hold core 1's. `store_spec.dfy` specifies a whole
  request. `command_path.dfy` is the interleaved machine, one atomic access per step, and
  `token_protocol.dfy`, `shadow_refinement.dfy` and `transactions.dfy` prove what every interleaving keeps.
  `host_writes.dfy` says what each host write means in hertz, turns and bytes.
  `store_spec.dfy` and `rt_loop.dfy` prove that the atomic steps, run alone, are the whole request and
  the whole tick.
- Real-time loop: `rt_loop.dfy`, `service.dfy` (service time and epochs over the interleaved machine),
  `safety.dfy`, `reboot.dfy`.
- Estimation and playback: `phase.dfy`, `harmonics.dfy`, `table.dfy`, `demodulator.dfy`, `pll.dfy`,
  `degrees.dfy`, `pid.dfy`; `reals.dfy` is shared.
- Broker: `history.dfy`, `session.dfy` (the lock sections as methods of the shared state), `broker.dfy`
  (the tasks interleaved between them).
- Wire and byte machines: `crc.dfy`, `frame.dfy`, `stream_header.dfy`, `discovery.dfy`, `stream_task.dfy`,
  `rt_mem.dfy`, `optoncdt.dfy`; `words.dfy`, `byte_values.dfy`, `floats.dfy` and `wrappers.dfy` are shared.

Conventions. Objects the source updates in place are classes whose methods are tied to functions on
values; the interleavings and runs are proved on those values. An interleaving is a list of events;
a theorem about `Run(...)` of an arbitrary list is a theorem about every reachable state. Atomics are
sequentially consistent. A 32-bit float a host sends is its word together with the real number it
stands for; inside the estimators and players floats are real numbers. Phases and increments are
words with explicit wrap-around. The control policy, the rig and the storage worker are inputs: each
step is given what they decided.

Where the code and its own text disagree, the model follows the code:

- helic-proto/src/stream.rs:6 says that the stream version is 1; the constant it encodes
  (helic-proto/src/lib.rs:27) is 3.
- helic-core/src/pll.rs:781 speaks of reducing multiple turns; beyond 360 * 2 * 10^9 degrees the
  halving loop is one division by 360 * 10^30 / 2^99 degrees, which is no whole number of turns
  (`Degrees.KeptExactly` says exactly which angles it keeps).
- helic-rt/src/shared.rs:81 calls the safety inputs a snapshot; the two loads can be torn, so that a tick
  drives (`Safety.TornSnapshotDrives`; `Safety.SnapshotIsRealUnlessTorn` says exactly when).
- A lock needs more than a block of qualifying samples: the sample that breaks the spread is not counted
  in the next dwell (`PhaseLock.QualifyingBlockIsNotEnough`; `PhaseLock.LockIsExact` is the exact rule).
- A stream start granted in the course of a flush is switched off again if that flush sends the last
  packet of a finite session, which need not be the packet in flight when the start is granted
  (`StreamTask.StartLostBehindAFullPacket`; `StreamTask.StartSurvivesUnlessItsFlushEndsTheSession` and
  `StreamTask.StartSurvivesUnlessLastPacketIsInFlight` say exactly when).
- A finite session's completion in the broker is not tied to that session: if a stop and a start get the
  mutex before it does, it ends the session that is running by then
  (`Broker.CompletionCanEndTheNextSession`; `Broker.CompletionEndsItsOwnSession` says exactly when it
  ends only its own).

## Model

| member | source | states |
|---|---|---|
| `ShadowRefinement.ShadowsAreTheDrainedState` | helic-rt/src/params.rs:353-399 | in every interleaving of atomic core-0 and core-1 steps, applying the commands still in flight, in order, to core 1 yields exactly the settings the shadows report: frequency, both coefficient sets, table and playback settings, controller and rig scalars |
| `ShadowRefinement.DrainedSettingsMeanWhatIsReported` | helic-rt/src/params/groups.rs:300-354 | in every reachable interleaving the drained settings mean what the host reads: generator and table run within half a quantum of the frequencies in hertz, at the reported gain, multiple and offset in turns, in the mode and interpolation with the reported number |
| `ShadowRefinement.DrainIsThrough` | helic-rt/src/program.rs:124-173 | applying a list of genuine commands has on the settings the effect of installing, for each token, the bank it published, whatever else is in the list |
| `ShadowRefinement.CommittedBank` | helic-rt/src/params/groups.rs:313-332 | when a coefficient job reaches its commit, the bank it filled word by word holds exactly the vector its shadow will report |
| `ShadowRefinement.ActivatingKeepsRefinement` | helic-core/src/table_buffer.rs:224-237 | between the two stores of an activation the drained settings are already the same: applying the token in hand once more changes nothing |
| `StandardProgram.SentCommandMatchesUpdate` | helic-rt/src/params/groups.rs:300-334 | the one command a validated scalar write sends moves the core-1 settings to exactly what the updated shadow reports |
| `HostWrites.FrequencyWrites` | helic-rt/src/params/groups.rs:300-311 | parameters 21 and 25 take four bytes that spell a number of hertz, not negative and below half the rate, and send the word nearest to the turns it makes in a sample; anything else is refused as specified |
| `HostWrites.PlatformWrites` | helic-rt/src/params/groups.rs:185-210 | of the first 21 parameters 15 resets diagnostics, 17 arms for anything but zero, and 19 reboots for the four bytes TBER alone; the others are read-only |
| `HostWrites.VectorWrites` | helic-rt/src/params/groups.rs:312-334 | parameters 22 and 23 take a mean and two numbers a harmonic, whose words are staged in order |
| `HostWrites.TableWrites` | helic-rt/src/params/groups.rs:438-520 | parameters 24 and 26 to 31: what each accepts and the command it sends, number by number |
| `HostWrites.ScalarWrites` | helic-rt/src/params.rs:353-399 | controller scalars begin at parameter 32, the rig's follow; each is refused or sent as its owner rounds it, and telemetry is read-only |
| `HostWrites.BlocksAndCommits` | helic-rt/src/params.rs:336-347 | only parameter 24 takes blocks, of whole words within capacity, and commits, of two knots to capacity |
| `HostWrites.TokenAddresses` | helic-rt/src/program.rs:132-173 | the addresses under which the three buffers' tokens travel |
| `StandardProgram.OverrideHolds` | helic-rt/src/program.rs:124-131 | while the control overrides the frequency no command moves the increment |
| `StandardProgram.CommandsKeepPlaying` | helic-rt/src/program.rs:124-173 | no command moves the phase, or where a one-shot is, but a trigger and a change of mode, which ends it |
| `StandardProgram.SampleMeans` | helic-rt/src/program.rs:174-226 | one sample advances the phase round the turn, tells the player of it, and takes the control's increment exactly while the output is enabled and the control asks for one, else the nominal one |
| `TokenProtocol.TokensAlways` | helic-core/src/table_buffer.rs:151-237 | for the whole composition: a commit is outstanding exactly while one of the buffer's tokens is queued or in a hand, then exactly one is, it is addressed to its own buffer and names the pending bank; each endpoint's bank is as its protocol step says |
| `TokenProtocol.MutualExclusion` | helic-core/src/table_buffer.rs:134-161 | core 0 never holds a writable borrow of the bank core 1 reads, nor of one whose activation is pending |
| `TokenProtocol.ActivationDeliversTheCommittedValue` | helic-core/src/table_buffer.rs:163-237 | from the store that issues a token to the last store of its activation nothing writes the published bank, so the active value becomes exactly what was staged and the buffer is idle again |
| `TokenProtocol.EveryActivationIsHonoured` | helic-core/src/table_buffer.rs:224-231 | the guards of activation never turn away a token core 1 dequeues |
| `TokenProtocol.NoBufferStaysBusy` | helic-core/src/table_buffer.rs:21-30 | once nothing is queued or in a hand, no buffer is busy |
| `TokenProtocol.ActiveValueIsStable` | helic-core/src/table_buffer.rs:214-219 | no step but core 1's own activation changes what core 1 reads |
| `TokenProtocol.PublishedIsFrozen` | helic-core/src/table_buffer.rs:163-176 | while a commit is outstanding its bank and its mark stay as published, over any run |
| `Transactions.RequestsAreTransactions` | helic-rt/src/params.rs:317-399 | under every interleaving with core 1 a request answered with an error has changed no reported value and queued nothing; a successful one has made exactly its update and queued exactly the one command that matches it |
| `Transactions.FifoAlways` | helic-rt/src/channels.rs:57-77 | in every interleaving the commands ever queued are those applied, the one in hand and those waiting, in that order, and the queue stays within capacity |
| `Transactions.SettledAlways` | helic-rt/src/program.rs:124-226 | in every interleaving the generator runs at the nominal increment unless overridden, and the published table length is the active table's except inside an activation |
| `StoreSpec.StepsPerformTheRequest` | helic-rt/src/params.rs:317-347 | core 0's atomic steps, run alone, end with the reply, values, banks and queue of the whole-request specification |
| `StoreSpec.FailureRestores` | helic-rt/src/params.rs:388-397 | a failed request leaves reported values, queue, every active value and every buffer's availability as they were |
| `StoreSpec.BusyExactlyWhenFull` | helic-rt/src/params.rs:353-399 | a command is refused as busy exactly when 31 wait |
| `StoreSpec.GetReturnsWhatWasSet` | helic-rt/src/params/groups.rs:288-298 | a generator or table parameter reads back byte for byte what a successful write sent |
| `ParamStore.Store.Set` | helic-rt/src/params.rs:317-334 | the store's write does exactly what the whole-request specification says, with no group left pending, and only an arming request touches the safety state |
| `ParamStore.FrequencyQueues` | helic-rt/src/params.rs:353-399 | an accepted frequency is queued, behind what was waiting, as the increment nearest to what its bytes spell in hertz |
| `ParamStore.Store.SetBlock` | helic-rt/src/params.rs:336-340 | table words reach the free bank exactly, or nothing changes |
| `ParamStore.Store.Commit` | helic-rt/src/params.rs:342-347 | a table commit checks, publishes and queues as one transaction |
| `ParamStore.Store.FinishStaged` | helic-rt/src/params.rs:353-399 | queueing decides: the staged update is accepted, or the token and the update are taken back |
| `ParamStore.PlatformGroup.Accept` | helic-rt/src/params/groups.rs:205-211 | arming clears an old trip and disarming keeps it |
| `Params.Locate` | helic-rt/src/params.rs:434-444 | the walk over group sizes finds the owner of a global index, and none exactly past the end |
| `Params.LocatedIs` | helic-rt/src/params.rs:434-444 | locating inverts the global numbering, and no index has two owners |
| `Params.Located` | helic-rt/src/params.rs:434-444 | a found owner satisfies the base arithmetic; not found means the index is past every group |
| `Params.BytesRoundTrip` | helic-rt/src/params/groups.rs:810-840 | coefficient bytes survive decoding to words and back |
| `Params.WordsRoundTrip` | helic-rt/src/params/groups.rs:810-840 | coefficient words survive encoding to bytes and back |
| `Floats.NextWordIsOneQuantumMore` | helic-rt/src/params/groups.rs:782-786 | from one finite word to the next the value grows by one quantum, doubling with every binade but the first: with zero at zero, every value a word stands for |
| `Floats.SignNegates` | helic-rt/src/params/groups.rs:782-786 | the top bit negates |
| `Floats.FiniteExactly` | helic-rt/src/params/groups.rs:782-786 | the words that are neither infinite nor NaN |
| `Groups.GeneratorGroup.Stage` | helic-rt/src/params/groups.rs:300-334 | staging fails without leaving anything pending, or leaves exactly one pending update and, for coefficients, one issued token |
| `Groups.GeneratorGroup.Accept` | helic-rt/src/params/groups.rs:336-343 | only the pending value moves into its shadow |
| `Groups.GeneratorGroup.Reject` | helic-rt/src/params/groups.rs:345-354 | a returned token goes back to the buffer it came from, and nothing stays pending |
| `Groups.TableGroup.Stage` | helic-rt/src/params/groups.rs:438-499 | each playback setting is validated and left pending, or refused without trace |
| `Groups.TableGroup.SetBlock` | helic-rt/src/params/groups.rs:522-543 | the loop writes exactly the block's words into the free bank at the offset |
| `Groups.TableGroup.StageCommit` | helic-rt/src/params/groups.rs:545-568 | only a finite prefix of a legal length is published |
| `Groups.ScalarGroup.Stage` | helic-rt/src/params/groups.rs:682-686 | only a normalised value is left pending |
| `Groups.DeserializeCoeffs` | helic-rt/src/params/groups.rs:820-840 | the loop accepts exactly finite vectors of the right length, in wire order |
| `Groups.SerializeCoeffs` | helic-rt/src/params/groups.rs:810-818 | the loop writes the wire form of the vector and nothing else |
| `TableBuffer.DoubleBuffer.Activate` | helic-core/src/table_buffer.rs:224-237 | foreign and stale tokens are ignored; the right one switches the bank |
| `TableBuffer.DoubleBuffer.Commit` | helic-core/src/table_buffer.rs:163-176 | commit publishes the inactive bank once |
| `TableBuffer.CommitThenActivate` | helic-core/src/table_buffer.rs:151-237 | commit then activate makes exactly the staged value active and hands the other bank to the next writer |
| `TableBuffer.CancelRestores` | helic-core/src/table_buffer.rs:178-182 | an unused token restores the buffer, a foreign one changes nothing |
| `Programmes.Programme.Apply` | helic-rt/src/program.rs:124-173 | a command changes core 1 exactly as specified; one that addresses nothing changes nothing |
| `Programmes.Programme.Step` | helic-rt/src/program.rs:181-226 | a sample projects both active coefficient sets, sounds the active table at the master phase, and lets the control move the increment only while the output is enabled |
| `StandardProgram.ApplyFollowsNominal` | helic-rt/src/program.rs:124-131 | applying a command keeps the generator at the nominal increment away from an override |
| `StandardProgram.StepFollowsNominal` | helic-rt/src/program.rs:216-225 | after any sample the increment is the nominal one unless overridden |
| `RtLoop.RtLoop.RunTick` | firmware/rt/src/rt_loop.rs:151-321 | one tick serves at most two commands in order, steps once and reports once |
| `RtLoop.RtLoop.Serve` | firmware/rt/src/rt_loop.rs:202-217 | the bounded loop applies the first commands of the queue in order |
| `RtLoop.CountersAddUp` | firmware/rt/src/rt_loop.rs:218-292 | after any run the epoch is the number of commands applied modulo 2^24, records queued plus dropped equal ticks, and the index is the tick count modulo 2^32 |
| `RtLoop.RecordsAreExact` | firmware/rt/src/rt_loop.rs:268-292 | a record carries its tick's index, the exact number of commands applied modulo 2^24, and the values of the programme after a sample that follows exactly those commands |
| `RtLoop.DroppedExactlyWhenFull` | firmware/rt/src/rt_loop.rs:268-291 | a record is dropped exactly when 255 wait to be collected |
| `RtLoop.ServiceTime` | firmware/rt/src/rt_loop.rs:202-217 | over whole ticks, a waiting command with k ahead of it is applied in exactly the (k/2 + 1)-th following tick |
| `Service.ServiceIsExact` | firmware/rt/src/rt_loop.rs:202-217 | in every interleaving of single core-0 and core-1 steps, with commands arriving while the queue is drained: a command with k ahead of it is not applied before k/2 ticks have ended and is always applied once k/2 + 1 have, in its place in queueing order |
| `Service.EpochIsExact` | firmware/rt/src/rt_loop.rs:218-230 | in every such interleaving the epoch a tick records is the number of commands applied when its sample runs, modulo 2^24: all ever queued but those still waiting |
| `RtLoop.ServedInOrder` | firmware/rt/src/rt_loop.rs:202-217 | commands are applied in queueing order, at most two a tick, none lost |
| `RtLoop.StepsMakeATick` | firmware/rt/src/rt_loop.rs:202-240 | core 1's atomic steps from wake to wake do to programme, buffers and queue exactly what the whole tick does |
| `Safety.SafetyDecide` | helic-rt/src/safety.rs:25-63 | the applied vector is all clamped from an armed, untripped, fault-free snapshot of finite commands, or all safe, or untouched without a gate; the outcome reports which; a gated vector is what the interleaved ticks are given |
| `Safety.EveryTickIsSound` | firmware/rt/src/rt_loop.rs:55-81 | every tick of every run from power-up applies all clamped or all safe outputs; one that drives had no fault, and between its own two loads the shared state was armed and untripped at some instant, unless its snapshot is torn in the one way there is |
| `Safety.QuietAfterDisarm` | helic-rt/src/shared.rs:109-132 | after a disarm every tick that snapshots later is quiet until core 0 completes the next arm |
| `Safety.QuietUntilArmed` | helic-rt/src/shared.rs:107-132 | from power-up no tick drives before core 0 has completed an arm |
| `Safety.TripHolds` | helic-rt/src/shared.rs:116-121 | a latched trip holds every later snapshot until core 0 clears it |
| `Safety.FaultIsLatched` | firmware/rt/src/rt_loop.rs:55-81 | while a fault persists, from any state and however arms and disarms interleave, every tick that has still to decide drives nothing and stores the trip before it ends |
| `Safety.TripOutlivesItsTick` | firmware/rt/src/rt_loop.rs:64-68 | a trip being latched holds every later snapshot until core 0 clears it |
| `Safety.SnapshotIsRealUnlessTorn` | helic-rt/src/shared.rs:107-132 | between a load that read armed and one that read untripped, the state was never armed and untripped if and only if the trip was set at the first, the output was disarmed at the second, and no arm both began and ended between them |
| `Safety.TornSnapshotDrives` | helic-rt/src/shared.rs:109-114 | from power-up: an arm, a trip, and a tick that drives though from its first load on the state was never armed and untripped |
| `Safety.UntornSnapshotIsReal` | helic-rt/src/shared.rs:109-114 | without a disarm between the loads a driving snapshot was real at its second load |
| `Reboot.QuiescedMeansZero` | firmware/experiments/pico2w-rig/src/rig.rs:101-105 | the handshake only moves forward, and quiescence means all four channels were last written with zero volts |
| `Reboot.QuiescedForEver` | firmware/rt/src/rt_loop.rs:337-342 | from quiescence on nothing moves |
| `Reboot.NoTickAfterObservation` | firmware/rt/src/rt_loop.rs:415-431 | once the request is observed no control tick runs |
| `Reboot.QuiescesInFourWakes` | firmware/rt/src/rt_loop.rs:415-431 | four wakes after the first observation quiescence is reported, whatever core 0 does |
| `Reboot.PicoDacRig.PrepareReboot` | firmware/experiments/pico2w-rig/src/rig.rs:101-105 | each step zeroes one channel and the fourth reports completion |
| `PhaseLock.BoundedUnderEveryCallSequence` | helic-core/src/pll.rs:453-608 | under any sequence of public calls centre and command stay inside the bounds, and a lost lock is left by reset only |
| `PhaseLock.CommandIsNearestQuantum` | helic-core/src/pll.rs:403-425 | after a valid observation the command is centre plus correction to the nearest quantum, the correction in its window |
| `PhaseLock.NoWindup` | helic-core/src/pll.rs:403-425 | with gains and bounds fixed the integrator never leaves the correction window widened by the largest proportional term |
| `PhaseLock.LockIsEarned` | helic-core/src/pll.rs:350-399 | lock is entered only at the end of a block of consecutive samples after warm-up, each within the tolerance, lasting the dwell, with correction spread within the frequency tolerance |
| `PhaseLock.LockIsExact` | helic-core/src/pll.rs:350-379 | an acquiring loop locks at a sample if and only if the dwell counted since the last sample that restarted it qualifies there: after warm-up, within tolerance, within the frequency tolerance of one another, and long enough |
| `PhaseLock.QualifyingBlockIsNotEnough` | helic-core/src/pll.rs:362-371 | false of the code that any qualifying block locks: after corrections 0, 1, 2, 2, 2 the loop still acquires though its last three samples qualify, because the sample that breaks the spread is not counted in the next dwell |
| `PhaseLock.LockIsPrompt` | helic-core/src/pll.rs:350-379 | a loop still acquiring has counted for less than the dwell since its last restart |
| `PhaseLock.LossIsExact` | helic-core/src/pll.rs:381-399 | a locked loop loses lock at a sample if and only if an unbroken stretch of bad samples since the last good one or since lock, or one of saturated samples, has lasted its dwell there; otherwise it stays locked |
| `PhaseLock.LossIsEarned` | helic-core/src/pll.rs:381-399 | lock is lost only from locked operation, after an unbroken bad or saturated block at least as long as its dwell |
| `PhaseLock.TimeoutIsExact` | helic-core/src/pll.rs:373-379 | an acquiring loop gives up at a sample if and only if it does not lock there and the time spent judging has reached the timeout, and is then back at its centre |
| `PhaseLock.JudgedSampleMeans` | helic-core/src/pll.rs:308-348 | without enough signal a judged sample shows nothing and leaves the command alone; otherwise it shows the observed phase advanced by the delay and its distance from the target, and applies proportional and integral control with its limits and freezing |
| `PhaseLock.Pll.Tune` | helic-core/src/pll.rs:585-740 | which values each setting takes, and that an accepted one changes that setting alone |
| `PhaseLock.AcquisitionBeginsFresh` | helic-core/src/pll.rs:453-475 | acquisition always begins with every timer at zero |
| `PhaseLock.Pll.Update` | helic-core/src/pll.rs:278-348 | one update from raw samples demodulates them as specified and moves the loop as specified; a stopped loop leaves everything alone, and a failed acquisition clears the demodulator |
| `Demodulation.FundamentalDemodulator.Update` | helic-core/src/pll.rs:143-186 | one sample moves both mean estimators and the four filters as specified, or nothing when a signal is not finite |
| `Demodulation.ObservationsAreBounded` | helic-core/src/pll.rs:106-186 | however long bounded signals are demodulated and whatever samples are missing, the phase is within half a turn and the squared amplitudes within 32 times the square of the bound |
| `Demodulation.LawIsFollowed` | helic-core/src/pll.rs:111-186 | means and filters follow their lags, the filters towards twice the product of signal and fundamental, and the phase shown is the response's angle less the excitation's up to whole turns |
| `PhaseLock.Pll.ApplyCorrection` | helic-core/src/pll.rs:403-427 | the correction step of the object, with conditional integration |
| `PhaseLock.Pll.SetCentreIncrement` | helic-core/src/pll.rs:541-554 | a centre outside the bounds is refused |
| `Degrees.ReducedRange` | helic-core/src/pll.rs:784-798 | every angle an f32 can hold is reduced into one turn |
| `Degrees.KeptExactly` | helic-core/src/pll.rs:784-798 | of the angles an f32 can hold, the reduction keeps exactly those on the direct path and those whose count of whole last moduli (360 * 10^30 / 2^99 degrees) is a multiple of 2^69 |
| `Degrees.NeverKeptBelowTheCommonModulus` | helic-core/src/pll.rs:786-795 | between 360 * 2 * 10^9 and 360 * 5^30 degrees no angle at all is kept |
| `Degrees.HalvedIsLeft` | helic-core/src/pll.rs:786-795 | each modulus being twice the next, the whole loop is one division by the last |
| `Degrees.DirectPathIsCongruent` | helic-core/src/pll.rs:796-798 | on the direct path only whole turns are removed |
| `Degrees.HalvingLosesHalfTurns` | helic-core/src/pll.rs:786-795 | beyond it an angle half a turn past whole turns comes back as zero |
| `Degrees.ReduceDegrees` | helic-core/src/pll.rs:784-798 | the loop computes the specified reduction |
| `PidControl.NoWindup` | helic-core/src/pid.rs:74-105 | every bounded error sequence keeps the derivative within one swing per sample and the integrator within the output window plus the other terms and one increment |
| `PidControl.ObeysItsLaw` | helic-core/src/pid.rs:74-105 | every sample obeys the control law as difference equations: slope through a first-order lag, sum of three terms cut off at the limits, integral frozen when it would push further out |
| `PidControl.ConditionalIntegration` | helic-core/src/pid.rs:92-102 | a saturated sample never drives the integrator further out; otherwise it integrates, in exactly these cases |
| `PidControl.Pid.Update` | helic-core/src/pid.rs:74-105 | one update of the object is the specified one, clamped to the window |
| `Phase.NoDrift` | helic-core/src/phase.rs:53-57 | phase word and period starts together hold the exact advance of any run |
| `Phase.HarmonicLocked` | helic-core/src/phase.rs:60-62 | harmonic k of the wrapped phase is k times the exact advance modulo 2^32 |
| `Phase.HarmonicAccumulator` | helic-core/src/phase.rs:60-62 | an accumulator stepping k times as fast stays on harmonic k |
| `Phase.PhaseAccumulator.Step` | helic-core/src/phase.rs:53-57 | the flag carries exactly the turn the word drops |
| `Phase.IncrementFor` | helic-core/src/phase.rs:26-29 | the increment is the frequency to within half a quantum |
| `Harmonics.HarmonicGenerator.Step` | helic-core/src/harmonics.rs:81-91 | the frame holds the basis of every harmonic at the new phase |
| `Harmonics.HarmonicGenerator.Project` | helic-core/src/harmonics.rs:43-50 | projecting the frame is evaluating the series at its phase |
| `Harmonics.ProjectionNeverSlips` | helic-core/src/harmonics.rs:43-91 | after any run the projection is the Fourier series, with cosine and sine read from one table, at the exact advance |
| `Table.KnotBelow` | helic-core/src/table.rs:77-86 | the knot index brackets the phase and is always inside the table |
| `Table.EvaluationReads` | helic-core/src/table.rs:77-92 | the value read is the knot at the integer part of phase times length, plus, interpolated, its fraction of the way to the next, the first following the last |
| `Table.InterpolationStaysBetweenNeighbours` | helic-core/src/table.rs:83-92 | interpolated output stays between its two neighbours |
| `Table.WaveTable.EvaluateWith` | helic-core/src/table.rs:77-92 | fixed-point evaluation reads that value from the array |
| `Table.TablePlayer.Step` | helic-core/src/table.rs:216-269 | one step of the object is the specified one in every mode |
| `Table.TablePlayer.Trigger` | helic-core/src/table.rs:203-212 | triggering restarts a free one-shot and arms a locked one |
| `Table.TriggerExactly` | helic-core/src/table.rs:203-212 | a trigger does nothing but restart a free one-shot or arm a locked one |
| `Table.LoopNeverEnds` | helic-core/src/table.rs:228-234 | a looping table sounds at every sample, one increment further on |
| `Table.LockedLoopFollows` | helic-core/src/table.rs:245-250 | a locked loop sounds at the multiple of the master's phase plus the offset |
| `Table.SilentWithoutTable` | helic-core/src/table.rs:223-228 | switched off, or with fewer than two knots, a player is silent and moves nothing |
| `Table.FreeOneShotPlaysOneTurn` | helic-core/src/table.rs:235-249 | a triggered free one-shot sounds sample n exactly while n increments stay inside one turn, and is silent after |
| `Table.FreeOneShotLength` | helic-core/src/table.rs:235-249 | it sounds ceil(2^32 / i) - 1 samples in all |
| `Table.LockedOneShotPlaysOneTurn` | helic-core/src/table.rs:250-269 | a locked one-shot is silent until the first period start, sounds until the multiplied unwrapped advance reaches one turn, then stays silent |
| `Table.LockedAdvanceIsProduct` | helic-core/src/table.rs:255-264 | the advance is multiplier times the exact master advance |
| `Table.ProgressNeverSaturates` | helic-core/src/table.rs:255-260 | the 64-bit progress never saturates before the shot ends |
| `Broker.AlwaysCoherent` | helic-broker/src/server.rs:104-537 | in every interleaving of lock sections: without a running session history is empty, nothing is received and every client is detached and not quiet; quiet means attached; everything held is the running session's and has its layout |
| `Broker.EveryPacketHasTheLayout` | helic-broker/src/server.rs:488-505 | in every interleaving all that the running session received and all that is held for replay have as many sources and the decimation of the configuration in force |
| `Broker.ReceivedExactly` | helic-broker/src/server.rs:482-505 | a datagram joins the session exactly when it was recorded and is a packet of the configured number of sources and decimation; otherwise nothing changes |
| `Broker.WhatMovesASession` | helic-broker/src/server.rs:1137-1300 | in every interleaving a configuration comes into force only by a setup entered while nothing ran and granted over the connection it was asked over; a session begins only by a start with an endpoint that was granted with a configuration in place, and ends only by a granted stop, a completion, a refused start or a clean-up |
| `Broker.SetupTakesEffect` | helic-broker/src/server.rs:1137-1165 | a setup entered while nothing runs and granted without interruption is the configuration in force |
| `Broker.StartJoinsTheRunningSession` | helic-broker/src/server.rs:1187-1199 | a start while a session runs attaches the client at its endpoint and leaves the session and every other client alone |
| `Broker.QuietIsForTheAttached` | helic-broker/src/server.rs:1302-1319 | only an attached client's quiet flag changes, and nothing else with it |
| `Broker.ClientsComeAndGo` | helic-broker/src/server.rs:400-422 | clients come detached and go, and every other client keeps its state |
| `Broker.ConnectionsComeAndGo` | helic-broker/src/server.rs:256-292 | a connection is lost only by its own number, which leaves one more clean-up to do; a clean-up forgets the configuration and ends what runs |
| `Broker.ReplayNeverMixesSessions` | helic-broker/src/server.rs:472-505 | what can be replayed is exactly the end of the running session's own records |
| `Broker.EachGenerationOnce` | helic-broker/src/server.rs:256-328 | each connection generation is torn down at most once |
| `Broker.CompletionEndsItsOwnSession` | helic-broker/src/server.rs:503-535 | in every interleaving, a completion that gets the mutex was caused by a datagram that brought its session to its count, and ends that session, still complete, or nothing, if and only if no session begun after that datagram is running; granting no start in between is enough |
| `Broker.CompletionIsSpent` | helic-broker/src/server.rs:518-535 | a completion gets the operations mutex at most once, and only while it is free |
| `Broker.CompletionEndsWhateverRuns` | helic-broker/src/server.rs:518-535 | whatever session is running when a completion gets the mutex, none is running once it is done |
| `Broker.CompletionCanEndTheNextSession` | helic-broker/src/server.rs:503-535 | false of the code that a completion ends only its own session: a stop and a start granted before it leave it to end the session numbered next, of which nothing has been received |
| `Session.SharedState.Process` | helic-broker/src/server.rs:482-516 | a packet is taken exactly when a session runs, its number of sources and its decimation are the configuration's, and it was recorded; the targets are the attached clients that are not quiet; completion is a positive count reached |
| `Session.SharedState.GetRecent` | helic-broker/src/server.rs:1321-1369 | replay is granted to a quiet, attached client of a running session with enough history, and is then exactly the last records; each refusal has its own error, in the source's order |
| `Session.SharedState.Begin` | helic-broker/src/server.rs:1229-1241 | a session begins empty with its first client attached |
| `Session.SharedState.TearDown` | helic-broker/src/server.rs:272-283 | a lost connection ends the session and forgets the configuration |
| `Session.Attached` | helic-broker/src/server.rs:1188-1241 | attaching concerns one client that is still there and leaves every other as it was |
| `Session.SharedState.SetQuiet` | helic-broker/src/server.rs:1302-1319 | only an attached client can change its quiet flag |
| `Session.DecodeConfiguration` | helic-broker/src/server.rs:70-90 | an accepted setup has a decimation and sources, and is the decoding of its own encoding |
| `History.History.Recent` | helic-broker/src/history.rs:69-103 | replay succeeds exactly when that many records are held, decodes to exactly the last records, and cuts only the oldest packet |
| `History.History.Push` | helic-broker/src/history.rs:60-67 | the loop keeps what trimming the whole log would keep |
| `History.HistoryAgreesWithTheLog` | helic-broker/src/history.rs:60-103 | after any session the history is the longest packet suffix that fits, or the newest packet alone, and its last records are the log's |
| `History.TrimmedIsWindow` | helic-broker/src/history.rs:60-67 | trimming keeps the longest suffix that fits |
| `History.TrimmingIsIncremental` | helic-broker/src/history.rs:60-67 | trimming as packets arrive keeps what trimming once would |
| `History.CutKeepsTheRest` | helic-broker/src/history.rs:83-99 | re-heading a packet past k records leaves the others with their indices and bytes |
| `History.RecordAt` | helic-broker/src/history.rs:83-99 | record i of a packet is sample first + i times decimation modulo 2^32 |
| `History.DecodePacket` | helic-broker/src/history.rs:17-34 | a packet is accepted exactly when header, sources, records and length agree |
| `History.PacketExactly` | helic-broker/src/history.rs:17-34 | a datagram is a packet exactly when its header announces sources and records and four bytes follow for every source of every record |
| `StreamHeader.HeaderRoundTrip` | helic-proto/src/stream.rs:32-56 | a header survives encoding whatever follows it |
| `StreamHeader.HeaderLayout` | helic-proto/src/stream.rs:32-41 | a header byte by byte, version 3 |
| `StreamHeader.HeaderIsCanonical` | helic-proto/src/stream.rs:43-56 | what decodes is the encoding of what it decodes to |
| `Frame.DecodeIffEncode` | helic-proto/src/frame.rs:83-122 | a frame decodes to a message exactly when it is that message's encoding |
| `Frame.FrameLayout` | helic-proto/src/frame.rs:83-100 | a frame byte by byte, from the letters HL to the CRC |
| `Frame.RefusedFor` | helic-proto/src/frame.rs:103-122 | which error every refused frame gets |
| `Frame.SingleCorruptionRejected` | helic-proto/src/frame.rs:103-122 | one corrupted byte anywhere is rejected, for every payload length |
| `Frame.AdjacentCorruptionRejected` | helic-proto/src/frame.rs:103-122 | corruption confined to two adjacent bytes from type to payload is rejected |
| `Frame.Encode` | helic-proto/src/frame.rs:83-100 | encoding in place writes the frame and nothing else, or nothing at all |
| `Crc.CrcByteInjective` | helic-proto/src/crc.rs:6-19 | a byte step is injective in the state and in the data |
| `Crc.CrcPairInjective` | helic-proto/src/crc.rs:6-19 | two byte steps are injective in the pair of bytes |
| `Crc.ShiftBitInjective` | helic-proto/src/crc.rs:10-16 | a division step loses no information |
| `Crc.TwoBytesDetected` | helic-proto/src/crc.rs:6-19 | changing one or two adjacent bytes changes the CRC |
| `Crc.CheckValueOfDigits` | helic-proto/src/crc.rs:1-19 | the check value 0x29B1 of CRC-16/CCITT-FALSE over the digits 1 to 9 |
| `Crc.Crc16` | helic-proto/src/crc.rs:6-19 | the nested loops compute the specified remainder |
| `Discovery.Discover` | helic-broker/src/server.rs:787-853 | whatever a device answers, asking page after page ends, and yields what the accepted pages hold unless a page is refused or two names are equal |
| `Discovery.RegistryIsDiscovered` | helic-broker/src/server.rs:787-853 | from a device that encodes its registry the result is the registry in order, each definition once, if and only if every name is free of zero bytes and every count is positive |
| `Discovery.CollectedIsComplete` | helic-broker/src/server.rs:805-846 | whatever a device answers, a result holds exactly one definition for every index, in order, each with a UTF-8 name without a zero byte, a known type and a size |
| `Discovery.AnswerIsRead` | helic-proto/src/payload.rs:33-104 | a device's page passes the broker's range and count checks and is read back as exactly the definitions it encodes |
| `Discovery.EncodePage` | helic-proto/src/payload.rs:33-69 | a page echoes its start, names its end and holds exactly the definitions between, or fails as specified |
| `Discovery.ParsePage` | helic-broker/src/server.rs:810-839 | the loop accepts exactly the specified definitions, names being well-formed UTF-8 |
| `Discovery.KnownTypes` | helic-broker/src/server.rs:40-48 | the type codes that are known, and the bytes an element takes |
| `Discovery.Utf8Exactly` | helic-broker/src/server.rs:821 | a name the broker accepts as UTF-8 is the bytes of some sequence of characters |
| `Discovery.CharactersAreUtf8` | helic-broker/src/server.rs:821 | the bytes of every sequence of characters are accepted as UTF-8 |
| `Discovery.ParsedEncoded` | helic-proto/src/payload.rs:84-104 | parsing inverts encoding, definition by definition |
| `Discovery.PageProgress` | helic-proto/src/payload.rs:49-66 | every page makes progress |
| `StreamTask.SessionsAreExact` | firmware/support/src/comms/udp.rs:70-152 | a session sends exactly those of the records in the ring when it was armed or since whose index its decimation divides, each once and in order, showing the values of its sources, and never more than its count |
| `StreamTask.ControlMeans` | firmware/support/src/comms/tcp.rs:230-289 | what a setup, a start, a stop and a lost connection require and change |
| `StreamTask.NothingStreamsUnasked` | firmware/support/src/comms/tcp.rs:260-283 | from power-up nothing is streamed without a start, or without a connection |
| `StreamTask.WakeMeans` | firmware/support/src/comms/udp.rs:60-95 | a wake arms a new start's session, empties the ring when nothing is to stream, and otherwise fills a packet |
| `StreamTask.PacketReportsLosses` | firmware/support/src/comms/udp.rs:123-133 | a packet reports the records lost so far as the wake that sends it finds them |
| `StreamTask.PacketsAreNumberedAndFit` | firmware/support/src/comms/udp.rs:123-140 | a session's packets are numbered from zero, name their first record, announce what they hold and fit an unfragmented datagram |
| `StreamTask.EnabledIsConfigured` | firmware/support/src/comms/tcp.rs:230-289 | an enabled stream has sources and a target, and a finite countdown is positive whenever a packet is begun |
| `StreamTask.StartSurvivesUnlessItsFlushEndsTheSession` | firmware/support/src/comms/udp.rs:97-152 | a start granted while the streamer waits is never lost; one granted during a flush, whatever records arrive, is lost if and only if that flush goes on to send the last packet of a finite session |
| `StreamTask.StartSurvivesUnlessLastPacketIsInFlight` | firmware/support/src/comms/udp.rs:97-152 | with no arrivals in between it is lost if and only if, when granted, a packet of a finite session waits for the socket and nothing of the session remains, or the packet is full and the ring holds all that remains |
| `StreamTask.StartLostBehindAFullPacket` | firmware/support/src/comms/udp.rs:97-152 | a run from power-up in which a start granted behind a full packet that is not the last is lost |
| `StreamTask.FlushEnds` | firmware/support/src/comms/udp.rs:97-152 | without arrivals every flush returns to the ticker |
| `StreamTask.FillPacket` | firmware/support/src/comms/udp.rs:99-122 | draining keeps exactly the records whose index the decimation divides, until the packet is full, the ring is empty or the countdown ends, and fills the buffer with their wire form |
| `StreamTask.RoomForRecords` | firmware/support/src/comms/udp.rs:97-98 | a packet holds exactly as many records as fit 1472 bytes with the header |
| `StreamTask.FitsPacket` | firmware/support/src/comms/udp.rs:97-98 | the record limit keeps a packet within its buffer |
| `RtMem.MemCpy` | firmware/rt/src/rt_mem.rs:10-59 | any aligned or unaligned disjoint regions are copied, every word access on its boundary |
| `RtMem.MemCpy4` | firmware/rt/src/rt_mem.rs:67-94 | the aligned entry point copies the same |
| `RtMem.MemClr` | firmware/rt/src/rt_mem.rs:112-140 | any region is cleared, every word access on its boundary |
| `RtMem.MemClr4` | firmware/rt/src/rt_mem.rs:144-163 | the aligned entry point clears the same |
| `RtMem.CopyIsExact` | firmware/rt/src/rt_mem.rs:10-59 | after a copy the destination holds the source and every other byte is untouched |
| `RtMem.ClearIsExact` | firmware/rt/src/rt_mem.rs:112-140 | after a clear the region is zero and every other byte untouched |
| `OptoNcdt.ValuesAreThreeBytes` | helic-drivers/src/optoncdt.rs:144-178 | a value is emitted exactly where a low, a middle and a high byte follow one another, and is the one they spell |
| `OptoNcdt.ValuesInNumbers` | helic-drivers/src/optoncdt.rs:144-178 | the same as numbers: where a value comes out, its eighteen bits, and which measurement it is |
| `OptoNcdt.ResynchronisedExactly` | helic-drivers/src/optoncdt.rs:144-178 | resynchronisation is reported exactly for a byte that does not continue a value |
| `OptoNcdt.Resynchronises` | helic-drivers/src/optoncdt.rs:144-178 | from any state, after any garbage, encoded values decode to exactly themselves |
| `OptoNcdt.MeasurementsAreNoReply` | helic-drivers/src/optoncdt.rs:72-97 | a fresh reply parser reports nothing on a stream of complete values |
| `OptoNcdt.PromptIsDashAngle` | helic-drivers/src/optoncdt.rs:87-97 | a reply completes exactly at its two-byte prompt |
| `OptoNcdt.ReplyReportsTheLastError` | helic-drivers/src/optoncdt.rs:72-97 | a reply reports failure with the code last spelled by the letter E and three digits, if any |
| `OptoNcdt.EncodedFollowsPattern` | helic-drivers/src/optoncdt.rs:1-14 | what the sensor sends keeps the low, middle, high pattern |
| `OptoNcdt.Parser.PushEvent` | helic-drivers/src/optoncdt.rs:144-178 | one byte moves the object as specified |
| `OptoNcdt.CommandReplyParser.Push` | helic-drivers/src/optoncdt.rs:72-97 | one byte moves the object as specified |

## Left out

- StreamTask.ControlMeans: that a setup names only sources the experiment has is not modelled.
- StreamTask.SessionsAreExact: the generation counter is unbounded, so 2^32 starts between two flushes are not modelled; a packet the socket drops still counts as sent.
- Relaxed and acquire/release effects below sequential consistency.
- IEEE rounding everywhere: the generator increment, the PLL, the PID and interpolation are over real numbers, and `exact` phase fractions are those of real arithmetic.
- `atan2_degrees` is an arbitrary function of known range, `sqrtf_rt` and amplitude telemetry are not modelled, and nothing is said of how close demodulation comes to the true phase.
- The inside of a control policy and of a rig: only the scalars they were last given, and the decisions of a step, are modelled; `reset` on output enable belongs to the policy.
- The amplitude bound of forcing coefficients is an arbitrary predicate of the vector.
- Reading platform and telemetry parameters, diagnostic counters and maxima, `diag-*` features, timing and jitter observations.
- Parameter validation at start-up: the composition of groups is fixed as the Pico 2W experiment pushes them.
- The in-place write of a word of a bank is atomic, and core 1 reads a whole bank in one step; mutual exclusion of banks is what makes that sound.
- Table-transaction ownership and its expiry in the broker: the lock sections do not decide it, because the request is awaited between check and claim.
- That a running session has a configuration: a disconnect and a reconnect can fall inside a start, so the model does not claim it.
- Broker shutdown (helic-broker/src/server.rs:539-548): it stops the device and the recording and ends the process.
- Strict alternation of start and stop at the storage worker, HDF5 writing and recording metadata.
- Sockets, executors, radio drivers, SPI, PIO and PWM registers, probe and flashing tools.
- Host command line, Python device, Julia and MATLAB clients, beacons, rig profiles, converter scaling: they would add only easy members.
