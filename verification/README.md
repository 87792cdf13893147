# Verification model of aer-core

aer-core supervises one external process tree: it spawns a program as the leader of its own
process group, delivers `Started`, optional output chunks and `Exited` to a callback, kills the
group on timeout or cancellation, and promises that nobody of the group survives the run.

This project models one run as a transition system and proves what the library promises about
it for every interleaving; it models the sequential parts (the kill escalation, the drain loop,
the builders, the C handle, the .NET bridge) as imperative code proved against specifications.

- `Kernel.dfy`: the process group, its two bounded pipes, and `kill`, `killpg`, `waitpid`.
- `Machine.dfy`: the `StateMachine` class. `Events.dfy`: events and errors.
- `Escalation.dfy`: `kill_escalating`, `tree_alive`, `reap_abandoned` and the kill-on-drop guard,
  against an operating system whose other actors and whose clock are arbitrary.
- `DrainLoop.dfy`: the loop of one drain thread.
- `Protocol.dfy`: the runner (`run_impl`), any number of callers of `cancel()`, the timeout
  monitor, the wait thread, the two drains and the group; one atomic operation a step. A run is
  a list of actions possible from the fresh state (`IsRun`); `Exec` continues it.
- `Lifecycle.dfy`, `Handshake.dfy`, `Report.dfy`, `Streams.dfy`, `Progress.dfy`, `Runs.dfy`: the
  inductive invariants, one concern each, and that every state of every run satisfies them.
- `CancelTheorems.dfy`, `RunTheorems.dfy`, `ReportTheorems.dfy`, `Forced.dfy`, `Quiescence.dfy`,
  `AfterReturn.dfy`, `OutputTheorems.dfy`, `MergeTheorems.dfy`, `Capture.dfy`, `CaptureExact.dfy`:
  the theorems about runs.
- `TaskConfig.dfy`, `Ffi.dfy`, `FfiCalls.dfy`: the builders and the C handle, one call and any
  sequence of calls.
- `EventBridge.dfy`: an event's way through the C boundary into the .NET binding, and what the
  managed caller catches.

The escalation is modelled twice and tied together: the run protocol takes the steps of the
automaton `Esc`, and the loop of `KillEscalating` is proved to make only calls that `Esc` allows
(`Drives`). `Lifecycle.StepIsKernelAct` shows the other direction: whatever other threads do
between two calls of that loop is a list of kernel acts, which is what its environment may do.

## Assumptions

- One fresh `CancelHandle` per run.
- The root is in its own group, and holds both write ends, when `spawn` returns; no member leaves
  the group; a pid is not reused while its group is observed.
- A group signal acts at once and fails only with ESRCH when nobody is left. `KillEscalating`
  also meets EPERM, and is then proved to return an error; the run protocol does not.
- Callbacks return or panic. Panics elsewhere (in `wait`, in a drain) do not happen.
- Memory is sequentially consistent, which is what the atomics and the mutex of the code give.

## Where code and documentation differ

- `src/os/mod.rs:97` says that a failed send stops the drain thread. The code ignores the result
  of the send (`src/os/mod.rs:115`) and drains on; the model does too.
- A read interrupted by a signal ends a drain that has a sink (`src/os/mod.rs:113`), but
  `io::copy`, used without capture, retries it. Capture on and off are still equivalent
  (`Capture.CaptureOnIsCaptureOff`), but where the one is interrupted the other has a broken
  read; the same moves suffice exactly when no read was interrupted
  (`CaptureExact.SameActionsExactlyWhen`), and `CaptureExact.InterruptedReadDiffers` is a run
  that returns Ok having lost a byte. `DrainLoop.SameStopExactlyWhen` says of one drain loop when
  its stop differs.
- The slot comment at `src/task.rs:67` (filled only between the spawn and the return of `wait`)
  does not hold on every way out: a run that ends by a wait error or a panicking chunk callback
  leaves the slot filled, and no other one does (`AfterReturn.SlotAtReturn`).
- Hence `cancel()` is not always the no-op after `wait` has returned that `src/task.rs:115`
  promises: `AfterReturn.CancelAfterFailure` is a run that returned WaitFailed, after which a
  first `cancel()` sets `kill_fired` and signals the group, and `CancelFiresExactlyWhen` says
  exactly when that is possible.
- `timed_out`, unlike `kill_fired`, can still change after the run has returned:
  `Quiescence.LateFlagAfterReturn` is such a run and `LateFlagExactlyWhen` says exactly when.
  The report is not affected (`RunTheorems.ReportIsTheSnapshot`).

## Model

| member | source | states |
|---|---|---|
| CancelTheorems.NoCancelIsLost | src/task.rs:103-118 | in every interleaving, once the check after wiring is passed and the winning `cancel()` has returned, it has fired, or a probe saw a tree that is dead, or it took the lock after the slot was cleared |
| Forced.ReturnedCancelMeansDead | src/task.rs:103-118 | in all three of these cases nobody of the group is alive any more |
| CancelTheorems.NaturalExitIgnoresNoCancel | src/task.rs:353-359 | a run that reports a natural exit was not killed by cancel, and each cancel that returned found the tree dead or came too late |
| CancelTheorems.AtMostOneCallerActs | src/task.rs:102-105 | of unboundedly many callers at most one acts, and only it ever holds the mutex |
| CancelTheorems.FewEscalations | src/task.rs:37-45 | at most four escalations begin in a run, at most three in one that returns normally |
| CancelTheorems.MutexGuardsTheSlot | src/task.rs:103-118 | the slot is never written while a caller holds the mutex, and what a caller saw in it still stands when it unlocks |
| CancelTheorems.GraceIsKept | src/task.rs:14 | every escalation of a cancel, the wiring check or the monitor has 5 s and at most 201 probes, the guard's none and one |
| CancelTheorems.FiredCancelSparesRunner | src/task.rs:252-257 | where a cancel has fired before the wiring check loads `kill_fired`, the runner never begins a kill of its own |
| CancelTheorems.KillFiredIsFrozen | src/task.rs:339-351 | the flags only go from false to true, and `kill_fired` does not change after the slot is cleared |
| RunTheorems.NoSurvivors | src/task.rs:233-238 | on every way out of `run_impl` no group member is live and the root is reaped |
| RunTheorems.RunReturnsOnceDead | src/os/unix.rs:87-105 | once no member is live, any schedule has a bounded number of moves left and the library's threads alone reach the return, mutex holder and monitor notwithstanding |
| RunTheorems.KilledMeansDead | src/os/unix.rs:91-105 | the SIGKILL of `wait` is such a moment |
| RunTheorems.FewMovesAreLeft | src/task.rs:305-322 | the measure over unread bytes, queued chunks, remaining probes and program counters bounds every continuation |
| Forced.FiredKillsInEverySchedule | src/task.rs:103-118 | once `kill_fired` or `timed_out` is set, in every schedule some thread's escalation has at most its weight (bounded probes, two signals) of own moves left before nobody is alive, and can always make the next one |
| Forced.EveryScheduleKills | src/os/unix.rs:108-160 | along any interleaving each own move of an escalation brings it nearer to its end and no other thread prolongs it |
| Forced.FiredRunReturns | src/task.rs:103-118 | once `kill_fired` or `timed_out` is set, the library's threads alone bring `run_impl` to its return with nobody alive, whether or not any member obeys SIGTERM, exits or closes a pipe |
| Forced.KillCompletes | src/os/unix.rs:108-160 | an escalation under way, moving alone, leaves nobody alive within its bounded number of steps |
| RunTheorems.EventLanguage | src/task.rs:231-242 | the trace of a finished run is nothing on spawn failure, Started chunk* on a wait error, Started chunk* Exited on a normal return, a prefix on panic; the remaining errors are never returned |
| RunTheorems.OutcomeAgrees | src/task.rs:361-379 | result, Exited reason, Exited code and flags agree; a natural exit carries the root's exit code, or -1 when it died by a signal, a forced one -1 |
| RunTheorems.ReportIsTheSnapshot | src/task.rs:347-379 | the two loaded values decide event and result, written out: timeout before cancel before the code of the wait, whatever happens later |
| ReportTheorems.EveryReportHasItsSnapshot | src/task.rs:347-379 | every Exited of every run is decided by the state in which `timed_out` was loaded: -1 and TimedOut, else -1 and CancelRequested, else NaturalExit with the exit code or -1 |
| ReportTheorems.NaturalExitIsTheRootsOwn | src/os/unix.rs:87-105 | a reported natural exit carries the status of an exit the root itself made in this run, never that of a kill by the library |
| ReportTheorems.StatusIsTheRootsOwn | src/os/unix.rs:105 | the status of a root no longer live is that of its own exit, or none after a SIGKILL of the library |
| ReportTheorems.ForcedExitWasAskedFor | src/task.rs:265-281 | TimedOut only with a timeout configured, CancelRequested only after a call on a wired handle; the monitor exists exactly when there is a timeout |
| ReportTheorems.PanickedExactlyWhen | src/task.rs:238 | a run ends by unwinding exactly when one of its callbacks panicked |
| RunTheorems.SnapshotDecides | src/task.rs:347-379 | no step after the load of `timed_out` can change the report |
| RunTheorems.ForcedExitWasEarned | src/task.rs:275-278 | a reported timeout or cancel was preceded by a guarding probe that met a member of the group |
| RunTheorems.GoneFirstIsNatural | src/task.rs:92-101 | a tree gone before every probe found it alive is reported as a natural exit with its real code |
| RunTheorems.GoneIsNeverSeenAlive | src/os/mod.rs:75-82 | no later probe of any thread finds a gone tree alive |
| Quiescence.OnlyALateMonitorSignals | src/task.rs:339-345 | after a normal return no thread sends a signal except a monitor whose deadline had elapsed before the stop message |
| AfterReturn.SlotAtReturn | src/task.rs:67 | of every cancellable run that has ended: the slot is filled exactly when the wait had begun and Exited was not emitted (a wait error, a panicking chunk callback), cleared exactly when Exited was emitted |
| AfterReturn.WhoSignalsAfterReturn | src/task.rs:337-345 | after a return of any kind only a monitor woken before it, the wait thread left by a chunk panic, or a caller that finds the slot left filled sends a signal |
| AfterReturn.CancelFiresExactlyWhen | src/task.rs:103-118 | after a return of any kind `kill_fired` can still become true exactly when `CanFire`: already true, a store due, or the slot left filled, the group not empty and the winner not past its probe |
| AfterReturn.CancelAfterFailure | src/task.rs:103-118 | a run that returned WaitFailed with a zombie left, and a first `cancel()` after it that fires and signals |
| Quiescence.WokenMonitorNeverKills | src/task.rs:268-280 | a monitor woken by the message or the disconnect never kills |
| Quiescence.LateFlagAfterReturn | src/task.rs:275-277 | a run that has returned Ok and whose `timed_out` is set afterwards |
| Quiescence.LateFlagExactlyWhen | src/task.rs:275-277 | the flag can still change exactly when the monitor has, or can still get, an alive answer |
| OutputTheorems.NothingIsLost | src/os/mod.rs:108-119 | delivered ++ queued ++ in hand ++ unread is what was written, per stream, in every state while the receiver exists; delivered is always a prefix of it |
| OutputTheorems.NumberedThroughTheMerge | src/task.rs:308-313 | each stream's delivered chunks are numbered 0, 1, 2, ... with 1 to 8192 bytes, for any merge of the two drains |
| MergeTheorems.MergedInSendOrder | src/task.rs:308-313 | delivered chunks of both streams, then the queue, are what the drains sent, in the order of the sends; what is delivered is always a prefix |
| MergeTheorems.ReceiverIsDropped | src/task.rs:305-322 | a capture run that ends by a wait error or a chunk panic leaves no receiver and no queue |
| OutputTheorems.ExitedMeansComplete | src/task.rs:305-315 | at Exited everything written has been delivered except what a read error left, and nothing is written afterwards |
| OutputTheorems.DrainAloneMakesRoom | src/os/unix.rs:70-81 | a full pipe's own drain, moving alone, makes room for any write that fits the pipe |
| Progress.SomeThreadMoves | src/task.rs:297-323 | with a dead group and `run_impl` not returned, some library thread has an enabled step |
| Progress.Descends | src/task.rs:297-323 | every such step, of whatever thread, strictly decreases the measure |
| Streams.StreamStep | src/os/mod.rs:108-119 | conservation and numbering of one stream are kept by every step |
| Handshake.HandleStep | src/task.rs:248-259 | the handshake invariant between slot, flags, mutex and callers is kept by every step |
| Lifecycle.GroupStep | src/os/unix.rs:83-105 | what each thread's position implies about the group is kept by every step, and group death is for ever |
| Lifecycle.StepIsKernelAct | src/os/unix.rs:108-160 | every step but the spawn is at most one act of the kernel on the group |
| Capture.CaptureOnIsCaptureOff | src/task.rs:288-330 | each capture-on run whose chunk callback does not panic, chunks erased, is a capture-off run of the same actions, interrupted reads relabelled as broken, with the same group, flags and outcome |
| Capture.CaptureOffIsCaptureOn | src/task.rs:288-330 | each capture-off run is the erasure of a capture-on run without chunk panic or interrupted read |
| CaptureExact.CaptureOffExistsExactlyWhen | src/task.rs:308-313 | the erasure of a capture-on run is the end of some capture-off run exactly when the chunk callback did not panic |
| CaptureExact.SameActionsExactlyWhen | src/os/mod.rs:108-122 | the same actions, thinned, make that capture-off run exactly when no read was interrupted |
| CaptureExact.InterruptedReadDiffers | src/os/mod.rs:111-121 | a run with capture that returns Ok, has lost a written byte to an interrupted read, and is no capture-off run of its own actions |
| Escalation.KillEscalating | src/os/unix.rs:108-160 | Ok only with no live member; Err exactly when a signal was refused, and that was the last call; SIGKILL comes last, after alive probes only and at least the grace after the start; every probe but the last is followed by a sleep of 25 ms or the rest of the window; probes bounded; calls allowed by the protocol's automaton and backed by the signals really sent |
| Escalation.AwaitDeath | src/os/unix.rs:137-147 | the grace window is probe and sleep in turn, it ends with a dead probe or past the deadline, no sleep passes the deadline |
| Escalation.DrivenProbesBounded | src/os/unix.rs:137-147 | at most ceil(grace / 25 ms) + 1 probes along any path of the automaton, none dead before a SIGKILL |
| Escalation.World.TreeAliveCall | src/os/unix.rs:162-182 | a dead answer from the two non-atomic calls means that the group is gone; dead exactly when group and pid both answered ESRCH |
| Escalation.World.Send | src/os/unix.rs:122-129 | the group is signalled, and the pid exactly after ESRCH; it fails exactly when the group call failed otherwise |
| Escalation.ReapAbandoned | src/os/unix.rs:184-193 | it returns exactly when the root is not live, with the root reaped |
| Escalation.KillOnDropGuard.Drop | src/task.rs:37-52 | armed and not refused: nobody live, root reaped, one probe, no sleep; disarmed: nothing |
| Kernel.ProbeIsExact | src/os/unix.rs:162-182 | the probe answers alive exactly when the group has a member, zombies included |
| Kernel.EvolveAbsorbs | src/os/unix.rs:139-141 | over any history, death of the group, of its live members, of the root and of a pipe's writers is for ever |
| Machine.StateMachine.Transition | src/machine.rs:37-51 | exactly the two legal edges move the state, others report and change nothing |
| Machine.NeverBack | src/machine.rs:35-51 | over any sequence of requests the state never goes back, Exited is terminal and needs both requests |
| DrainLoop.Drain | src/os/mod.rs:102-124 | with a sender: all readable bytes in order, numbered from 0, chunks of 1 to 8192 bytes, sends never end the loop; without: discards and retries interrupts |
| DrainLoop.SameStopExactlyWhen | src/os/mod.rs:111-121 | both kinds of drain stop at the same place exactly when the capturing one is not stopped by an interrupt with replies still to come |
| DrainLoop.InterruptLosesTheRest | src/os/mod.rs:112-113 | after an interrupt the capturing drain leaves data unread that the other one consumes |
| TaskConfig.WithEnv | src/task.rs:170-178 | the value is overwritten where the key stands, or a new entry is appended |
| TaskConfig.SetVarInPlace | src/task.rs:170-178 | the position overwritten is that of the key, everything else stays, and a new key goes to the end |
| TaskConfig.SetVarDistinct | src/task.rs:165-178 | keys stay distinct |
| TaskConfig.SetVarMeansUpdate | src/task.rs:165-178 | exactly the named variable changes |
| TaskConfig.LastCallWins | src/task.rs:165-169 | after any sequence of calls each key is there once with its last value |
| TaskConfig.ChildEnv | src/os/unix.rs:28-35 | the child sees nothing or the parent's variables, overridden by the configured ones |
| Ffi.WithTimeout | src/ffi.rs:192-219 | the setter does what its specification `Apply` says and puts the task back |
| Ffi.WithCaptureOutput | src/ffi.rs:230-257 | likewise |
| Ffi.SetEnvVar | src/ffi.rs:270-309 | likewise, with the null, already-run and invalid-argument cases in this order |
| Ffi.SetClearEnvFlag | src/ffi.rs:321-345 | likewise |
| Ffi.SetWorkingDir | src/ffi.rs:360-391 | likewise, rejecting invalid and empty paths |
| Ffi.RunOnce | src/ffi.rs:477-573 | the first run consults `run_impl`, later ones are refused |
| Ffi.MakeCancel | src/ffi.rs:405-422 | the next run is cancellable |
| Ffi.SingleShot | src/ffi.rs:486-495 | over any sequence of calls exactly the first run executes, with the configuration, and the cancel handle if any, made before it |
| FfiCalls.RunsAsCalled | src/ffi.rs:192-391 | over any sequence of calls, one run: timeout in ms, capture, clear_env and cwd of the last valid call of each setter or the default, the environment with each valid key once and its last value, cancellable exactly when a cancel handle was made before |
| FfiCalls.AnswersTo | src/ffi.rs:192-391 | the code each call of a sequence returns: null argument, then already run, then not UTF-8, empty, or a key with '=', else Ok or the code of the run |
| Ffi.AfterTheRun | src/ffi.rs:110-117 | after a run every call but the making of a cancel handle is refused, and none changes the configuration or runs anything |
| EventBridge.OnEvent | src/ffi.rs:497-551 | the managed handler is given `Marshalled` of the event, in an array of its own |
| EventBridge.CallbackBridge.Dispatch | bindings/dotnet/Aer.Core/CallbackBridge.cs:26-41 | a chunk's bytes are copied into a fresh array; the bridge throws exactly when the converted length is negative |
| EventBridge.DeliverRun | src/ffi.rs:497-557 | a list of events that survive one by one reaches the managed caller unchanged and in order, and stays so after the native memory is reused |
| EventBridge.DeliverTrace | src/ffi.rs:497-557 | so does the trace of every run, without an exception |
| EventBridge.RoundTripExactlyWhen | bindings/dotnet/Aer.Core/CallbackBridge.cs:32-38 | an event survives exactly when it is no chunk or has 1 to 2^31-1 bytes |
| EventBridge.EveryRunRoundTrips | src/ffi.rs:497-551 | every event any run can emit survives |
| EventBridge.CodeMatchesRun | src/ffi.rs:34-44 | each code `aer_task_run` returns names what happened, in both directions: a callback panicked, nothing was emitted, the wait failed, or the reason of Exited |
| EventBridge.ExceptionMatchesReason | bindings/dotnet/Aer.Core/AerTask.cs:277-295 | so does the exception, or its absence, that the managed caller sees |
| EventBridge.ManagedRun.RunCore | bindings/dotnet/Aer.Core/AerTask.cs:185-234 | run once: disposed and repeated runs are refused before the native side, whose AlreadyRun never surfaces; a refused cancel handle is a NullPointer exception, and the task never runs |

## Left out

- Threads of one run share memory in the code; the run protocol models that memory as a value
  updated by atomic steps, so the runner, canceller, monitor and waiter are step functions and not
  methods over shared objects.
- The Windows backend: job objects are opaque foreign calls, and the child joins the job only
  after the spawn.
- Pid reuse, descendants that call setsid, and in the run protocol signal errors other than
  ESRCH: the behavioural specification declares the first two best-effort.
- An interrupted `waitpid` in `reap_abandoned`, which would leave the root to the wait thread.
- The delay between sending SIGKILL and the death of its target: a kill acts at once.
- Reuse of one cancel handle across runs.
- The wrap-around of the 64-bit chunk number after 2^64 chunks.
- A capture-off drain's `io::copy` is taken to read at most 8192 bytes at a time.
- `aer_task_new`, `aer_cancel`, the free functions, raw pointers, the thread-local last-error
  text, struct layout, SafeHandle and GC pinning.
- Message formatting, examples, tests, build and packaging files.
- Wall-clock promptness beyond the bounds on probes and sleeps.
