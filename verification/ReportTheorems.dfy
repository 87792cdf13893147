/** Where each report comes from, along the whole run: which flags were loaded, what killed the
    root, which callback panicked, whether a timeout was asked for. */
module ReportTheorems {
  import opened Kernel
  import opened Events
  import opened Escalation
  import opened Protocol
  import opened Lifecycle
  import opened Handshake
  import opened Report
  import opened Progress
  import opened Runs
  import opened RunTheorems

  /** The state one step before the end of a run. */
  lemma LastStep(c: Config, acts: seq<Action>, s: State) returns (s0: State)
    requires IsRun(c, acts, s) && acts != []
    ensures IsRun(c, acts[..|acts| - 1], s0) && Step(c, s0, acts[|acts| - 1]) == Some(s)
  {
    var n := |acts| - 1;
    assert acts == acts[..n] + [acts[n]];
    ExecAppend(c, Init(c), acts[..n], [acts[n]]);
    s0 := Exec(c, Init(c), acts[..n]).value;
    assert [acts[n]][1..] == [];
    hide Step;
  }

  /** `s0` is the state of the run before its action `k`. */
  ghost predicate Before(c: Config, acts: seq<Action>, k: nat, s0: State) {
    k < |acts| && IsRun(c, acts[..k], s0)
  }

  lemma BeforeLonger(c: Config, acts: seq<Action>, n: nat, k: nat, s0: State)
    requires n <= |acts| && Before(c, acts[..n], k, s0)
    ensures Before(c, acts, k, s0) && acts[k] == acts[..n][k]
  {
    assert acts[..n][..k] == acts[..k];
    hide IsRun;
  }

  /** From the state before an action the run goes on to its end. */
  lemma GoesOn(c: Config, acts: seq<Action>, s: State, k: nat, s0: State)
    requires IsRun(c, acts, s) && Before(c, acts, k, s0)
    ensures Exec(c, s0, acts[k..]) == Some(s)
    ensures Step(c, s0, acts[k]).Some?
    ensures Exec(c, Step(c, s0, acts[k]).value, acts[k + 1..]) == Some(s)
  {
    assert acts == acts[..k] + acts[k..];
    ExecAppend(c, Init(c), acts[..k], acts[k..]);
    assert acts[k..][1..] == acts[k + 1..];
    hide Step;
  }

  // ----- the loaded flags

  ghost predicate Loaded(s: State) {
    s.r.pc.RSnapFired? || s.r.pc.RExiting? || s.r.pc.RExited? || Reported(s.r.trace)
  }

  lemma LoadedBy(c: Config, s: State, a: Action, s': State)
    requires Step(c, s, a) == Some(s') && Loaded(s') && !Loaded(s)
    ensures s.r.pc.RSnapTimeout? && a.Run?
  {
    if a.Run? {
      RunLoads(c, s, a.flag, s');
      hide RunStep, Reported;
    } else {
      hide EscStep, Do, TreeAlive, RunStep, Reported;
    }
  }

  lemma RunLoads(c: Config, s: State, flag: bool, s': State)
    requires RunStep(c, s, flag) == Some(s') && Loaded(s') && !Loaded(s)
    ensures s.r.pc.RSnapTimeout?
  {
    match PhaseOf(s.r.pc)
    case Unwinding => hide EscStep, Do, BeginStep, WireStep, PumpStep, FinishStep, Reported;
    case _ => hide EscStep, TreeAlive, UnwindStep;
  }

  lemma {:induction false} FindLoad(c: Config, acts: seq<Action>, s: State) returns (k: nat, s0: State)
    requires IsRun(c, acts, s) && Loaded(s)
    ensures Before(c, acts, k, s0) && s0.r.pc.RSnapTimeout? && acts[k].Run?
    decreases |acts|
  {
    var n := |acts| - 1;
    var p := LastStep(c, acts, s);
    hide Step, IsRun;
    if Loaded(p) {
      k, s0 := FindLoad(c, acts[..n], p);
      BeforeLonger(c, acts, n, k, s0);
    } else {
      LoadedBy(c, p, acts[n], s);
      k, s0 := n, p;
    }
  }

  /** Every Exited event of every run is decided by the state in which `timed_out` was loaded:
      timeout first, then cancel, and otherwise the root's exit code, or -1 for a root that died
      by a signal. */
  lemma EveryReportHasItsSnapshot(c: Config, acts: seq<Action>, s: State) returns (k: nat, s0: State)
    requires IsRun(c, acts, s) && s.r.pc.RDone? && Reported(s.r.trace)
    ensures Before(c, acts, k, s0) && s0.r.pc.RSnapTimeout? && acts[k].Run?
    ensures s.r.trace[|s.r.trace| - 1]
            == if s0.m.late then Exited(-1, ExitReason.TimedOut)
               else if s0.ch.fired then Exited(-1, CancelRequested)
               else Exited(match s0.k.status case Some(n) => n case None => -1, NaturalExit)
    ensures s.k.status == s0.k.status
  {
    k, s0 := FindLoad(c, acts, s);
    GoesOn(c, acts, s, k, s0);
    var s1 := Step(c, s0, acts[k]).value;
    ReportIsTheSnapshot(c, acts[..k], s0, acts[k].flag, s1, acts[k + 1..], s);
    InvRun(c, acts[..k], s0);
    WaitedStatus(c, s0);
    GroupAbsorbs(c, s0, acts[k..], s);
    hide Inv, Exec, Step, IsRun;
  }

  lemma WaitedStatus(c: Config, s: State)
    requires Inv(c, s) && s.r.pc.RSnapTimeout?
    ensures s.r.pc.code == match s.k.status case Some(n) => n case None => -1
    ensures s.k.root !in s.k.live
  {
    InvHasGroup(c, s);
    hide Inv, GuardInv, Sane;
  }

  // ----- what killed the root

  /** A step that ends the life of the root is its own exit, with that status, or a SIGKILL of
      this library, with none. */
  lemma RootDies(c: Config, s: State, a: Action, s': State)
    requires Step(c, s, a) == Some(s') && s.k.root == c.pid
    requires s.k.root in s.k.live && s'.k.root !in s'.k.live && s'.k.root == s.k.root
    requires !(s.r.pc.RSpawn? && a.Run?)
    ensures a == Env(Exit(c.pid, s'.k.status))
            || (KernelAct(s, a) == Some(Signal(Kill)) && s'.k.status == None)
  {
    StepIsKernelAct(c, s, a, s');
    if a.Env? {
      EnvNeverSignals(c, s, a);
    }
    ActEndsRoot(c.cap, s.k, KernelAct(s, a), s'.k);
    hide Step;
  }

  lemma EnvNeverSignals(c: Config, s: State, a: Action)
    requires Step(c, s, a).Some? && a.Env?
    ensures !a.act.Signal?
  {
    hide Do;
  }

  lemma ActEndsRoot(cap: nat, g: Group, act: Option<Act>, h: Group)
    requires ActedBy(cap, g, act, h) && g.root in g.live && h.root == g.root && h.root !in h.live
    ensures act == Some(Exit(g.root, h.status)) || (act == Some(Signal(Kill)) && h.status == None)
  {}

  lemma SpawnedRoot(c: Config, s: State, a: Action, s': State)
    requires Inv(c, s) && Step(c, s, a) == Some(s') && s.r.pc.RSpawn? && a.Run?
    ensures Unspawned(s'.r.pc) || s'.k.root in s'.k.live
  {
    hide Inv;
  }

  lemma UnspawnedStays(c: Config, s: State, a: Action, s': State)
    requires Step(c, s, a) == Some(s') && Unspawned(s.r.pc) && !(s.r.pc.RSpawn? && a.Run?)
    ensures Unspawned(s'.r.pc)
  {
    hide EscStep, Do, TreeAlive;
  }

  /** The status of a root that is no longer live is that of its own death in this run: an exit
      of its own (or a signal from outside), or a SIGKILL of this library. */
  lemma {:induction false} StatusIsTheRootsOwn(c: Config, acts: seq<Action>, s: State)
    returns (k: nat, s0: State)
    requires IsRun(c, acts, s) && !Unspawned(s.r.pc) && s.k.root !in s.k.live
    ensures Before(c, acts, k, s0) && c.pid in s0.k.live
    ensures acts[k] == Env(Exit(c.pid, s.k.status))
            || (KernelAct(s0, acts[k]) == Some(Signal(Kill)) && s.k.status == None)
    decreases |acts|
  {
    assert acts != [];
    var n := |acts| - 1;
    var p := LastStep(c, acts, s);
    InvRun(c, acts[..n], p);
    InvHasGroup(c, p);
    GroupStep(c, p, acts[n], s);
    assert p.k.root == c.pid;
    hide Step, IsRun, Inv, GroupInv, KernelAct;
    if p.r.pc.RSpawn? && acts[n].Run? {
      SpawnedRoot(c, p, acts[n], s);
      assert false;
    } else if p.k.root in p.k.live {
      RootDies(c, p, acts[n], s);
      k, s0 := n, p;
    } else {
      if Unspawned(p.r.pc) {
        UnspawnedStays(c, p, acts[n], s);
      }
      k, s0 := StatusIsTheRootsOwn(c, acts[..n], p);
      BeforeLonger(c, acts, n, k, s0);
    }
  }

  // ----- the monitor

  /** The monitor exists for a timeout only, and escalates with its flag set. */
  ghost predicate MonitorInv(c: Config, s: State) {
    && (!s.m.pc.MNone? || s.m.late ==> c.timeout)
    && (s.m.pc.MEscalate? ==> s.m.late)
    && (s.r.pc.RWaitStart? || !s.w.WNone? ==> (s.m.pc.MNone? <==> !c.timeout))
  }

  lemma MonitorInvStep(c: Config, s: State, a: Action, s': State)
    requires WaitInv(s) && MonitorInv(c, s) && Step(c, s, a) == Some(s')
    ensures MonitorInv(c, s')
  {
    if a.Run? {
      RunMonitorInv(c, s, a.flag, s');
      hide RunStep;
    } else {
      hide EscStep, Do, TreeAlive, RunStep, WaitInv;
    }
  }

  lemma RunMonitorInv(c: Config, s: State, flag: bool, s': State)
    requires WaitInv(s) && MonitorInv(c, s) && RunStep(c, s, flag) == Some(s')
    ensures MonitorInv(c, s')
  {
    hide EscStep, Do, TreeAlive;
  }

  lemma {:induction false} MonitorInvExec(c: Config, s: State, acts: seq<Action>, t: State)
    requires Inv(c, s) && MonitorInv(c, s) && Exec(c, s, acts) == Some(t)
    ensures MonitorInv(c, t)
    decreases |acts|
  {
    hide Step, Inv, MonitorInv;
    if acts == [] {
    } else {
      var s1 := Step(c, s, acts[0]).value;
      InvGivesProgress(c, s);
      MonitorInvStep(c, s, acts[0], s1);
      InvStep(c, s, acts[0], s1);
      MonitorInvExec(c, s1, acts[1..], t);
    }
  }

  lemma MonitorRun(c: Config, acts: seq<Action>, s: State)
    requires IsRun(c, acts, s)
    ensures MonitorInv(c, s)
  {
    InvInit(c);
    MonitorInvExec(c, Init(c), acts, s);
  }

  /** A forced exit was asked for: TimedOut only with a timeout configured, CancelRequested only
      after a call of `cancel()` on the handle of a run that has one. And a timeout that is
      configured has its monitor from before the wait on. */
  lemma ForcedExitWasAskedFor(c: Config, acts: seq<Action>, s: State)
    requires IsRun(c, acts, s)
    ensures Reported(s.r.trace) && s.r.trace[|s.r.trace| - 1].reason == ExitReason.TimedOut ==> c.timeout
    ensures Reported(s.r.trace) && s.r.trace[|s.r.trace| - 1].reason == CancelRequested ==>
              c.cancellable && exists id :: id in s.ch.calls && s.ch.calls[id] != CDone(Lost)
    ensures !s.w.WNone? ==> (s.m.pc.MNone? <==> !c.timeout)
  {
    MonitorRun(c, acts, s);
    InvRun(c, acts, s);
    if Reported(s.r.trace) {
      ReportedReason(c, s);
    }
    if s.ch.fired {
      FiredHasCaller(c, s);
    }
    hide Inv, IsRun;
  }

  lemma ReportedReason(c: Config, s: State)
    requires Inv(c, s) && Reported(s.r.trace)
    ensures ReasonTrue(s, s.r.trace[|s.r.trace| - 1].reason)
  {
    hide GroupInv, EventInv, HandleInv, DeadInv, CaptureInv, EscInv, CountInv;
  }

  lemma FiredHasCaller(c: Config, s: State)
    requires Inv(c, s) && s.ch.fired
    ensures c.cancellable && exists id :: id in s.ch.calls && s.ch.calls[id] != CDone(Lost)
  {
    InvGivesProgress(c, s);
    assert s.h.winner.value in s.ch.calls;
    hide Inv, WaitInv, KillInv, GuardInv, WinnerInv;
  }

  // ----- a natural exit is natural

  /** Something has happened that keeps the run from reporting a natural exit. */
  ghost predicate Unnatural(s: State) {
    || s.ch.fired
    || (PhaseOf(s.r.pc).Unwinding? && !Reported(s.r.trace))
    || (s.w.WKill? && s.w.res.None?)
    || (Killed(s.w) && s.w.res.None?)
    || (s.m.late && !PhaseOf(s.r.pc).Finishing? && !PhaseOf(s.r.pc).Unwinding?)
    || (PhaseOf(s.r.pc).Finishing? && LoadedLate(s))
    || (Reported(s.r.trace) && s.r.trace[|s.r.trace| - 1].reason == ExitReason.TimedOut)
  }

  ghost predicate LoadedLate(s: State) {
    if s.r.pc.RSnapFired? || s.r.pc.RExiting? || s.r.pc.RExited? then s.r.pc.late else s.m.late
  }

  lemma UnnaturalStep(c: Config, s: State, a: Action, s': State)
    requires WaitInv(s) && Unnatural(s) && Step(c, s, a) == Some(s')
    requires !Reported(s.r.trace) || PhaseOf(s.r.pc).Unwinding?
    ensures Unnatural(s')
  {
    if a.Run? {
      RunUnnatural(c, s, a.flag, s');
    } else {
      hide EscStep, Do, TreeAlive, RunStep, WaitInv;
    }
  }

  lemma RunUnnatural(c: Config, s: State, flag: bool, s': State)
    requires WaitInv(s) && Unnatural(s) && RunStep(c, s, flag) == Some(s')
    requires !Reported(s.r.trace) || PhaseOf(s.r.pc).Unwinding?
    ensures Unnatural(s')
  {
    match PhaseOf(s.r.pc)
    case Finishing => FinishUnnatural(c, s, flag, s');
    case Unwinding => UnwindUnnatural(s, flag, s');
    case Pumping => PumpUnnatural(c, s, flag, s');
    case _ => EarlyUnnatural(c, s, flag, s');
  }

  lemma EarlyUnnatural(c: Config, s: State, flag: bool, s': State)
    requires WaitInv(s) && Unnatural(s) && RunStep(c, s, flag) == Some(s')
    requires PhaseOf(s.r.pc).Beginning? || PhaseOf(s.r.pc).Wiring?
    requires !Reported(s.r.trace)
    ensures Unnatural(s')
  {
    hide EscStep, Do, TreeAlive, PumpStep, FinishStep, UnwindStep;
  }

  lemma PumpUnnatural(c: Config, s: State, flag: bool, s': State)
    requires WaitInv(s) && Unnatural(s) && PumpStep(c, s, flag) == Some(s')
    requires !Reported(s.r.trace)
    ensures Unnatural(s')
  {}

  lemma FinishUnnatural(c: Config, s: State, flag: bool, s': State)
    requires WaitInv(s) && Unnatural(s) && FinishStep(c, s, flag) == Some(s')
    requires !Reported(s.r.trace)
    ensures Unnatural(s')
  {}

  lemma UnwindUnnatural(s: State, flag: bool, s': State)
    requires Unnatural(s) && UnwindStep(s, flag) == Some(s')
    ensures Unnatural(s')
  {
    hide EscStep, Do, Reported;
  }

  lemma {:induction false} UnnaturalExec(c: Config, s: State, acts: seq<Action>, t: State)
    requires Inv(c, s) && Unnatural(s) && Exec(c, s, acts) == Some(t)
    ensures Unnatural(t)
    decreases |acts|
  {
    hide Step, Inv, Unnatural, Reported;
    if acts == [] {
    } else {
      var s1 := Step(c, s, acts[0]).value;
      InvGivesProgress(c, s);
      ReportedUnwinds(c, s);
      UnnaturalStep(c, s, acts[0], s1);
      InvStep(c, s, acts[0], s1);
      UnnaturalExec(c, s1, acts[1..], t);
    }
  }

  lemma ReportedUnwinds(c: Config, s: State)
    requires Inv(c, s)
    ensures Reported(s.r.trace) ==> PhaseOf(s.r.pc).Unwinding?
  {
    hide GroupInv, EventInv, HandleInv, DeadInv, CaptureInv, EscInv, CountInv;
  }

  /** Whenever this library kills a live root the run cannot report a natural exit any more. */
  lemma KillIsUnnatural(c: Config, s: State, a: Action)
    requires Inv(c, s) && MonitorInv(c, s) && Step(c, s, a).Some?
    requires KernelAct(s, a) == Some(Signal(Kill)) && s.k.root in s.k.live
    ensures Unnatural(s)
  {
    InvGivesProgress(c, s);
    ReportedSome(c, s);
    assert !PhaseOf(s.r.pc).Finishing? && !Killed(s.w);
    assert !Reported(s.r.trace);
    hide Inv, Step, GuardInv, SlotInv, Sane;
  }

  lemma ReportedSome(c: Config, s: State)
    requires Inv(c, s)
    ensures Reported(s.r.trace) ==> s.w.WDone? && s.w.res.Some?
  {
    if Reported(s.r.trace) {
      ReportedFull(c, s);
    }
    hide Inv;
  }

  /** A natural exit is the root's own: where one is reported, the root died by an exit of its
      own in this run - or by a signal from outside, with no status - and the code is that of
      this very exit. No kill by this library is ever reported as natural. */
  lemma NaturalExitIsTheRootsOwn(c: Config, acts: seq<Action>, s: State)
    returns (k: nat, status: Option<int>)
    requires IsRun(c, acts, s) && s.r.pc.RDone? && Reported(s.r.trace)
    requires s.r.trace[|s.r.trace| - 1].reason == NaturalExit
    ensures k < |acts| && acts[k] == Env(Exit(c.pid, status))
    ensures s.r.trace[|s.r.trace| - 1].code == match status case Some(n) => n case None => -1
  {
    InvRun(c, acts, s);
    ReportedIsNatural(c, s);
    var j, p := EveryReportHasItsSnapshot(c, acts, s);
    var s0;
    k, s0 := StatusIsTheRootsOwn(c, acts, s);
    status := s.k.status;
    InvRun(c, acts[..k], s0);
    MonitorRun(c, acts[..k], s0);
    GoesOn(c, acts, s, k, s0);
    assert s0.k.root == c.pid by { InvHasGroup(c, s0); hide Inv, Step, Exec; }
    hide Inv, Step, Exec, IsRun, KernelAct, MonitorInv, Unnatural;
    if KernelAct(s0, acts[k]) == Some(Signal(Kill)) {
      KillIsUnnatural(c, s0, acts[k]);
      UnnaturalExec(c, s0, acts[k..], s);
    }
  }

  lemma ReportedIsNatural(c: Config, s: State)
    requires Inv(c, s) && s.r.pc.RDone? && Reported(s.r.trace)
    requires s.r.trace[|s.r.trace| - 1].reason == NaturalExit
    ensures !Unnatural(s) && s.k.root !in s.k.live && !Unspawned(s.r.pc)
  {
    ReportedReason(c, s);
    ReportedFull(c, s);
    InvHasGroup(c, s);
    OutcomeSpawned(c, s);
    hide Inv, WaitInv, Sane;
  }

  lemma OutcomeSpawned(c: Config, s: State)
    requires Inv(c, s) && Reported(s.r.trace)
    ensures !Unspawned(s.r.pc)
  {
    hide GroupInv, HandleInv, DeadInv, CaptureInv, EscInv, CountInv, MachineInv;
  }

  // ----- panics

  /** The next step is a callback that panics. */
  ghost predicate CallbackPanics(s: State, a: Action) {
    a.Run? && a.flag && (s.r.pc.RStarted? || (s.r.pc.RPump? && s.io.queue != []) || s.r.pc.RExited?)
  }

  ghost predicate SomeCallbackPanics(c: Config, s: State, acts: seq<Action>)
    decreases |acts|
  {
    acts != [] && Step(c, s, acts[0]).Some?
    && (CallbackPanics(s, acts[0]) || SomeCallbackPanics(c, Step(c, s, acts[0]).value, acts[1..]))
  }

  lemma PanicStep(c: Config, s: State, a: Action, s': State)
    requires Step(c, s, a) == Some(s')
    ensures OutcomeOf(s'.r.pc) == Some(Panicked)
            <==> OutcomeOf(s.r.pc) == Some(Panicked) || CallbackPanics(s, a)
  {
    if a.Run? {
      RunPanic(c, s, a.flag, s');
    } else {
      hide EscStep, Do, TreeAlive, RunStep, OutcomeOf;
    }
  }

  lemma RunPanic(c: Config, s: State, flag: bool, s': State)
    requires RunStep(c, s, flag) == Some(s')
    ensures OutcomeOf(s'.r.pc) == Some(Panicked)
            <==> OutcomeOf(s.r.pc) == Some(Panicked) || CallbackPanics(s, Run(flag))
  {
    match PhaseOf(s.r.pc)
    case Unwinding =>
      UnwindKeepsOutcome(s, flag, s');
      hide RunStep;
    case Finishing => hide BeginStep, WireStep, PumpStep, UnwindStep;
    case Pumping => hide BeginStep, WireStep, FinishStep, UnwindStep;
    case _ => hide EscStep, TreeAlive, PumpStep, FinishStep, UnwindStep;
  }

  lemma UnwindKeepsOutcome(s: State, flag: bool, s': State)
    requires UnwindStep(s, flag) == Some(s')
    ensures OutcomeOf(s'.r.pc) == OutcomeOf(s.r.pc) != None
  {
    hide EscStep, Do;
  }

  lemma {:induction false} PanicExec(c: Config, s: State, acts: seq<Action>, t: State)
    requires Exec(c, s, acts) == Some(t)
    ensures OutcomeOf(t.r.pc) == Some(Panicked)
            <==> OutcomeOf(s.r.pc) == Some(Panicked) || SomeCallbackPanics(c, s, acts)
    decreases |acts|
  {
    hide Step, OutcomeOf, CallbackPanics;
    if acts == [] {
    } else {
      var s1 := Step(c, s, acts[0]).value;
      PanicStep(c, s, acts[0], s1);
      PanicExec(c, s1, acts[1..], t);
    }
  }

  /** A run ends by unwinding exactly when some callback panicked. */
  lemma PanickedExactlyWhen(c: Config, acts: seq<Action>, s: State)
    requires IsRun(c, acts, s) && s.r.pc.RDone?
    ensures s.r.pc.outcome == Panicked <==> SomeCallbackPanics(c, Init(c), acts)
  {
    PanicExec(c, Init(c), acts, s);
    hide Exec, SomeCallbackPanics;
  }
}
