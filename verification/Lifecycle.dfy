/** What every run keeps about the life of the process group and about the emitted events:
    nobody survives `run_impl`, and the trace is a word of the event language. */
module Lifecycle {
  import opened Kernel
  import opened Events
  import opened Escalation
  import opened Protocol

  // ----- the group

  predicate BeforeWait(pc: Runner) {
    PhaseOf(pc).Beginning? || PhaseOf(pc).Wiring? || pc.RMonitor? || pc.RWaitStart?
  }

  predicate Unspawned(pc: Runner) {
    pc.RSpawn? || pc == RDone(Err(SpawnFailed))
  }

  /** `wait` has sent its group SIGKILL. */
  predicate Killed(w: Waiter) {
    w.WJoinOut? || w.WJoinErr? || w.WDone?
  }

  ghost predicate RootGone(s: State) {
    s.k.root !in s.k.Members()
  }

  function OutcomeOf(pc: Runner): Option<Outcome> {
    match pc
    case UDropRx(o) => Some(o)
    case UDropTx(o) => Some(o)
    case UGuard(o) => Some(o)
    case UEscalate(_, o) => Some(o)
    case UReap(o) => Some(o)
    case RDone(o) => Some(o)
    case _ => None
  }

  /** Who waits for whom. */
  ghost predicate WaitInv(s: State) {
    && (BeforeWait(s.r.pc) ==> s.w.WNone?)
    && (BeforeWait(s.r.pc) && !s.r.pc.RWaitStart? ==> s.m.pc.MNone?)
    && (PhaseOf(s.r.pc).Pumping? && !BeforeWait(s.r.pc) ==> !s.w.WNone?)
    && (PhaseOf(s.r.pc).Finishing? ==> s.w == WDone(Some(s.r.pc.code)))
    && (s.w.WNone? || s.w.WSpawnOut? <==> s.io.out.DNone?)
    && (s.w.WNone? || s.w.WSpawnOut? || s.w.WSpawnErr? <==> s.io.err.DNone?)
    && (s.w.WJoinErr? || s.w.WDone? ==> s.io.out.DEnd?)
    && (s.w.WDone? ==> s.io.err.DEnd?)
  }

  /** What `wait` has established about the group. */
  ghost predicate KillInv(s: State) {
    && (Killed(s.w) ==> s.k.live == {})
    && ((s.w.WKill? || Killed(s.w)) && s.w.res.Some? ==>
          RootGone(s) && s.w.res.value == ExitCode(s.k.status))
  }

  /** What the guard has established about the group. */
  ghost predicate GuardInv(c: Config, s: State) {
    && (Unspawned(s.r.pc) ==> s.k == Unborn(c.pid) && s.w.WNone?)
    && (OutcomeOf(s.r.pc) == Some(Err(SpawnFailed)) ==> s.r.pc.RDone?)
    && (!s.r.armed && !Unspawned(s.r.pc) ==> s.w.WDone? && s.w.res.Some?)
    && (s.r.pc.UReap? ==> s.k.live == {})
    && (s.r.pc.RDone? ==> s.k.live == {} && RootGone(s))
  }

  ghost predicate GroupInv(c: Config, s: State) {
    && Sane(c.cap, s.k) && s.k.root == c.pid
    && WaitInv(s) && KillInv(s) && GuardInv(c, s)
  }

  /** The act of the kernel that a step performs on the group, if any. The spawn, which
      makes the group, is not one. */
  function KernelAct(s: State, a: Action): Option<Act> {
    match a
    case Run(_) =>
      if s.r.pc.REscalate? || s.r.pc.UEscalate? then
        if s.r.pc.esc.EKill? then Some(Signal(Kill)) else None
      else if s.r.pc.UReap? && s.k.root in s.k.zombies then Some(WaitRoot)
      else None
    case Cancel(id, _) =>
      if id in s.ch.calls && s.ch.calls[id] == CEscalate(EKill) then Some(Signal(Kill)) else None
    case Watch(_) => if s.m.pc == MEscalate(EKill) then Some(Signal(Kill)) else None
    case Wait(flag) =>
      if s.w.WWait? && !flag && s.k.root in s.k.zombies then Some(WaitRoot)
      else if s.w.WKill? then Some(Signal(Kill))
      else None
    case Copy(x, n, fault) =>
      if s.io.Drain(x).DRead? && fault.NoFault? && n > 0 then Some(Read(x, n)) else None
    case Env(act) => Some(act)
  }

  ghost predicate ActedBy(cap: nat, g: Group, act: Option<Act>, g': Group) {
    match act
    case Some(act) => Can(cap, g, act) && g' == Do(g, act)
    case None => g' == g
  }

  lemma RunAct(c: Config, s: State, flag: bool, s': State)
    requires RunStep(c, s, flag) == Some(s') && !s.r.pc.RSpawn?
    ensures ActedBy(c.cap, s.k, KernelAct(s, Run(flag)), s'.k)
  {}

  lemma CancelAct(c: Config, s: State, id: nat, flag: bool, s': State)
    requires CancelStep(c, s, id, flag) == Some(s')
    ensures ActedBy(c.cap, s.k, KernelAct(s, Cancel(id, flag)), s'.k)
  {}

  lemma WatchAct(c: Config, s: State, flag: bool, s': State)
    requires WatchStep(s, flag) == Some(s')
    ensures ActedBy(c.cap, s.k, KernelAct(s, Watch(flag)), s'.k)
  {}

  lemma WaitAct(c: Config, s: State, flag: bool, s': State)
    requires WaitStep(s, flag) == Some(s')
    ensures ActedBy(c.cap, s.k, KernelAct(s, Wait(flag)), s'.k)
  {}

  lemma CopyAct(c: Config, s: State, x: Stream, n: nat, fault: Fault, s': State)
    requires CopyStep(c, s, x, n, fault) == Some(s')
    ensures ActedBy(c.cap, s.k, KernelAct(s, Copy(x, n, fault)), s'.k)
  {}

  lemma StepIsKernelAct(c: Config, s: State, a: Action, s': State)
    requires Step(c, s, a) == Some(s') && !(s.r.pc.RSpawn? && a.Run?)
    ensures ActedBy(c.cap, s.k, KernelAct(s, a), s'.k)
  {
    match a
    case Run(flag) => hide *; RunAct(c, s, flag, s');
    case Cancel(id, flag) => CancelAct(c, s, id, flag, s');
    case Watch(flag) => WatchAct(c, s, flag, s');
    case Wait(flag) => WaitAct(c, s, flag, s');
    case Copy(x, n, fault) => CopyAct(c, s, x, n, fault, s');
    case Env(_) =>
  }

  lemma GroupStep(c: Config, s: State, a: Action, s': State)
    requires GroupInv(c, s) && Step(c, s, a) == Some(s')
    ensures GroupInv(c, s')
    ensures !(s.r.pc.RSpawn? && a.Run?) ==> Absorbing(s.k, s'.k)
  {
    if s.r.pc.RSpawn? && a.Run? {
    } else {
      StepIsKernelAct(c, s, a, s');
      if KernelAct(s, a).Some? {
        StepAbsorbs(c.cap, s.k, KernelAct(s, a).value);
      }
      match a
      case Run(flag) => RunGroup(c, s, flag, s');
      case Cancel(_, _) => OtherGroup(c, s, a, s');
      case Watch(_) => OtherGroup(c, s, a, s');
      case Wait(flag) => WaitGroup(c, s, flag, s');
      case Copy(_, _, _) => OtherGroup(c, s, a, s');
      case Env(_) => OtherGroup(c, s, a, s');
    }
  }

  lemma OtherGroup(c: Config, s: State, a: Action, s': State)
    requires GroupInv(c, s) && Step(c, s, a) == Some(s') && !a.Run? && !a.Wait?
    requires Sane(c.cap, s'.k) && Absorbing(s.k, s'.k)
    ensures GroupInv(c, s')
  {
    OtherFrame(c, s, a, s');
    OtherKeepsGroup(c, s, a, s');
    hide Step, GuardInv, Sane;
  }

  /** Cancellers, monitor, drains and the group leave runner and waiter alone; a drain is
      started by nobody else and its end is final. */
  lemma OtherFrame(c: Config, s: State, a: Action, s': State)
    requires Step(c, s, a) == Some(s') && !a.Run? && !a.Wait?
    ensures s'.r == s.r && s'.w == s.w && (s.m.pc.MNone? ==> s'.m.pc.MNone?)
    ensures forall x :: (s'.io.Drain(x).DNone? <==> s.io.Drain(x).DNone?)
                        && (s.io.Drain(x).DEnd? ==> s'.io.Drain(x).DEnd?)
    ensures s'.io.out == s'.io.Drain(Stdout) && s'.io.err == s'.io.Drain(Stderr)
  {
    hide Do, EscStep, TreeAlive, RunStep, WaitStep;
  }

  lemma OtherKeepsGroup(c: Config, s: State, a: Action, s': State)
    requires GuardInv(c, s) && Step(c, s, a) == Some(s') && !a.Run? && !a.Wait?
    requires Absorbing(s.k, s'.k)
    ensures GuardInv(c, s')
  {
    OtherFrame(c, s, a, s');
    if Unspawned(s.r.pc) {
      UnbornStays(c, s, a, s');
    }
    hide Step;
  }

  lemma UnbornStays(c: Config, s: State, a: Action, s': State)
    requires s.k == Unborn(c.pid) && Step(c, s, a) == Some(s') && !a.Run? && !a.Wait?
    ensures s'.k == s.k
  {
    hide RunStep, WaitStep, TreeAlive;
  }

  lemma WaitGroup(c: Config, s: State, flag: bool, s': State)
    requires GroupInv(c, s) && WaitStep(s, flag) == Some(s')
    requires Sane(c.cap, s'.k) && Absorbing(s.k, s'.k)
    ensures GroupInv(c, s')
  {
    if s.w.WKill? {
      KillLeavesNobody(s.k);
    }
  }

  lemma RunGroup(c: Config, s: State, flag: bool, s': State)
    requires GroupInv(c, s) && RunStep(c, s, flag) == Some(s') && !s.r.pc.RSpawn?
    requires Sane(c.cap, s'.k) && Absorbing(s.k, s'.k)
    ensures GroupInv(c, s')
  {
    match PhaseOf(s.r.pc)
    case Beginning =>
    case Wiring => WireGroup(c, s, flag, s');
    case Pumping => PumpGroup(c, s, flag, s');
    case Finishing => FinishGroup(c, s, flag, s');
    case Unwinding => UnwindGroup(c, s, flag, s');
  }

  lemma WireGroup(c: Config, s: State, flag: bool, s': State)
    requires GroupInv(c, s) && WireStep(c, s, flag) == Some(s')
    requires Sane(c.cap, s'.k) && Absorbing(s.k, s'.k)
    ensures GroupInv(c, s')
  {}

  lemma PumpGroup(c: Config, s: State, flag: bool, s': State)
    requires GroupInv(c, s) && PumpStep(c, s, flag) == Some(s')
    ensures GroupInv(c, s')
  {
    assert s'.k == s.k && s'.r.armed == s.r.armed;
    hide Sane, KillInv;
    KeepKilled(s, s');
  }

  lemma KeepKilled(s: State, s': State)
    requires KillInv(s) && s'.k == s.k
    requires s'.w == s.w || s'.w.WSpawnOut?
    ensures KillInv(s')
  {}

  lemma FinishGroup(c: Config, s: State, flag: bool, s': State)
    requires GroupInv(c, s) && FinishStep(c, s, flag) == Some(s')
    ensures GroupInv(c, s')
  {}

  lemma UnwindGroup(c: Config, s: State, flag: bool, s': State)
    requires GroupInv(c, s) && UnwindStep(s, flag) == Some(s')
    requires Sane(c.cap, s'.k) && Absorbing(s.k, s'.k)
    ensures GroupInv(c, s')
  {
    if s.r.pc.UEscalate? {
      EscGroup(c, s, flag, s');
    } else {
      DropGroup(c, s, flag, s');
    }
    hide UnwindStep;
  }

  lemma DropGroup(c: Config, s: State, flag: bool, s': State)
    requires GroupInv(c, s) && UnwindStep(s, flag) == Some(s') && !s.r.pc.UEscalate?
    requires Sane(c.cap, s'.k) && Absorbing(s.k, s'.k)
    ensures GroupInv(c, s')
  {
    hide EscStep;
  }

  lemma EscGroup(c: Config, s: State, flag: bool, s': State)
    requires GroupInv(c, s) && UnwindStep(s, flag) == Some(s') && s.r.pc.UEscalate?
    requires Sane(c.cap, s'.k) && Absorbing(s.k, s'.k)
    ensures GroupInv(c, s')
  {
    ProbeIsExact(s.k);
    KillLeavesNobody(s.k);
    hide Slay, KillPg, TreeAlive;
  }

  // ----- the events

  /** Started chunk*, without chunks unless capturing. */
  ghost predicate Body(c: Config, t: seq<Event>) {
    && t != [] && t[0] == Started(c.pid)
    && (forall i | 1 <= i < |t| :: t[i].Chunk?)
    && (!c.capture ==> |t| == 1)
  }

  /** Started chunk* Exited, where a natural exit carries `code` and the others -1. */
  ghost predicate Full(c: Config, t: seq<Event>, code: int) {
    && |t| > 1 && Body(c, t[..|t| - 1])
    && t[|t| - 1].Exited?
    && t[|t| - 1].code == (if t[|t| - 1].reason.NaturalExit? then code else -1)
  }

  /** The event language, by outcome. */
  ghost predicate Word(c: Config, s: State, o: Outcome) {
    match o
    case Ok => s.w.WDone? && s.w.res.Some? && Full(c, s.r.trace, s.w.res.value)
               && s.r.trace[|s.r.trace| - 1].reason == NaturalExit
    case Err(SpawnFailed) => s.r.trace == [] && s.r.pc.RDone?
    case Err(WaitFailed) => s.w == WDone(None) && Body(c, s.r.trace)
    case Err(TimedOut) => s.w.WDone? && s.w.res.Some? && Full(c, s.r.trace, s.w.res.value)
                          && s.r.trace[|s.r.trace| - 1].reason == ExitReason.TimedOut
    case Err(Cancelled) => s.w.WDone? && s.w.res.Some? && Full(c, s.r.trace, s.w.res.value)
                           && s.r.trace[|s.r.trace| - 1].reason == CancelRequested
    case Err(_) => false
    case Panicked =>
      Body(c, s.r.trace) || (s.w.WDone? && s.w.res.Some? && Full(c, s.r.trace, s.w.res.value))
  }

  ghost predicate MachineInv(s: State) {
    && (s.r.pc.RSpawn? || s.r.pc.RRunning? ==> s.r.machine.Created?)
    && (OutcomeOf(s.r.pc).None? && !s.r.pc.RSpawn? && !s.r.pc.RRunning? ==>
          s.r.machine == if s.r.pc.RExited? then Machine.Exited else Machine.Running)
  }

  ghost predicate TraceInv(c: Config, s: State) {
    && (match OutcomeOf(s.r.pc)
        case Some(o) => Word(c, s, o)
        case None => if PhaseOf(s.r.pc).Beginning? then s.r.trace == [] else Body(c, s.r.trace))
    && (!c.capture ==>
          s.io.queue == [] && !s.io.out.DSend? && !s.io.err.DSend? && !s.r.pc.RPump?)
  }

  ghost predicate EventInv(c: Config, s: State) {
    MachineInv(s) && TraceInv(c, s)
  }

  lemma EventStep(c: Config, s: State, a: Action, s': State)
    requires GroupInv(c, s) && EventInv(c, s) && Step(c, s, a) == Some(s')
    ensures EventInv(c, s')
  {
    if a.Run? {
      RunEvents(c, s, a.flag, s');
    } else {
      OtherEvents(c, s, a, s');
    }
  }

  lemma OtherEvents(c: Config, s: State, a: Action, s': State)
    requires WaitInv(s) && EventInv(c, s) && Step(c, s, a) == Some(s') && !a.Run?
    ensures EventInv(c, s')
  {
    hide RunStep, Do, TreeAlive, EscStep, Body, Full;
  }

  lemma RunEvents(c: Config, s: State, flag: bool, s': State)
    requires GroupInv(c, s) && EventInv(c, s) && RunStep(c, s, flag) == Some(s')
    ensures EventInv(c, s')
  {
    match PhaseOf(s.r.pc)
    case Beginning =>
    case Wiring => WireEvents(c, s, flag, s');
    case Pumping => PumpEvents(c, s, flag, s');
    case Finishing => FinishEvents(c, s, flag, s');
    case Unwinding => UnwindEvents(c, s, flag, s');
  }

  lemma WireEvents(c: Config, s: State, flag: bool, s': State)
    requires EventInv(c, s) && WireStep(c, s, flag) == Some(s')
    ensures EventInv(c, s')
  {}

  lemma PumpEvents(c: Config, s: State, flag: bool, s': State)
    requires EventInv(c, s) && PumpStep(c, s, flag) == Some(s')
    ensures EventInv(c, s')
  {}

  lemma FinishEvents(c: Config, s: State, flag: bool, s': State)
    requires WaitInv(s) && EventInv(c, s) && FinishStep(c, s, flag) == Some(s')
    ensures EventInv(c, s')
  {
    if s.r.pc.RExited? {
      assert s'.r.trace[..|s'.r.trace| - 1] == s.r.trace;
    }
  }

  lemma UnwindEvents(c: Config, s: State, flag: bool, s': State)
    requires GuardInv(c, s) && EventInv(c, s) && UnwindStep(s, flag) == Some(s')
    ensures EventInv(c, s')
  {
    hide EscStep, Do, Body, Full;
  }
}
