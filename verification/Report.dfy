/** What the reported outcome says about the flags and the tree, and how many escalations
    a run can begin. */
module Report {
  import opened Kernel
  import opened Events
  import opened Escalation
  import opened Protocol
  import opened Lifecycle
  import opened Handshake

  // ----- the snapshot

  ghost predicate Reported(t: seq<Event>) {
    t != [] && t[|t| - 1].Exited?
  }

  ghost predicate ReasonTrue(s: State, reason: ExitReason) {
    match reason
    case TimedOut => s.m.late
    case CancelRequested => s.ch.fired
    case NaturalExit => !s.ch.fired
  }

  ghost predicate ReportInv(c: Config, s: State) {
    && (s.r.pc.RSnapFired? && s.r.pc.late ==> s.m.late)
    && (s.r.pc.RExiting? || s.r.pc.RExited? ==>
          (s.r.pc.late ==> s.m.late) && s.r.pc.fired == s.ch.fired)
    && (Reported(s.r.trace) ==>
          && ReasonTrue(s, s.r.trace[|s.r.trace| - 1].reason)
          && PhaseOf(s.r.pc).Unwinding? && (c.cancellable ==> s.ch.slot.Cleared?))
  }

  /** Once the slot is cleared no step changes `kill_fired`, and the slot stays cleared. */
  lemma Frozen(c: Config, s: State, a: Action, s': State)
    requires HandleInv(c, s) && Step(c, s, a) == Some(s') && s.ch.slot.Cleared?
    ensures s'.ch.slot.Cleared? && s'.ch.fired == s.ch.fired
  {
    hide EscStep, Do, TreeAlive;
  }

  lemma ReportStep(c: Config, s: State, a: Action, s': State)
    requires HandleInv(c, s) && ReportInv(c, s) && Step(c, s, a) == Some(s')
    ensures ReportInv(c, s')
  {
    hide EscStep, Do, TreeAlive;
    match a
    case Run(flag) => RunReport(c, s, flag, s');
    case Cancel(_, _) => CancelReport(c, s, a, s');
    case Watch(_) =>
    case Wait(_) =>
    case Copy(_, _, _) =>
    case Env(_) =>
  }

  lemma CancelReport(c: Config, s: State, a: Action, s': State)
    requires HandleInv(c, s) && ReportInv(c, s) && Step(c, s, a) == Some(s') && a.Cancel?
    ensures ReportInv(c, s')
  {
    hide EscStep, Do, TreeAlive;
    if s.ch.slot.Cleared? {
      Frozen(c, s, a, s');
    }
  }

  lemma RunReport(c: Config, s: State, flag: bool, s': State)
    requires HandleInv(c, s) && ReportInv(c, s) && RunStep(c, s, flag) == Some(s')
    ensures ReportInv(c, s')
  {
    hide EscStep, Do, TreeAlive, CallInv, WinnerInv;
    match PhaseOf(s.r.pc)
    case Finishing => FinishReport(c, s, flag, s');
    case Unwinding => UnwindReport(c, s, flag, s');
    case _ => EarlyReport(c, s, flag, s');
  }

  lemma UnwindReport(c: Config, s: State, flag: bool, s': State)
    requires ReportInv(c, s) && UnwindStep(s, flag) == Some(s')
    ensures ReportInv(c, s')
  {
    hide EscStep, Do, Reported;
  }

  lemma EarlyReport(c: Config, s: State, flag: bool, s': State)
    requires RunStep(c, s, flag) == Some(s') && !Reported(s.r.trace)
    requires PhaseOf(s.r.pc).Beginning? || PhaseOf(s.r.pc).Wiring? || PhaseOf(s.r.pc).Pumping?
    ensures !Reported(s'.r.trace)
    ensures !s'.r.pc.RSnapFired? && !s'.r.pc.RExiting? && !s'.r.pc.RExited?
  {
    hide EscStep, Do, TreeAlive;
  }

  lemma FinishReport(c: Config, s: State, flag: bool, s': State)
    requires SlotInv(c, s) && ReportInv(c, s) && FinishStep(c, s, flag) == Some(s')
    ensures ReportInv(c, s')
  {}

  // ----- dead is for ever

  ghost predicate SomeProbeSawDead(s: State) {
    s.h.sawDead || HowOf(Winner(s)) == Some(SawDead)
  }

  ghost predicate DeadInv(s: State) {
    && (s.h.sawDead ==> s.h.checked)
    && (SomeProbeSawDead(s) ==> s.k.Members() == {})
  }

  lemma DeadStep(c: Config, s: State, a: Action, s': State)
    requires GroupInv(c, s) && HandleInv(c, s) && DeadInv(s) && Step(c, s, a) == Some(s')
    ensures DeadInv(s')
  {
    GroupStep(c, s, a, s');
    if a.Cancel? {
      ProbeIsExact(s.k);
      CancelDead(c, s, a, s');
    } else if a.Run? {
      ProbeIsExact(s.k);
      RunDead(c, s, a.flag, s');
    } else {
      OtherDead(c, s, a, s');
    }
  }

  lemma OtherDead(c: Config, s: State, a: Action, s': State)
    requires DeadInv(s) && Step(c, s, a) == Some(s') && !a.Run? && !a.Cancel?
    requires Absorbing(s.k, s'.k)
    ensures DeadInv(s')
  {
    hide RunStep, CancelStep, EscStep, Do, TreeAlive;
  }

  lemma CancelDead(c: Config, s: State, a: Action, s': State)
    requires HandleInv(c, s) && DeadInv(s) && Step(c, s, a) == Some(s') && a.Cancel?
    requires s.r.pc.RSpawn? || Absorbing(s.k, s'.k)
    requires TreeAlive(s.k) <==> s.k.Members() != {}
    ensures DeadInv(s')
  {
    hide EscStep, Do, TreeAlive;
  }

  lemma RunDead(c: Config, s: State, flag: bool, s': State)
    requires HandleInv(c, s) && DeadInv(s) && RunStep(c, s, flag) == Some(s')
    requires s.r.pc.RSpawn? || Absorbing(s.k, s'.k)
    requires TreeAlive(s.k) <==> s.k.Members() != {}
    ensures DeadInv(s')
  {
    RunIsLocal(c, s, flag, s');
    RunSawDead(c, s, flag, s');
    if s.r.pc.RSpawn? {
      hide EscStep, Do, TreeAlive, CallInv, WireStep, PumpStep, FinishStep, UnwindStep;
    } else {
      hide RunStep, HandleInv;
    }
  }

  lemma RunSawDead(c: Config, s: State, flag: bool, s': State)
    requires RunStep(c, s, flag) == Some(s')
    ensures s.h.checked ==> s'.h.checked
    ensures s'.h.sawDead != s.h.sawDead ==> !TreeAlive(s.k) && s'.k == s.k && s'.h.checked
  {
    hide EscStep, Do, TreeAlive;
  }

  // ----- counting escalations

  function ByRunner(pc: Runner): nat {
    match PhaseOf(pc)
    case Beginning => 0
    case Wiring => if pc.REscalate? && !pc.esc.ETerm? then 1 else 0
    case _ => 1
  }

  function ByGuard(pc: Runner): nat {
    match pc
    case UEscalate(e, _) => if e.ETerm? then 0 else 1
    case UReap(_) => 1
    case RDone(o) => if Normal(o) then 0 else 1
    case _ => 0
  }

  function ByMonitor(pc: Monitor): nat {
    match pc
    case MEscalate(e) => if e.ETerm? then 0 else 1
    case MDone => 1
    case _ => 0
  }

  function ByWinner(pc: Option<Canceller>): nat {
    match pc
    case Some(CEscalate(e)) => if e.ETerm? then 0 else 1
    case Some(CUnlock(_)) => 1
    case Some(CDone(_)) => 1
    case _ => 0
  }

  ghost predicate ArmedInv(s: State) {
    && (PhaseOf(s.r.pc).Finishing? && !s.r.pc.RDisarm? ==> !s.r.armed)
    && (OutcomeOf(s.r.pc).Some? && Normal(OutcomeOf(s.r.pc).value) ==>
          !s.r.armed && !s.r.pc.UEscalate? && !s.r.pc.UReap?)
  }

  ghost predicate CountInv(s: State) {
    && ArmedInv(s)
    && s.h.escalations
       <= ByRunner(s.r.pc) + ByGuard(s.r.pc) + ByMonitor(s.m.pc) + ByWinner(Winner(s))
  }

  lemma CountStep(c: Config, s: State, a: Action, s': State)
    requires WaitInv(s) && CallInv(s) && CountInv(s) && Step(c, s, a) == Some(s')
    ensures CountInv(s')
  {
    match a
    case Run(flag) => RunCount(c, s, flag, s');
    case Cancel(id, flag) => CancelCount(c, s, id, flag, s');
    case _ => OtherCount(c, s, a, s');
  }

  lemma OtherCount(c: Config, s: State, a: Action, s': State)
    requires CountInv(s) && Step(c, s, a) == Some(s') && !a.Run? && !a.Cancel?
    ensures CountInv(s')
  {
    hide RunStep, CancelStep, Do, TreeAlive, SignalGroup;
  }

  lemma CancelCount(c: Config, s: State, id: nat, flag: bool, s': State)
    requires CallInv(s) && CountInv(s) && CancelStep(c, s, id, flag) == Some(s')
    ensures CountInv(s')
  {
    hide Do, TreeAlive, SignalGroup;
  }

  lemma RunArmed(c: Config, s: State, flag: bool, s': State)
    requires ArmedInv(s) && RunStep(c, s, flag) == Some(s')
    ensures ArmedInv(s')
  {
    hide EscStep, Do, TreeAlive;
  }

  /** What the runner itself adds to the count. */
  ghost predicate Adds(s: State, s': State) {
    && s'.h.escalations - s.h.escalations
       <= ByRunner(s'.r.pc) + ByGuard(s'.r.pc) - ByRunner(s.r.pc) - ByGuard(s.r.pc)
    && (s'.m.pc == s.m.pc || s.r.pc.RMonitor?)
  }

  lemma RunAdds(c: Config, s: State, flag: bool, s': State)
    requires ArmedInv(s) && RunStep(c, s, flag) == Some(s')
    ensures Adds(s, s')
  {
    match PhaseOf(s.r.pc)
    case Wiring => WireAdds(c, s, flag, s');
    case Unwinding => UnwindAdds(s, flag, s');
    case _ => hide EscStep, Do, TreeAlive;
  }

  lemma WireAdds(c: Config, s: State, flag: bool, s': State)
    requires WireStep(c, s, flag) == Some(s')
    ensures Adds(s, s')
  {
    hide Do, TreeAlive, SignalGroup;
  }

  lemma UnwindAdds(s: State, flag: bool, s': State)
    requires ArmedInv(s) && UnwindStep(s, flag) == Some(s')
    ensures Adds(s, s')
  {
    hide Do, TreeAlive, SignalGroup;
  }

  lemma RunCount(c: Config, s: State, flag: bool, s': State)
    requires CountInv(s) && RunStep(c, s, flag) == Some(s')
    requires s.r.pc.RMonitor? ==> s.m.pc.MNone?
    ensures CountInv(s')
  {
    RunArmed(c, s, flag, s');
    RunAdds(c, s, flag, s');
    RunIsLocal(c, s, flag, s');
    hide RunStep, Winner, ByWinner, ByGuard, ByRunner;
  }
}
