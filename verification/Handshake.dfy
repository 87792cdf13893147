/** The handshake between the runner and the callers of `cancel()`: no cancel is lost, at
    most one caller acts, and the reported outcome is one frozen snapshot. */
module Handshake {
  import opened Kernel
  import opened Events
  import opened Escalation
  import opened Protocol
  import opened Lifecycle

  predicate InCritical(pc: Canceller) {
    pc.CLook? || pc.CProbe? || pc.CStore? || pc.CEscalate? || pc.CUnlock?
  }

  /** The program counter of the call that won the swap. */
  function Winner(s: State): Option<Canceller> {
    match s.h.winner
    case Some(id) => if id in s.ch.calls then Some(s.ch.calls[id]) else None
    case None => None
  }

  function HowOf(pc: Option<Canceller>): Option<How> {
    match pc
    case Some(CUnlock(how)) => Some(how)
    case Some(CDone(how)) => Some(how)
    case _ => None
  }

  /** The losers have returned; the mutex is held exactly by a winner in its critical section. */
  ghost predicate CallInv(s: State) {
    && (s.h.winner.Some? <==> s.ch.cancelled)
    && (s.h.winner.Some? ==> Winner(s).Some? && HowOf(Winner(s)) != Some(Lost))
    && (forall id | id in s.ch.calls && s.h.winner != Some(id) :: s.ch.calls[id] == CDone(Lost))
    && s.ch.lock == (if Winner(s).Some? && InCritical(Winner(s).value) then s.h.winner else None)
    && (s.ch.fired ==> s.ch.cancelled)
  }

  predicate Normal(o: Outcome) {
    o == Ok || o == Err(AerError.TimedOut) || o == Err(Cancelled)
  }

  /** Where the slot stands at each point of the runner. */
  ghost predicate SlotInv(c: Config, s: State) {
    if !c.cancellable then
      && s.ch == Handle(false, false, Unwired, None, map[]) && !s.h.checked
      && !PhaseOf(s.r.pc).Wiring? && !s.r.pc.RClear?
    else
      match PhaseOf(s.r.pc)
      case Beginning => s.ch.slot.Unwired? && !s.h.checked
      case Wiring => !s.h.checked && s.ch.slot == if s.r.pc.RWire? then Unwired else Wired
      case Pumping => s.ch.slot.Wired? && s.h.checked
      case Finishing =>
        s.h.checked && s.ch.slot == if s.r.pc.RDisarm? || s.r.pc.RClear? then Wired else Cleared
      case Unwinding =>
        && (s.h.checked <==> !s.ch.slot.Unwired?)
        && (Normal(OutcomeOf(s.r.pc).value) ==> s.ch.slot.Cleared?)
  }

  /** What the winner knows. */
  ghost predicate WinnerInv(s: State) {
    && (s.r.pc.REscalate? || s.r.pc.RStoreFired? || s.r.pc.RProbe? || s.r.pc.RLoadFired? ==>
          s.ch.cancelled)
    && (s.r.pc.REscalate? ==> s.ch.fired)
    && match Winner(s)
       case None => true
       case Some(CProbe) => s.ch.slot.Wired?
       case Some(CStore) => s.ch.slot.Wired?
       case Some(CEscalate(_)) => s.ch.slot.Wired? && s.ch.fired
       case Some(CUnlock(how)) => HowInv(s, how)
       case Some(CDone(how)) => HowInv(s, how)
       case Some(_) => true
  }

  ghost predicate HowInv(s: State, how: How) {
    match how
    case Lost => true
    case SawNone(Unwired) => s.h.checked ==> s.ch.fired || s.h.sawDead
    case SawNone(Wired) => false
    case SawNone(Cleared) => s.ch.slot.Cleared?
    case SawDead => !s.ch.slot.Unwired?
    case Fired => s.ch.fired
  }

  ghost predicate HandleInv(c: Config, s: State) {
    CallInv(s) && SlotInv(c, s) && WinnerInv(s)
  }

  lemma HandleStep(c: Config, s: State, a: Action, s': State)
    requires HandleInv(c, s) && Step(c, s, a) == Some(s')
    ensures HandleInv(c, s')
  {
    match a
    case Run(flag) => RunHandle(c, s, flag, s');
    case Cancel(id, flag) => CancelHandle(c, s, id, flag, s');
    case _ => OtherHandle(c, s, a, s');
  }

  lemma OtherHandle(c: Config, s: State, a: Action, s': State)
    requires HandleInv(c, s) && Step(c, s, a) == Some(s') && !a.Run? && !a.Cancel?
    ensures HandleInv(c, s')
  {
    hide RunStep, CancelStep, Do, TreeAlive, EscStep, CallInv;
    KeepWinnerElse(s, s');
  }

  lemma KeepWinnerElse(s: State, s': State)
    requires CallInv(s) && WinnerInv(s) && s'.ch == s.ch && s'.r == s.r
    requires s'.h == s.h.(escalations := s'.h.escalations)
    ensures CallInv(s') && WinnerInv(s')
  {}

  lemma CancelHandle(c: Config, s: State, id: nat, flag: bool, s': State)
    requires HandleInv(c, s) && CancelStep(c, s, id, flag) == Some(s')
    ensures HandleInv(c, s')
  {
    CancelKeepsSlot(c, s, id, flag, s');
    hide EscStep, Do, TreeAlive, SlotInv;
  }

  lemma CancelKeepsSlot(c: Config, s: State, id: nat, flag: bool, s': State)
    requires SlotInv(c, s) && CancelStep(c, s, id, flag) == Some(s')
    ensures SlotInv(c, s')
  {
    assert s'.r == s.r && s'.ch.slot == s.ch.slot && s'.h.checked == s.h.checked by {
      hide EscStep, TreeAlive, SlotInv;
    }
    hide CancelStep;
  }

  /** A runner step outside the wiring leaves the winner's knowledge true. */
  lemma KeepWinner(s: State, s': State)
    requires CallInv(s) && WinnerInv(s)
    requires s'.ch == s.ch.(slot := s'.ch.slot)
    requires s'.ch.slot == s.ch.slot || (s'.ch.slot.Cleared? && s.ch.lock.None? && s.h.checked)
    requires s'.h == s.h.(escalations := s'.h.escalations) && !PhaseOf(s'.r.pc).Wiring?
    ensures CallInv(s') && WinnerInv(s')
  {}

  lemma RunHandle(c: Config, s: State, flag: bool, s': State)
    requires HandleInv(c, s) && RunStep(c, s, flag) == Some(s')
    ensures HandleInv(c, s')
  {
    match PhaseOf(s.r.pc)
    case Beginning => BeginHandle(c, s, flag, s');
    case Wiring => WireHandle(c, s, flag, s');
    case Pumping => PumpHandle(c, s, flag, s');
    case Finishing => FinishHandle(c, s, flag, s');
    case Unwinding => UnwindHandle(c, s, flag, s');
  }

  lemma BeginHandle(c: Config, s: State, flag: bool, s': State)
    requires HandleInv(c, s) && BeginStep(c, s, flag) == Some(s')
    ensures HandleInv(c, s')
  {
    hide EscStep, Do, TreeAlive;
  }

  lemma WireHandle(c: Config, s: State, flag: bool, s': State)
    requires HandleInv(c, s) && WireStep(c, s, flag) == Some(s')
    ensures HandleInv(c, s')
  {
    hide EscStep, Do, TreeAlive;
  }

  /** The runner never touches the calls, the mutex's holder or `timed_out`. */
  ghost predicate Local(s: State, s': State) {
    && s'.ch.calls == s.ch.calls && s'.ch.lock == s.ch.lock && s'.ch.cancelled == s.ch.cancelled
    && s'.h.winner == s.h.winner && s'.m.late == s.m.late
  }

  lemma RunIsLocal(c: Config, s: State, flag: bool, s': State)
    requires RunStep(c, s, flag) == Some(s')
    ensures Local(s, s') && Winner(s') == Winner(s)
  {
    assert Local(s, s') by {
      match PhaseOf(s.r.pc)
      case Beginning =>
      case Wiring => WireIsLocal(c, s, flag, s');
      case Pumping => PumpIsLocal(c, s, flag, s');
      case Finishing => FinishIsLocal(c, s, flag, s');
      case Unwinding => UnwindIsLocal(s, flag, s');
    }
    hide RunStep;
  }

  lemma WireIsLocal(c: Config, s: State, flag: bool, s': State)
    requires WireStep(c, s, flag) == Some(s')
    ensures Local(s, s')
  {
    hide EscStep, TreeAlive;
  }

  lemma PumpIsLocal(c: Config, s: State, flag: bool, s': State)
    requires PumpStep(c, s, flag) == Some(s')
    ensures Local(s, s')
  {}

  lemma FinishIsLocal(c: Config, s: State, flag: bool, s': State)
    requires FinishStep(c, s, flag) == Some(s')
    ensures Local(s, s')
  {}

  lemma UnwindIsLocal(s: State, flag: bool, s': State)
    requires UnwindStep(s, flag) == Some(s')
    ensures Local(s, s')
  {
    hide EscStep, Do;
  }

  lemma PumpHandle(c: Config, s: State, flag: bool, s': State)
    requires HandleInv(c, s) && PumpStep(c, s, flag) == Some(s')
    ensures HandleInv(c, s')
  {
    hide EscStep, Do, TreeAlive, CallInv, WinnerInv;
    KeepWinner(s, s');
  }

  lemma FinishHandle(c: Config, s: State, flag: bool, s': State)
    requires HandleInv(c, s) && FinishStep(c, s, flag) == Some(s')
    ensures HandleInv(c, s')
  {
    FinishSlot(c, s, flag, s');
    FinishIsLocal(c, s, flag, s');
    hide CallInv, WinnerInv, SlotInv, FinishStep;
    KeepWinner(s, s');
  }

  lemma FinishSlot(c: Config, s: State, flag: bool, s': State)
    requires SlotInv(c, s) && FinishStep(c, s, flag) == Some(s')
    ensures SlotInv(c, s')
    ensures s'.ch == s.ch.(slot := s'.ch.slot) && s'.h == s.h && !PhaseOf(s'.r.pc).Wiring?
    ensures s'.ch.slot == s.ch.slot || (s'.ch.slot.Cleared? && s.ch.lock.None? && s.h.checked)
  {
    hide Code, Reason;
  }

  lemma UnwindHandle(c: Config, s: State, flag: bool, s': State)
    requires HandleInv(c, s) && UnwindStep(s, flag) == Some(s')
    ensures HandleInv(c, s')
  {
    hide EscStep, Do, TreeAlive, CallInv, WinnerInv;
    KeepWinner(s, s');
  }
}
