/** What the library promises about cancellation, for every interleaving. `acts` from `Init` is a
    whole run; `more` from a state of a run is any continuation of it. */
module CancelTheorems {
  import opened Kernel
  import opened Events
  import opened Escalation
  import opened Protocol
  import opened Lifecycle
  import opened Handshake
  import opened Report
  import opened Progress
  import opened Runs

  // ----- cancellation

  /** Once the check after wiring is passed and the winning `cancel()` has returned, it has
      fired, or a probe saw a tree that is dead now, or it came after the slot was cleared. */
  lemma NoCancelIsLost(c: Config, acts: seq<Action>, s: State, id: nat)
    requires IsRun(c, acts, s) && s.h.checked
    requires id in s.ch.calls && s.ch.calls[id].CDone? && s.ch.calls[id].how != Lost
    ensures || s.ch.fired
            || (SomeProbeSawDead(s) && s.k.Members() == {})
            || (s.ch.calls[id].how == SawNone(Cleared) && s.ch.slot.Cleared?)
  {
    InvRun(c, acts, s);
    hide GroupInv, EventInv, ReportInv, CaptureInv, EscInv, CountInv;
  }

  /** A run that reports a natural exit was not being killed by anyone: each cancel that has
      returned found the tree dead or came after the slot was cleared. */
  lemma NaturalExitIgnoresNoCancel(c: Config, acts: seq<Action>, s: State, id: nat)
    requires IsRun(c, acts, s) && s.r.pc == RDone(Ok)
    requires id in s.ch.calls && s.ch.calls[id].CDone? && s.ch.calls[id].how != Lost
    ensures !s.ch.fired
    ensures SomeProbeSawDead(s) || s.ch.calls[id].how == SawNone(Cleared)
  {
    InvRun(c, acts, s);
    hide GroupInv, CaptureInv, EscInv, CountInv;
  }

  /** Unboundedly many callers, at most one acts: two calls that did not lose the swap are
      the same call. */
  lemma AtMostOneCallerActs(c: Config, acts: seq<Action>, s: State, id1: nat, id2: nat)
    requires IsRun(c, acts, s) && id1 in s.ch.calls && id2 in s.ch.calls
    requires s.ch.calls[id1] != CDone(Lost) && s.ch.calls[id2] != CDone(Lost)
    ensures id1 == id2
    ensures s.ch.lock.Some? ==> s.ch.lock == Some(id1)
  {
    InvRun(c, acts, s);
    hide GroupInv, EventInv, ReportInv, DeadInv, CaptureInv, EscInv, CountInv, SlotInv, WinnerInv;
  }

  /** A run begins at most four escalations, and at most three when it returns normally. */
  lemma FewEscalations(c: Config, acts: seq<Action>, s: State)
    requires IsRun(c, acts, s)
    ensures s.h.escalations <= 4
    ensures s.r.pc.RDone? && Normal(s.r.pc.outcome) ==> s.h.escalations <= 3
  {
    InvRun(c, acts, s);
    hide GroupInv, EventInv, ReportInv, DeadInv, CaptureInv, EscInv, HandleInv;
  }

  /** The grace an escalation has: five seconds, in at most 201 probes, for a cancel, the check after
      wiring and a timeout; none, in a single probe, for the drop guard. */
  ghost predicate GraceOf(e: Esc, grace: nat, probes: nat) {
    (e.ETerm? ==> e.grace == grace) && (e.EPoll? ==> e.left <= probes)
  }

  ghost predicate GraceInv(s: State) {
    && (forall id | id in s.ch.calls && s.ch.calls[id].CEscalate? ::
          GraceOf(s.ch.calls[id].esc, 5_000_000_000, 201))
    && (s.r.pc.REscalate? ==> GraceOf(s.r.pc.esc, 5_000_000_000, 201))
    && (s.m.pc.MEscalate? ==> GraceOf(s.m.pc.esc, 5_000_000_000, 201))
    && (s.r.pc.UEscalate? ==> GraceOf(s.r.pc.esc, 0, 1))
  }

  lemma GraceEsc(g: Group, e: Esc, late: bool, grace: nat, probes: nat)
    requires !e.EDone? && GraceOf(e, grace, probes) && MaxProbes(grace) <= probes
    ensures GraceOf(EscStep(g, e, late).1, grace, probes)
  {
    hide SignalGroup, TreeAlive, MaxProbes;
  }

  lemma GraceStep(c: Config, s: State, a: Action, s': State)
    requires GraceInv(s) && Step(c, s, a) == Some(s')
    ensures GraceInv(s')
  {
    match a
    case Run(flag) =>
      RunGrace(c, s, flag, s');
      hide RunStep;
    case Cancel(id, flag) =>
      if id in s.ch.calls && s.ch.calls[id].CEscalate? && !s.ch.calls[id].esc.EDone? {
        GraceEsc(s.k, s.ch.calls[id].esc, flag, 5_000_000_000, 201);
      }
      hide EscStep, TreeAlive, GraceOf;
      assert GraceOf(ETerm(KILL_GRACE), 5_000_000_000, 201) by { BeginsWithGrace(); }
    case Watch(flag) =>
      if s.m.pc.MEscalate? && !s.m.pc.esc.EDone? {
        GraceEsc(s.k, s.m.pc.esc, flag, 5_000_000_000, 201);
      }
      hide EscStep, TreeAlive;
    case _ => hide EscStep, Do, TreeAlive, RunStep;
  }

  lemma BeginsWithGrace()
    ensures GraceOf(ETerm(KILL_GRACE), 5_000_000_000, 201)
  {}

  lemma RunGrace(c: Config, s: State, flag: bool, s': State)
    requires GraceInv(s) && RunStep(c, s, flag) == Some(s')
    ensures GraceInv(s')
  {
    if s.r.pc.REscalate? && !s.r.pc.esc.EDone? {
      GraceEsc(s.k, s.r.pc.esc, flag, 5_000_000_000, 201);
    }
    if s.r.pc.UEscalate? && !s.r.pc.esc.EDone? {
      GraceEsc(s.k, s.r.pc.esc, flag, 0, 1);
    }
    RunGracePc(c, s, flag, s');
    RunIsLocal(c, s, flag, s');
    hide RunStep, GraceOf;
  }

  lemma RunGracePc(c: Config, s: State, flag: bool, s': State)
    requires RunStep(c, s, flag) == Some(s')
    requires s.r.pc.REscalate? && !s.r.pc.esc.EDone? ==>
               GraceOf(EscStep(s.k, s.r.pc.esc, flag).1, 5_000_000_000, 201)
    requires s.r.pc.UEscalate? && !s.r.pc.esc.EDone? ==> GraceOf(EscStep(s.k, s.r.pc.esc, flag).1, 0, 1)
    ensures s'.r.pc.REscalate? ==> GraceOf(s'.r.pc.esc, 5_000_000_000, 201)
    ensures s'.r.pc.UEscalate? ==> GraceOf(s'.r.pc.esc, 0, 1)
    ensures s'.m.pc.MEscalate? ==> s'.m.pc == s.m.pc
  {
    match PhaseOf(s.r.pc)
    case Unwinding =>
      UnwindGracePc(s, flag, s');
      hide RunStep, GraceOf;
    case Wiring =>
      WireGracePc(c, s, flag, s');
      hide RunStep, GraceOf;
    case _ => hide EscStep, TreeAlive, GraceOf, WireStep, UnwindStep;
  }

  lemma WireGracePc(c: Config, s: State, flag: bool, s': State)
    requires WireStep(c, s, flag) == Some(s')
    requires s.r.pc.REscalate? && !s.r.pc.esc.EDone? ==>
               GraceOf(EscStep(s.k, s.r.pc.esc, flag).1, 5_000_000_000, 201)
    ensures s'.r.pc.REscalate? ==> GraceOf(s'.r.pc.esc, 5_000_000_000, 201)
    ensures !s'.r.pc.UEscalate? && s'.m.pc == s.m.pc
  {
    hide EscStep, TreeAlive;
  }

  lemma UnwindGracePc(s: State, flag: bool, s': State)
    requires UnwindStep(s, flag) == Some(s')
    requires s.r.pc.UEscalate? && !s.r.pc.esc.EDone? ==> GraceOf(EscStep(s.k, s.r.pc.esc, flag).1, 0, 1)
    ensures s'.r.pc.UEscalate? ==> GraceOf(s'.r.pc.esc, 0, 1)
    ensures !s'.r.pc.REscalate? && s'.m.pc == s.m.pc
  {
    hide EscStep, Do;
  }

  lemma {:induction false} GraceExec(c: Config, s: State, acts: seq<Action>, t: State)
    requires GraceInv(s) && Exec(c, s, acts) == Some(t)
    ensures GraceInv(t)
    decreases |acts|
  {
    hide Step, GraceInv;
    if acts == [] {
    } else {
      var s1 := Step(c, s, acts[0]).value;
      GraceStep(c, s, acts[0], s1);
      GraceExec(c, s1, acts[1..], t);
    }
  }

  lemma GraceIsKept(c: Config, acts: seq<Action>, s: State)
    requires IsRun(c, acts, s)
    ensures GraceInv(s)
  {
    GraceExec(c, Init(c), acts, s);
  }

  /** A caller that found no kill handle and still holds the mutex: the slot is as it saw it. */
  ghost predicate HolderInv(s: State) {
    Winner(s).Some? && Winner(s).value.CUnlock? && Winner(s).value.how.SawNone? ==>
      s.ch.slot == Winner(s).value.how.slot
  }

  lemma HolderStep(c: Config, s: State, a: Action, s': State)
    requires CallInv(s) && HolderInv(s) && Step(c, s, a) == Some(s')
    ensures HolderInv(s')
    ensures s'.ch.slot != s.ch.slot ==> s.ch.lock.None? && s'.ch.lock.None?
  {
    match a
    case Run(flag) =>
      RunIsLocal(c, s, flag, s');
      RunChangesUnlocked(c, s, flag, s');
      hide RunStep;
    case Cancel(_, _) => hide EscStep, TreeAlive, RunStep;
    case _ => hide EscStep, Do, TreeAlive, RunStep, CallInv;
  }

  lemma RunChangesUnlocked(c: Config, s: State, flag: bool, s': State)
    requires RunStep(c, s, flag) == Some(s')
    ensures s'.ch.slot != s.ch.slot ==> s.ch.lock.None?
  {
    hide EscStep, Do, TreeAlive;
  }

  lemma {:induction false} HolderExec(c: Config, s: State, acts: seq<Action>, t: State)
    requires Inv(c, s) && HolderInv(s) && Exec(c, s, acts) == Some(t)
    ensures HolderInv(t)
    decreases |acts|
  {
    hide Step, Inv, HolderInv, HandleInv, GroupInv, EventInv, ReportInv, DeadInv, CaptureInv, EscInv,
      CountInv;
    if acts == [] {
    } else {
      var s1 := Step(c, s, acts[0]).value;
      InvHasCalls(c, s);
      HolderStep(c, s, acts[0], s1);
      InvStep(c, s, acts[0], s1);
      HolderExec(c, s1, acts[1..], t);
    }
  }

  lemma InvHasCalls(c: Config, s: State)
    requires Inv(c, s)
    ensures CallInv(s)
  {
    hide GroupInv, EventInv, ReportInv, DeadInv, CaptureInv, EscInv, CountInv, CallInv, SlotInv, WinnerInv;
  }

  /** The mutex guards the slot: nobody writes it while a caller holds the mutex, so what the caller
      saw in it is still there when it lets go. */
  lemma MutexGuardsTheSlot(c: Config, acts: seq<Action>, s: State, a: Action, s': State)
    requires IsRun(c, acts, s) && Step(c, s, a) == Some(s')
    ensures s'.ch.slot != s.ch.slot ==> s.ch.lock.None? && s'.ch.lock.None?
    ensures forall id | id in s.ch.calls && s.ch.calls[id].CUnlock? && s.ch.calls[id].how.SawNone? ::
              s.ch.lock == Some(id) && s.ch.slot == s.ch.calls[id].how.slot
  {
    InvInit(c);
    HolderExec(c, Init(c), acts, s);
    InvRun(c, acts, s);
    InvHasCalls(c, s);
    HolderStep(c, s, a, s');
    hide Inv, Exec, Step;
  }

  /** The handle is wired, a call of `cancel()` has fired, and the runner is not killing. */
  ghost predicate LeftToCaller(s: State) {
    && s.ch.fired && !PhaseOf(s.r.pc).Beginning? && !s.r.pc.RWire?
    && !s.r.pc.RProbe? && !s.r.pc.RStoreFired? && !s.r.pc.REscalate?
  }

  lemma LeftStep(c: Config, s: State, a: Action, s': State)
    requires LeftToCaller(s) && Step(c, s, a) == Some(s')
    ensures LeftToCaller(s')
  {
    if a.Run? {
      RunLeft(c, s, a.flag, s');
    } else {
      hide EscStep, Do, TreeAlive, RunStep;
    }
  }

  lemma RunLeft(c: Config, s: State, flag: bool, s': State)
    requires LeftToCaller(s) && RunStep(c, s, flag) == Some(s')
    ensures LeftToCaller(s')
  {
    match PhaseOf(s.r.pc)
    case Unwinding =>
      UnwindLeft(s, flag, s');
      hide RunStep;
    case _ => hide EscStep, Do, TreeAlive, UnwindStep;
  }

  lemma UnwindLeft(s: State, flag: bool, s': State)
    requires UnwindStep(s, flag) == Some(s')
    ensures PhaseOf(s'.r.pc).Unwinding? && s'.ch == s.ch
  {
    hide EscStep, Do;
  }

  /** Where a call of `cancel()` has fired before the check after wiring loads `kill_fired`, the kill
      is left to it: the runner never begins one of its own. */
  lemma {:induction false} FiredCancelSparesRunner(c: Config, s: State, more: seq<Action>, t: State)
    requires LeftToCaller(s) && Exec(c, s, more) == Some(t)
    ensures LeftToCaller(t)
    decreases |more|
  {
    hide Step, LeftToCaller;
    if more == [] {
    } else {
      var s1 := Step(c, s, more[0]).value;
      LeftStep(c, s, more[0], s1);
      FiredCancelSparesRunner(c, s1, more[1..], t);
    }
  }

  /** The flags only go from false to true, the slot only forward, events only accumulate. */
  ghost predicate Later(s: State, t: State) {
    && (s.ch.cancelled ==> t.ch.cancelled)
    && (s.ch.fired ==> t.ch.fired)
    && (s.m.late ==> t.m.late)
    && (t.ch.slot.Unwired? ==> s.ch.slot.Unwired?)
    && (s.ch.slot.Cleared? ==> t.ch.slot.Cleared? && t.ch.fired == s.ch.fired)
    && s.r.trace <= t.r.trace
  }

  lemma LaterStep(c: Config, s: State, a: Action, s': State)
    requires HandleInv(c, s) && Step(c, s, a) == Some(s')
    ensures Later(s, s')
  {
    if s.ch.slot.Cleared? {
      Frozen(c, s, a, s');
    }
    TraceGrows(c, s, a, s');
    if a.Run? {
      RunLater(c, s, a.flag, s');
    } else {
      hide EscStep, Do, TreeAlive, HandleInv, RunStep;
    }
  }

  lemma RunLater(c: Config, s: State, flag: bool, s': State)
    requires RunStep(c, s, flag) == Some(s')
    ensures s'.m.late == s.m.late && s'.ch.cancelled == s.ch.cancelled
    ensures s.ch.fired ==> s'.ch.fired
    ensures s'.ch.slot == s.ch.slot || !s'.ch.slot.Unwired?
  {
    hide EscStep, Do, TreeAlive;
  }

  lemma TraceGrows(c: Config, s: State, a: Action, s': State)
    requires Step(c, s, a) == Some(s')
    ensures s.r.trace <= s'.r.trace
  {
    hide EscStep, Do, TreeAlive;
  }

  /** In particular `kill_fired` is frozen once the slot is cleared. */
  lemma {:induction false} FlagsAreMonotone(c: Config, s: State, more: seq<Action>, t: State)
    requires Inv(c, s) && Exec(c, s, more) == Some(t)
    ensures Later(s, t)
    decreases |more|
  {
    hide Step, Later;
    if more == [] {
      LaterSelf(s);
    } else {
      var s1 := Step(c, s, more[0]).value;
      LaterStep(c, s, more[0], s1);
      InvStep(c, s, more[0], s1);
      FlagsAreMonotone(c, s1, more[1..], t);
      LaterTrans(s, s1, t);
    }
  }

  lemma LaterSelf(s: State)
    ensures Later(s, s)
  {}

  lemma LaterTrans(s: State, t: State, u: State)
    requires Later(s, t) && Later(t, u)
    ensures Later(s, u)
  {}

  /** For runs: `cancelled`, `kill_fired` and `timed_out` only go from false to true, and after
      the slot is cleared `kill_fired` does not change at all. */
  lemma KillFiredIsFrozen(c: Config, acts: seq<Action>, s: State, more: seq<Action>, t: State)
    requires IsRun(c, acts, s) && Exec(c, s, more) == Some(t)
    ensures Later(s, t)
    ensures s.ch.slot.Cleared? ==> t.ch.fired == s.ch.fired
  {
    InvRun(c, acts, s);
    FlagsAreMonotone(c, s, more, t);
    hide Inv, Exec, IsRun;
  }
}
