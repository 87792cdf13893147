/** What the library promises about the end of a run: who is left, when `run_impl` returns,
    what it reports and why. */
module RunTheorems {
  import opened Kernel
  import opened Events
  import opened Escalation
  import opened Protocol
  import opened Lifecycle
  import opened Handshake
  import opened Report
  import opened Progress
  import opened Runs

  // ----- who is left

  /** On every way out of `run_impl` - return, error, or a panic in the Started, a chunk or the
      Exited callback - no group member is live and the root is reaped; and it stays so. */
  lemma NoSurvivors(c: Config, acts: seq<Action>, s: State)
    requires IsRun(c, acts, s) && s.r.pc.RDone?
    ensures s.k.live == {} && s.k.root !in s.k.zombies
  {
    InvRun(c, acts, s);
    hide EventInv, HandleInv, ReportInv, DeadInv, CaptureInv, EscInv, CountInv, WaitInv, KillInv;
  }

  lemma {:induction false} GroupAbsorbs(c: Config, s: State, more: seq<Action>, t: State)
    requires Inv(c, s) && Exec(c, s, more) == Some(t) && !s.r.pc.RSpawn?
    ensures Absorbing(s.k, t.k) && !t.r.pc.RSpawn?
    decreases |more|
  {
    hide Step, Inv, Absorbing;
    if more == [] {
      AbsorbingSelf(s.k);
    } else {
      var s1 := Step(c, s, more[0]).value;
      assert GroupInv(c, s) by { InvHasGroup(c, s); }
      GroupStep(c, s, more[0], s1);
      NeverBackToSpawn(c, s, more[0], s1);
      InvStep(c, s, more[0], s1);
      GroupAbsorbs(c, s1, more[1..], t);
      AbsorbingTrans(s.k, s1.k, t.k);
    }
  }

  lemma InvHasGroup(c: Config, s: State)
    requires Inv(c, s)
    ensures GroupInv(c, s)
  {
    hide GroupInv, EventInv, HandleInv, ReportInv, DeadInv, CaptureInv, EscInv, CountInv;
  }

  lemma AbsorbingSelf(g: Group)
    ensures Absorbing(g, g)
  {}

  lemma AbsorbingTrans(g: Group, h: Group, i: Group)
    requires Absorbing(g, h) && Absorbing(h, i)
    ensures Absorbing(g, i)
  {}

  // ----- when run_impl returns

  /** The moves in `acts` that are not late calls of `cancel()`. */
  function Moves(c: Config, s: State, acts: seq<Action>): nat
    requires Exec(c, s, acts).Some?
    decreases |acts|
  {
    if acts == [] then 0
    else
      (if LateCall(s, acts[0]) then 0 else 1) + Moves(c, Step(c, s, acts[0]).value, acts[1..])
  }

  /** Once nobody is live, any schedule makes at most `Remaining(s)` moves, of whatever thread,
      before it can make no more. */
  lemma {:induction false} FewMovesAreLeft(c: Config, s: State, more: seq<Action>, t: State)
    requires Inv(c, s) && Exec(c, s, more) == Some(t) && s.k.live == {} && !s.r.pc.RSpawn?
    ensures Moves(c, s, more) + Remaining(t) <= Remaining(s)
    decreases |more|
  {
    hide Step, Inv, Remaining, LateCall;
    if more == [] {
    } else {
      var s1 := Step(c, s, more[0]).value;
      InvGivesProgress(c, s);
      Descends(c, s, more[0], s1);
      InvStep(c, s, more[0], s1);
      FewMovesAreLeft(c, s1, more[1..], t);
    }
  }

  lemma InvGivesProgress(c: Config, s: State)
    requires Inv(c, s)
    ensures GroupInv(c, s) && HandleInv(c, s) && EscInv(s)
  {
    hide GroupInv, EventInv, HandleInv, ReportInv, DeadInv, CaptureInv, EscInv, CountInv;
  }

  /** ... and it cannot stop before `run_impl` has returned: in every other state some thread
      of the library can move without a fault, a panic, a deadline or a move of the group. So
      letting those threads move leads to the return. */
  lemma {:induction false} ReturnsOnceDead(c: Config, s: State) returns (more: seq<Action>, t: State)
    requires Inv(c, s) && s.k.live == {} && !s.r.pc.RSpawn?
    ensures Exec(c, s, more) == Some(t) && t.r.pc.RDone?
    ensures |more| <= Remaining(s)
    ensures forall a | a in more :: !a.Env?
    decreases Remaining(s)
  {
    hide Step, Inv, Remaining, LateCall, Mover;
    if s.r.pc.RDone? {
      return [], s;
    }
    var a := Mover(s);
    InvGivesProgress(c, s);
    SomeThreadMoves(c, s);
    var s1 := Step(c, s, a).value;
    Descends(c, s, a, s1);
    InvStep(c, s, a, s1);
    var rest, u := ReturnsOnceDead(c, s1);
    assert ([a] + rest)[1..] == rest;
    more, t := [a] + rest, u;
  }

  /** From wait's group SIGKILL on, and already from the moment the group is dead for any other
      reason, every run returns: any schedule has at most `Remaining(s)` moves left, and the
      library's own threads can always make the next one. */
  lemma RunReturnsOnceDead(c: Config, acts: seq<Action>, s: State)
    returns (more: seq<Action>, t: State)
    requires IsRun(c, acts, s) && s.k.live == {} && !s.r.pc.RSpawn?
    ensures Exec(c, s, more) == Some(t) && t.r.pc.RDone?
    ensures forall a | a in more :: !a.Env?
    ensures forall other | Exec(c, s, other).Some? :: Moves(c, s, other) <= Remaining(s)
  {
    InvRun(c, acts, s);
    more, t := ReturnsOnceDead(c, s);
    forall other | Exec(c, s, other).Some?
      ensures Moves(c, s, other) <= Remaining(s)
    {
      FewMovesAreLeft(c, s, other, Exec(c, s, other).value);
    }
  }

  /** `wait`'s SIGKILL is such a moment. */
  lemma KilledMeansDead(c: Config, acts: seq<Action>, s: State)
    requires IsRun(c, acts, s) && Killed(s.w)
    ensures s.k.live == {} && !s.r.pc.RSpawn?
  {
    InvRun(c, acts, s);
    hide EventInv, HandleInv, ReportInv, DeadInv, CaptureInv, EscInv, CountInv;
  }

  // ----- what is reported

  /** Every finished run's trace is a word of the event language, by outcome; the remaining
      errors are never returned. */
  lemma EventLanguage(c: Config, acts: seq<Action>, s: State)
    requires IsRun(c, acts, s) && s.r.pc.RDone?
    ensures Word(c, s, s.r.pc.outcome)
    ensures s.r.pc.outcome != Err(InvalidStateTransition) && s.r.pc.outcome != Err(AerError.KillFailed)
  {
    InvRun(c, acts, s);
    hide GroupInv, HandleInv, ReportInv, DeadInv, CaptureInv, EscInv, CountInv, MachineInv;
  }

  /** A normal return, its Exited event and the flags agree: the reason names the outcome, a
      forced exit carries -1, a natural one the root's own code, or -1 when it died by a signal. */
  lemma OutcomeAgrees(c: Config, acts: seq<Action>, s: State)
    requires IsRun(c, acts, s) && s.r.pc.RDone? && Normal(s.r.pc.outcome)
    ensures Reported(s.r.trace)
    ensures var last := s.r.trace[|s.r.trace| - 1];
            && (last.reason == NaturalExit <==> s.r.pc.outcome == Ok)
            && (last.reason == ExitReason.TimedOut <==> s.r.pc.outcome == Err(AerError.TimedOut))
            && (last.reason == CancelRequested <==> s.r.pc.outcome == Err(Cancelled))
            && ReasonTrue(s, last.reason)
            && (last.reason == NaturalExit && s.k.status.Some? ==> last.code == s.k.status.value)
            && (last.reason != NaturalExit || s.k.status.None? ==> last.code == -1)
  {
    InvRun(c, acts, s);
    hide HandleInv, DeadInv, CaptureInv, EscInv, CountInv, MachineInv, GuardInv;
  }

  /** `timed_out` has been loaded as `late`; `kill_fired` is frozen at `fired`. */
  ghost predicate Decided(c: Config, code: int, late: bool, fired: bool, t: State) {
    && (c.cancellable ==> t.ch.slot.Cleared?) && t.ch.fired == fired
    && if t.r.pc.RSnapFired? then
         t.r.pc.code == code && t.r.pc.late == late && !Reported(t.r.trace)
       else if t.r.pc.RExiting? || t.r.pc.RExited? then
         t.r.pc.code == code && t.r.pc.late == late && t.r.pc.fired == fired && !Reported(t.r.trace)
       else
         && OutcomeOf(t.r.pc) in {Some(Panicked), Some(Result(late, fired))}
         && Reported(t.r.trace)
         && t.r.trace[|t.r.trace| - 1] == Exited(Code(code, late, fired), Reason(late, fired))
  }

  lemma DecidedStep(c: Config, code: int, late: bool, fired: bool, s: State, a: Action, s': State)
    requires HandleInv(c, s) && MachineInv(s) && Step(c, s, a) == Some(s')
    requires Decided(c, code, late, fired, s)
    ensures Decided(c, code, late, fired, s')
  {
    if c.cancellable {
      Frozen(c, s, a, s');
    }
    if a.Run? {
      RunDecided(c, code, late, fired, s, a.flag, s');
    } else {
      hide EscStep, Do, TreeAlive, CallInv, WinnerInv, RunStep, Reported;
    }
  }

  lemma RunDecided(c: Config, code: int, late: bool, fired: bool, s: State, flag: bool, s': State)
    requires SlotInv(c, s) && MachineInv(s) && RunStep(c, s, flag) == Some(s')
    requires Decided(c, code, late, fired, s)
    requires (c.cancellable ==> s'.ch.slot.Cleared?) && s'.ch.fired == s.ch.fired
    ensures Decided(c, code, late, fired, s')
  {
    if PhaseOf(s.r.pc).Finishing? {
      FinishDecided(c, code, late, fired, s, flag, s');
    } else {
      UnwindDecided(c, code, late, fired, s, flag, s');
    }
  }

  lemma UnwindDecided(c: Config, code: int, late: bool, fired: bool, s: State, flag: bool, s': State)
    requires UnwindStep(s, flag) == Some(s') && Decided(c, code, late, fired, s)
    ensures Decided(c, code, late, fired, s')
  {
    hide EscStep, Do, TreeAlive, Reported;
  }

  lemma FinishDecided(c: Config, code: int, late: bool, fired: bool, s: State, flag: bool, s': State)
    requires SlotInv(c, s) && MachineInv(s) && FinishStep(c, s, flag) == Some(s')
    requires Decided(c, code, late, fired, s)
    requires (c.cancellable ==> s'.ch.slot.Cleared?) && s'.ch.fired == s.ch.fired
    ensures Decided(c, code, late, fired, s')
  {
  }

  /** One snapshot decides the report: whatever happens after `timed_out` was loaded - a late
      monitor, late cancels, a panic in the callback - the Exited event and the outcome are
      those of that value and of the frozen `kill_fired`, timeout taking precedence. */
  lemma {:induction false} SnapshotDecides(c: Config, s: State, code: int, late: bool, fired: bool,
                                           more: seq<Action>, t: State)
    requires Inv(c, s) && Exec(c, s, more) == Some(t)
    requires Decided(c, code, late, fired, s)
    ensures Decided(c, code, late, fired, t)
    decreases |more|
  {
    hide Step, Inv, Decided;
    if more == [] {
    } else {
      var s1 := Step(c, s, more[0]).value;
      assert HandleInv(c, s) && MachineInv(s) by { InvGivesProgress(c, s); InvGivesMachine(c, s); }
      DecidedStep(c, code, late, fired, s, more[0], s1);
      InvStep(c, s, more[0], s1);
      SnapshotDecides(c, s1, code, late, fired, more[1..], t);
    }
  }

  lemma InvGivesMachine(c: Config, s: State)
    requires Inv(c, s)
    ensures MachineInv(s)
  {
    hide GroupInv, HandleInv, ReportInv, DeadInv, CaptureInv, EscInv, CountInv, MachineInv, TraceInv;
  }

  /** The load of `timed_out` makes the decision. */
  lemma LoadDecides(c: Config, acts: seq<Action>, s: State, flag: bool, s': State)
    requires IsRun(c, acts, s) && s.r.pc.RSnapTimeout? && Step(c, s, Run(flag)) == Some(s')
    ensures Decided(c, s.r.pc.code, s.m.late, s.ch.fired, s')
  {
    InvRun(c, acts, s);
    hide GroupInv, EventInv, DeadInv, CaptureInv, EscInv, CountInv;
  }

  /** Together: the values loaded at the two snapshot loads are the report, a timeout taking
      precedence over a cancel, and both over the code of the wait. */
  lemma ReportIsTheSnapshot(c: Config, acts: seq<Action>, s: State, flag: bool, s': State,
                            more: seq<Action>, t: State)
    requires IsRun(c, acts, s) && s.r.pc.RSnapTimeout? && Step(c, s, Run(flag)) == Some(s')
    requires Exec(c, s', more) == Some(t) && t.r.pc.RDone?
    ensures Reported(t.r.trace)
    ensures t.r.trace[|t.r.trace| - 1]
            == if s.m.late then Exited(-1, ExitReason.TimedOut)
               else if s.ch.fired then Exited(-1, CancelRequested)
               else Exited(s.r.pc.code, NaturalExit)
    ensures t.r.pc.outcome != Panicked ==>
              t.r.pc.outcome
              == if s.m.late then Err(AerError.TimedOut)
                 else if s.ch.fired then Err(Cancelled)
                 else Ok
  {
    LoadDecides(c, acts, s, flag, s');
    InvRun(c, acts, s);
    InvStep(c, s, Run(flag), s');
    SnapshotDecides(c, s', s.r.pc.code, s.m.late, s.ch.fired, more, t);
    DecidedAtTheEnd(c, s.r.pc.code, s.m.late, s.ch.fired, t);
    hide Inv, Exec, Step, IsRun, Decided;
  }

  lemma DecidedAtTheEnd(c: Config, code: int, late: bool, fired: bool, t: State)
    requires Decided(c, code, late, fired, t) && t.r.pc.RDone?
    ensures Reported(t.r.trace)
    ensures t.r.trace[|t.r.trace| - 1] == Exited(Code(code, late, fired), Reason(late, fired))
    ensures t.r.pc.outcome in {Panicked, Result(late, fired)}
  {}

  // ----- no spurious forced exit

  /** No flag is set and no thread is between an alive answer and its store. */
  ghost predicate Untouched(s: State) {
    && !s.ch.fired && !s.m.late && !s.r.pc.RStoreFired? && !s.m.pc.MStore?
    && !(Winner(s).Some? && Winner(s).value.CStore?)
  }

  /** The next step is a probe that guards a flag. */
  predicate FlagProbe(s: State, a: Action) {
    match a
    case Run(_) => s.r.pc.RProbe?
    case Cancel(id, _) => id in s.ch.calls && s.ch.calls[id].CProbe?
    case Watch(_) => s.m.pc.MProbe?
    case _ => false
  }

  /** Somewhere along `acts` such a probe is made while the group has a member. */
  ghost predicate SeenAlive(c: Config, s: State, acts: seq<Action>)
    decreases |acts|
  {
    acts != [] && Step(c, s, acts[0]).Some? &&
    ((FlagProbe(s, acts[0]) && s.k.Members() != {})
     || SeenAlive(c, Step(c, s, acts[0]).value, acts[1..]))
  }

  lemma UntouchedStep(c: Config, s: State, a: Action, s': State)
    requires CallInv(s) && Untouched(s) && Step(c, s, a) == Some(s')
    ensures Untouched(s') || (FlagProbe(s, a) && s.k.Members() != {})
  {
    ProbeIsExact(s.k);
    match a
    case Run(flag) => RunUntouched(c, s, flag, s');
    case Cancel(_, _) => hide EscStep, TreeAlive, Do, RunStep;
    case _ => hide EscStep, TreeAlive, Do, RunStep, CallInv;
  }

  lemma RunUntouched(c: Config, s: State, flag: bool, s': State)
    requires Untouched(s) && RunStep(c, s, flag) == Some(s')
    requires TreeAlive(s.k) <==> s.k.Members() != {}
    ensures Untouched(s') || (s.r.pc.RProbe? && s.k.Members() != {})
  {
    RunIsLocal(c, s, flag, s');
    RunFlags(c, s, flag, s');
    RunToStore(c, s, flag, s');
    hide RunStep, TreeAlive, Winner;
  }

  lemma RunFlags(c: Config, s: State, flag: bool, s': State)
    requires RunStep(c, s, flag) == Some(s')
    ensures s'.ch.fired == s.ch.fired || s.r.pc.RStoreFired?
    ensures s'.m.pc.MStore? ==> s.m.pc.MStore?
  {
    hide EscStep, TreeAlive, Do;
  }

  lemma RunToStore(c: Config, s: State, flag: bool, s': State)
    requires RunStep(c, s, flag) == Some(s')
    ensures s'.r.pc.RStoreFired? ==> s.r.pc.RProbe? && TreeAlive(s.k)
  {
    hide EscStep, TreeAlive, Do;
  }

  /** TimedOut or CancelRequested needs an alive probe: a flag that is set was preceded by a
      guarding probe that met a member of the group. */
  lemma {:induction false} ForcedNeedsAliveProbe(c: Config, s: State, more: seq<Action>, t: State)
    requires Inv(c, s) && Exec(c, s, more) == Some(t) && Untouched(s)
    ensures !Untouched(t) ==> SeenAlive(c, s, more)
    decreases |more|
  {
    hide Step, Inv, Untouched, FlagProbe;
    if more == [] {
    } else {
      var s1 := Step(c, s, more[0]).value;
      assert CallInv(s) by { InvGivesProgress(c, s); hide GroupInv, EscInv, SlotInv, WinnerInv, CallInv; }
      UntouchedStep(c, s, more[0], s1);
      InvStep(c, s, more[0], s1);
      if Untouched(s1) {
        ForcedNeedsAliveProbe(c, s1, more[1..], t);
      }
    }
  }

  /** A tree that is gone answers no later probe. */
  lemma {:induction false} GoneIsNeverSeenAlive(c: Config, s: State, more: seq<Action>)
    requires Inv(c, s) && s.k.Members() == {} && !s.r.pc.RSpawn?
    ensures !SeenAlive(c, s, more)
    decreases |more|
  {
    hide Step, Inv, FlagProbe;
    if more != [] && Step(c, s, more[0]).Some? {
      var s1 := Step(c, s, more[0]).value;
      InvHasGroup(c, s);
      GroupStep(c, s, more[0], s1);
      NeverBackToSpawn(c, s, more[0], s1);
      InvStep(c, s, more[0], s1);
      assert s1.k.Members() == {};
      GoneIsNeverSeenAlive(c, s1, more[1..]);
    }
  }

  /** A reported TimedOut or CancelRequested was earned: some guarding probe of this run met a
      member of the group. */
  lemma ForcedExitWasEarned(c: Config, acts: seq<Action>, s: State)
    requires IsRun(c, acts, s) && Reported(s.r.trace)
    requires s.r.trace[|s.r.trace| - 1].reason != NaturalExit
    ensures SeenAlive(c, Init(c), acts)
  {
    InvInit(c);
    InvRun(c, acts, s);
    ForcedNeedsAliveProbe(c, Init(c), acts, s);
    assert ReasonTrue(s, s.r.trace[|s.r.trace| - 1].reason) by {
      hide GroupInv, EventInv, DeadInv, CaptureInv, EscInv, CountInv, HandleInv;
    }
    hide Inv, Exec, SeenAlive;
  }

  /** No spurious forced exit: if the tree is gone before any probe has found it alive, every
      continuation that emits Exited reports a natural exit with the root's own code. */
  lemma GoneFirstIsNatural(c: Config, acts: seq<Action>, s: State, more: seq<Action>, t: State)
    requires IsRun(c, acts, s) && !SeenAlive(c, Init(c), acts)
    requires s.k.Members() == {} && !s.r.pc.RSpawn?
    requires Exec(c, s, more) == Some(t) && Reported(t.r.trace)
    ensures t.r.trace[|t.r.trace| - 1].reason == NaturalExit
    ensures t.r.trace[|t.r.trace| - 1].code == match s.k.status case Some(n) => n case None => -1
  {
    InvInit(c);
    ForcedNeedsAliveProbe(c, Init(c), acts, s);
    InvRun(c, acts, s);
    ForcedNeedsAliveProbe(c, s, more, t);
    GoneIsNeverSeenAlive(c, s, more);
    GroupAbsorbs(c, s, more, t);
    InvExec(c, s, more, t);
    ReportedFull(c, t);
    hide GroupInv, EventInv, DeadInv, CaptureInv, EscInv, CountInv, HandleInv, SeenAlive, Exec;
  }

  lemma ReportedFull(c: Config, t: State)
    requires Inv(c, t) && Reported(t.r.trace)
    ensures t.w.WDone? && t.w.res.Some? && Full(c, t.r.trace, ExitCode(t.k.status))
  {
    hide HandleInv, DeadInv, CaptureInv, EscInv, CountInv, MachineInv, GuardInv;
  }
}
