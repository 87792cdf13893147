/** After any return of `run_impl`, not only a normal one: where the cancel slot stands, who
    can still send a signal, and exactly when a `cancel()` still fires. */
module AfterReturn {
  import opened Kernel
  import opened Events
  import opened Escalation
  import opened Protocol
  import opened Lifecycle
  import opened Handshake
  import opened Report
  import opened Progress
  import opened Runs
  import opened RunTheorems
  import opened Quiescence

  // ----- the slot

  ghost predicate EndSlot(c: Config, s: State) {
    c.cancellable && PhaseOf(s.r.pc).Unwinding? ==>
      s.ch.slot == if s.w.WNone? then Unwired else if Reported(s.r.trace) then Cleared else Wired
  }

  lemma EndSlotStep(c: Config, s: State, a: Action, s': State)
    requires Inv(c, s) && EndSlot(c, s) && Step(c, s, a) == Some(s')
    ensures EndSlot(c, s')
  {
    hide Inv, EscInv, CallInv, WinnerInv, KillInv, GuardInv, MachineInv, WaitInv, SlotInv, RunStep;
    InvGivesProgress(c, s);
    InvGivesMachine(c, s);
    ReportedSpawned(c, s);
    if a.Run? {
      RunEndSlot(c, s, a.flag, s');
    } else {
      hide EscStep, Do, TreeAlive, Reported, Absorbing;
    }
  }

  lemma ReportedSpawned(c: Config, s: State)
    requires Inv(c, s)
    ensures Reported(s.r.trace) ==> PhaseOf(s.r.pc).Unwinding?
  {
    hide GroupInv, EventInv, HandleInv, DeadInv, CaptureInv, EscInv, CountInv;
  }

  lemma RunEndSlot(c: Config, s: State, flag: bool, s': State)
    requires WaitInv(s) && SlotInv(c, s) && MachineInv(s) && EndSlot(c, s)
    requires Reported(s.r.trace) ==> PhaseOf(s.r.pc).Unwinding?
    requires RunStep(c, s, flag) == Some(s')
    ensures EndSlot(c, s')
  {
    match PhaseOf(s.r.pc)
    case Beginning => hide WireStep, PumpStep, FinishStep, UnwindStep;
    case Wiring => WireEndSlot(c, s, flag, s');
    case Pumping => hide BeginStep, WireStep, FinishStep, UnwindStep;
    case Finishing => hide BeginStep, WireStep, PumpStep, UnwindStep;
    case Unwinding => UnwindEndSlot(c, s, flag, s');
  }

  lemma WireEndSlot(c: Config, s: State, flag: bool, s': State)
    requires WireStep(c, s, flag) == Some(s')
    ensures EndSlot(c, s')
  {
    hide EscStep, TreeAlive;
  }

  lemma UnwindEndSlot(c: Config, s: State, flag: bool, s': State)
    requires EndSlot(c, s) && UnwindStep(s, flag) == Some(s')
    ensures EndSlot(c, s')
  {
    hide EscStep, Do, Reported;
  }

  lemma {:induction false} EndSlotExec(c: Config, s: State, acts: seq<Action>, t: State)
    requires Inv(c, s) && EndSlot(c, s) && Exec(c, s, acts) == Some(t)
    ensures EndSlot(c, t)
    decreases |acts|
  {
    hide Step, Inv, EndSlot;
    if acts == [] {
    } else {
      var s1 := Step(c, s, acts[0]).value;
      EndSlotStep(c, s, acts[0], s1);
      InvStep(c, s, acts[0], s1);
      EndSlotExec(c, s1, acts[1..], t);
    }
  }

  /** Where every cancellable run leaves the slot: filled exactly when it ended between the
      begin of the wait and the emission of Exited, that is, by a wait error or a panicking
      chunk callback; cleared exactly when Exited was emitted, be it to a panicking callback. */
  lemma SlotAtReturn(c: Config, acts: seq<Action>, s: State)
    requires IsRun(c, acts, s) && c.cancellable && s.r.pc.RDone?
    ensures s.ch.slot.Wired? <==> !s.w.WNone? && !Reported(s.r.trace)
    ensures s.ch.slot.Cleared? <==> Reported(s.r.trace)
    ensures s.r.pc.outcome == Err(WaitFailed) ==> s.ch.slot.Wired?
    ensures s.ch.slot.Wired? ==> s.r.pc.outcome in {Err(WaitFailed), Panicked}
  {
    InvInit(c);
    EndSlotExec(c, Init(c), acts, s);
    EventLanguage(c, acts, s);
    InvRun(c, acts, s);
    ReportedWaited(c, s);
    hide Inv, Exec, IsRun;
  }

  lemma ReportedWaited(c: Config, s: State)
    requires Inv(c, s)
    ensures Reported(s.r.trace) ==> s.w.WDone?
  {
    hide HandleInv, DeadInv, CaptureInv, EscInv, CountInv, MachineInv, GuardInv, KillInv;
  }

  // ----- signals

  /** The monitor sleeps, and nothing but its stop can wake it. */
  ghost predicate Dormant(s: State) {
    Asleep(s.m.pc) && (s.m.pc.MNone? || !s.m.stop.Open?)
  }

  /** Before the guard is dropped the monitor's sender is gone, or no monitor was started. */
  ghost predicate SenderGone(s: State) {
    s.r.pc.UGuard? || s.r.pc.UEscalate? || s.r.pc.UReap? || s.r.pc.RDone? ==>
      s.m.pc.MNone? || !s.m.stop.Open?
  }

  lemma SenderGoneStep(c: Config, s: State, a: Action, s': State)
    requires WaitInv(s) && SenderGone(s) && Step(c, s, a) == Some(s')
    ensures SenderGone(s')
  {
    if a.Run? {
      RunSenderGone(c, s, a.flag, s');
      hide RunStep;
    } else {
      hide EscStep, Do, TreeAlive, RunStep, WaitInv;
    }
  }

  lemma RunSenderGone(c: Config, s: State, flag: bool, s': State)
    requires WaitInv(s) && SenderGone(s) && RunStep(c, s, flag) == Some(s')
    ensures SenderGone(s')
  {
    hide EscStep, Do, TreeAlive;
  }

  lemma {:induction false} SenderGoneExec(c: Config, s: State, acts: seq<Action>, t: State)
    requires Inv(c, s) && SenderGone(s) && Exec(c, s, acts) == Some(t)
    ensures SenderGone(t)
    decreases |acts|
  {
    hide Step, Inv, SenderGone;
    if acts == [] {
    } else {
      var s1 := Step(c, s, acts[0]).value;
      assert WaitInv(s) by { InvHasGroup(c, s); }
      SenderGoneStep(c, s, acts[0], s1);
      InvStep(c, s, acts[0], s1);
      SenderGoneExec(c, s1, acts[1..], t);
    }
  }

  lemma DormantStep(c: Config, s: State, a: Action, s': State)
    requires Step(c, s, a) == Some(s') && s.r.pc.RDone? && Dormant(s)
    ensures Dormant(s')
  {
    hide EscStep, Do, TreeAlive;
  }

  lemma {:induction false} DormantStays(c: Config, s: State, more: seq<Action>, t: State)
    requires Exec(c, s, more) == Some(t) && s.r.pc.RDone? && Dormant(s)
    ensures Dormant(t)
    decreases |more|
  {
    hide Step, Dormant;
    if more == [] {
    } else {
      var s1 := Step(c, s, more[0]).value;
      ReturnedStep(c, s, more[0], s1);
      DormantStep(c, s, more[0], s1);
      DormantStays(c, s1, more[1..], t);
    }
  }

  /** After a return of whatever kind a signal is sent only by a monitor that its deadline had
      woken before the return, by the wait thread that a panicking chunk callback left behind,
      or by a caller of `cancel()` where the return left the slot filled. */
  lemma WhoSignalsAfterReturn(c: Config, acts: seq<Action>, s: State,
                              more: seq<Action>, t: State, a: Action)
    requires IsRun(c, acts, s) && s.r.pc.RDone?
    requires Exec(c, s, more) == Some(t) && Sends(t, a) && Step(c, t, a).Some?
    ensures || (a.Watch? && !Asleep(s.m.pc))
            || (a.Wait? && s.r.pc.outcome == Panicked && !s.w.WNone? && !Reported(s.r.trace))
            || (a.Cancel? && s.ch.slot.Wired?)
  {
    InvInit(c);
    InvRun(c, acts, s);
    SenderGoneExec(c, Init(c), acts, s);
    ReturnedStays(c, s, more, t);
    if Asleep(s.m.pc) {
      DormantStays(c, s, more, t);
    }
    InvExec(c, s, more, t);
    ReturnedSender(c, t, a);
    SlotStays(c, s, more, t);
    ReportedWaited(c, s);
    hide Inv, Exec, Step, Sends;
  }

  lemma ReturnedSender(c: Config, t: State, a: Action)
    requires Inv(c, t) && t.r.pc.RDone? && Sends(t, a)
    ensures || (a.Watch? && !Asleep(t.m.pc))
            || (a.Wait? && t.r.pc.outcome == Panicked && !t.w.WNone? && !t.w.WDone?)
            || (a.Cancel? && t.ch.slot.Wired?)
  {
    hide KillInv, ReportInv, DeadInv, CaptureInv, EscInv, CountInv, MachineInv, Body, Full;
  }

  lemma AfterDone(c: Config, s: State, a: Action, s': State)
    requires Step(c, s, a) == Some(s') && s.r.pc.RDone?
    ensures s'.ch.slot == s.ch.slot
    ensures (s.w.WNone? <==> s'.w.WNone?) && (s.w.WDone? ==> s'.w.WDone?)
  {
    hide EscStep, Do, TreeAlive;
  }

  lemma {:induction false} SlotStays(c: Config, s: State, more: seq<Action>, t: State)
    requires Exec(c, s, more) == Some(t) && s.r.pc.RDone?
    ensures t.ch.slot == s.ch.slot
    ensures (s.w.WNone? <==> t.w.WNone?) && (s.w.WDone? ==> t.w.WDone?)
    decreases |more|
  {
    hide Step;
    if more == [] {
    } else {
      var s1 := Step(c, s, more[0]).value;
      AfterDone(c, s, more[0], s1);
      ReturnedStep(c, s, more[0], s1);
      SlotStays(c, s1, more[1..], t);
    }
  }

  // ----- a cancel after the return

  /** A call of `cancel()` has fired, is about to, or can still find the slot filled and a member
      of the group - a zombie would do. */
  ghost predicate CanFire(s: State) {
    || s.ch.fired
    || (Winner(s).Some? && Winner(s).value.CStore?)
    || (s.ch.slot.Wired? && s.k.Members() != {}
        && (Winner(s).None? || Winner(s).value.CLocking? || Winner(s).value.CLook?
            || Winner(s).value.CProbe?))
  }

  lemma CanFireStep(c: Config, s: State, a: Action, s': State)
    requires CallInv(s) && WinnerInv(s) && s.r.pc.RDone? && Step(c, s, a) == Some(s') && !CanFire(s)
    requires s.k.Members() == {} ==> s'.k.Members() == {}
    ensures !CanFire(s')
  {
    ProbeIsExact(s.k);
    if a.Cancel? {
      CancelCanFire(c, s, a.id, a.flag, s');
    } else {
      assert s'.ch == s.ch && s'.h.winner == s.h.winner by {
        hide EscStep, Do, TreeAlive, CallInv, WinnerInv, CanFire;
      }
      hide Step, CallInv, WinnerInv;
    }
  }

  lemma CancelCanFire(c: Config, s: State, id: nat, flag: bool, s': State)
    requires CallInv(s) && WinnerInv(s) && CancelStep(c, s, id, flag) == Some(s') && !CanFire(s)
    requires s.k.Members() == {} ==> s'.k.Members() == {}
    requires TreeAlive(s.k) <==> s.k.Members() != {}
    ensures !CanFire(s')
  {
    hide EscStep, Do, TreeAlive;
  }

  lemma {:induction false} NeverFires(c: Config, s: State, more: seq<Action>, t: State)
    requires Inv(c, s) && s.r.pc.RDone? && Exec(c, s, more) == Some(t) && !CanFire(s)
    ensures !t.ch.fired
    decreases |more|
  {
    hide Step, Inv, CanFire;
    if more == [] {
      assert !CanFire(s) ==> !s.ch.fired by { FiredCan(s); }
    } else {
      var s1 := Step(c, s, more[0]).value;
      InvGivesProgress(c, s);
      assert CallInv(s) && WinnerInv(s);
      ReturnedStep(c, s, more[0], s1);
      GroupStep(c, s, more[0], s1);
      CanFireStep(c, s, more[0], s1);
      InvStep(c, s, more[0], s1);
      NeverFires(c, s1, more[1..], t);
    }
  }

  lemma FiredCan(s: State)
    ensures s.ch.fired ==> CanFire(s)
  {}

  /** A number that no call has. */
  lemma {:induction false} FreshId(ids: set<nat>) returns (id: nat)
    ensures id !in ids && forall i | i in ids :: i < id
    decreases |ids|
  {
    if ids == {} {
      return 0;
    }
    var k :| k in ids;
    var j := FreshId(ids - {k});
    assert forall i | i in ids :: i == k || i in ids - {k};
    id := if k < j then j else k + 1;
  }

  function FireWeight(pc: Option<Canceller>): nat {
    match pc
    case None => 4
    case Some(CLocking) => 3
    case Some(CLook) => 2
    case Some(CProbe) => 1
    case Some(_) => 0
  }

  /** The call that can fire takes its next operation. */
  lemma FireMove(c: Config, s: State) returns (a: Action, s1: State)
    requires c.cancellable && CallInv(s) && CanFire(s) && !s.ch.fired
    ensures a.Cancel? && Step(c, s, a) == Some(s1) && s1.r == s.r && s1.k == s.k
    ensures CanFire(s1) && (s1.ch.fired || FireWeight(Winner(s1)) < FireWeight(Winner(s)))
  {
    ProbeIsExact(s.k);
    var id;
    if s.h.winner.Some? {
      id := s.h.winner.value;
    } else {
      id := FreshId(s.ch.calls.Keys);
    }
    a := Cancel(id, false);
    s1 := Step(c, s, a).value;
    hide TreeAlive, EscStep;
  }

  lemma {:induction false} Fires(c: Config, s: State) returns (more: seq<Action>, t: State)
    requires c.cancellable && Inv(c, s) && CanFire(s)
    ensures Exec(c, s, more) == Some(t) && t.ch.fired
    ensures forall a | a in more :: a.Cancel?
    decreases FireWeight(Winner(s)), if s.ch.fired then 0 else 1
  {
    hide Step, Inv, CanFire, FireWeight, Winner;
    if s.ch.fired {
      return [], s;
    }
    assert CallInv(s) by { InvGivesProgress(c, s); hide WaitInv; }
    var a, s1 := FireMove(c, s);
    InvStep(c, s, a, s1);
    var rest: seq<Action>, u := [], s1;
    if !s1.ch.fired {
      rest, u := Fires(c, s1);
    }
    assert ([a] + rest)[1..] == rest;
    more, t := [a] + rest, u;
  }

  /** After any return, `kill_fired` can still become true exactly when `CanFire` holds of the
      state in which the run returned. */
  lemma CancelFiresExactlyWhen(c: Config, acts: seq<Action>, s: State)
    requires IsRun(c, acts, s) && c.cancellable && s.r.pc.RDone?
    ensures (exists more :: Exec(c, s, more).Some? && Exec(c, s, more).value.ch.fired) <==> CanFire(s)
  {
    InvRun(c, acts, s);
    hide Inv, CanFire, Step;
    if CanFire(s) {
      var more, t := Fires(c, s);
    } else {
      forall more | Exec(c, s, more).Some? ensures !Exec(c, s, more).value.ch.fired {
        NeverFires(c, s, more, Exec(c, s, more).value);
      }
    }
  }

  // ----- such a cancel

  /** A run that can be cancelled, without capture or timeout. */
  const FAILED := Config(1, false, false, true, 1)

  function FailedState(k: Group, pc: Runner, w: Waiter, out: Drain, err: Drain, n: nat): State {
    Init(FAILED).(k := k, r := RunnerState(pc, Machine.Running, true, [Started(1)]),
                  ch := Handle(false, false, Wired, None, map[]), w := w, io := Io(out, err, true, []),
                  h := History(None, true, false, n))
  }

  lemma FailedWire() returns (acts: seq<Action>, s: State)
    ensures IsRun(FAILED, acts, s) && s == FailedState(Spawned(1), RMonitor, WNone, DNone, DNone, 0)
  {
    hide PumpStep, FinishStep, UnwindStep, CancelStep, WatchStep, WaitStep, CopyStep, EnvStep, EscStep;
    acts, s := [], Init(FAILED);
    acts, s := Then(FAILED, acts, s, Run(false));
    acts, s := Then(FAILED, acts, s, Run(false));
    acts, s := Then(FAILED, acts, s, Run(false));
    acts, s := Then(FAILED, acts, s, Run(false));
    acts, s := Then(FAILED, acts, s, Run(false));
  }

  /** The root forks, and both are alive when the wait for the root fails. */
  lemma FailedFork() returns (acts: seq<Action>, s: State)
    ensures IsRun(FAILED, acts, s)
    ensures s == FailedState(Do(Spawned(1), Fork(1, 2)), RInline, WKill(None), DRead(0), DRead(0), 0)
  {
    hide BeginStep, WireStep, FinishStep, UnwindStep, CancelStep, WatchStep, CopyStep, EscStep;
    acts, s := FailedWire();
    acts, s := Then(FAILED, acts, s, Run(false));
    acts, s := Then(FAILED, acts, s, Run(false));
    acts, s := Then(FAILED, acts, s, Env(Fork(1, 2)));
    acts, s := Then(FAILED, acts, s, Wait(false));
    acts, s := Then(FAILED, acts, s, Wait(false));
    acts, s := Then(FAILED, acts, s, Wait(true));
  }

  const ZOMBIES := Group(1, {}, {1, 2}, None, NO_PIPE, NO_PIPE)
  const GRANDCHILD := ZOMBIES.(zombies := {2})

  lemma FailedWait() returns (acts: seq<Action>, s: State)
    ensures IsRun(FAILED, acts, s)
    ensures s == FailedState(ZOMBIES, RInline, WDone(None), DEnd(true), DEnd(true), 0)
  {
    hide BeginStep, WireStep, FinishStep, UnwindStep, CancelStep, WatchStep, EscStep;
    acts, s := FailedFork();
    acts, s := Then(FAILED, acts, s, Wait(false));
    assert s.k == ZOMBIES;
    acts, s := Then(FAILED, acts, s, Copy(Stdout, 0, NoFault));
    acts, s := Then(FAILED, acts, s, Copy(Stderr, 0, NoFault));
    acts, s := Then(FAILED, acts, s, Wait(false));
    acts, s := Then(FAILED, acts, s, Wait(false));
  }

  function Disconnect(s: State): State {
    s.(m := s.m.(stop := Disconnected))
  }

  lemma FailedGuard() returns (acts: seq<Action>, s: State)
    ensures IsRun(FAILED, acts, s)
    ensures s == Disconnect(FailedState(ZOMBIES, UEscalate(ETerm(0), Err(WaitFailed)), WDone(None),
                                        DEnd(true), DEnd(true), 0))
  {
    hide BeginStep, WireStep, FinishStep, CancelStep, WatchStep, WaitStep, CopyStep, EnvStep, EscStep;
    acts, s := FailedWait();
    acts, s := Then(FAILED, acts, s, Run(false));
    acts, s := Then(FAILED, acts, s, Run(false));
    acts, s := Then(FAILED, acts, s, Run(false));
  }

  lemma ZombieEscalation()
    ensures EscStep(ZOMBIES, ETerm(0), false) == (ZOMBIES, EPoll(1))
    ensures EscStep(ZOMBIES, EPoll(1), false) == (ZOMBIES, EKill)
    ensures EscStep(ZOMBIES, EKill, false) == (ZOMBIES, EDone)
    ensures Do(ZOMBIES, WaitRoot) == GRANDCHILD
  {
    ProbeIsExact(ZOMBIES);
    DeadSignal(ZOMBIES);
    assert 2 in ZOMBIES.Members();
  }

  /** The guard kills and reaps the root; nobody has reaped the grandchild yet. */
  lemma FailedReturn() returns (acts: seq<Action>, s: State)
    ensures IsRun(FAILED, acts, s)
    ensures s == Disconnect(FailedState(GRANDCHILD, RDone(Err(WaitFailed)), WDone(None),
                                        DEnd(true), DEnd(true), 1))
  {
    hide BeginStep, WireStep, PumpStep, FinishStep, CancelStep, WatchStep, WaitStep, CopyStep, EnvStep;
    hide EscStep, Do;
    ZombieEscalation();
    acts, s := FailedGuard();
    acts, s := Then(FAILED, acts, s, Run(false));
    acts, s := Then(FAILED, acts, s, Run(false));
    acts, s := Then(FAILED, acts, s, Run(false));
    acts, s := Then(FAILED, acts, s, Run(false));
  }

  /** `cancel()` is no no-op after such a return: the run has returned WaitFailed with nobody
      alive, a grandchild is still a zombie, and a first call finds the slot filled, sets
      `kill_fired` and sends signals to the group. */
  lemma CancelAfterFailure() returns (acts: seq<Action>, s: State, more: seq<Action>, t: State)
    ensures IsRun(FAILED, acts, s) && s.r.pc == RDone(Err(WaitFailed)) && s.k.live == {}
    ensures s.ch == Handle(false, false, Wired, None, map[])
    ensures Exec(FAILED, s, more) == Some(t) && t.ch.fired && forall a | a in more :: a.Cancel?
    ensures Sends(t, Cancel(0, false)) && Step(FAILED, t, Cancel(0, false)).Some?
  {
    hide RunStep, WatchStep, WaitStep, CopyStep, EnvStep;
    acts, s := FailedReturn();
    ProbeIsExact(GRANDCHILD);
    assert 2 in GRANDCHILD.Members();
    var a := Cancel(0, false);
    var s1 := Step(FAILED, s, a).value;
    var s2 := Step(FAILED, s1, a).value;
    var s3 := Step(FAILED, s2, a).value;
    var s4 := Step(FAILED, s3, a).value;
    t := Step(FAILED, s4, a).value;
    more := [a, a, a, a, a];
    hide CancelStep, Step;
    assert more[1..] == [a, a, a, a] && [a, a, a, a][1..] == [a, a, a] && [a, a, a][1..] == [a, a];
    assert [a, a][1..] == [a] && [a][1..] == [];
    assert Exec(FAILED, s4, [a]) == Some(t);
    assert Exec(FAILED, s3, [a, a]) == Some(t);
    assert Exec(FAILED, s2, [a, a, a]) == Some(t);
  }
}
