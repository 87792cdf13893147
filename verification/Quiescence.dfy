/** After a normal return: who can still send a signal, and which flag can still change. */
module Quiescence {
  import opened Kernel
  import opened Events
  import opened Escalation
  import opened Protocol
  import opened Lifecycle
  import opened Handshake
  import opened Report
  import opened Progress
  import opened Runs
  import opened RunTheorems

  /** The next step sends SIGTERM or SIGKILL. */
  predicate Sends(s: State, a: Action) {
    match a
    case Run(_) => (s.r.pc.REscalate? || s.r.pc.UEscalate?) && !s.r.pc.esc.EPoll?
    case Cancel(id, _) =>
      id in s.ch.calls && s.ch.calls[id].CEscalate? && !s.ch.calls[id].esc.EPoll?
    case Watch(_) => s.m.pc.MEscalate? && !s.m.pc.esc.EPoll?
    case Wait(_) => s.w.WKill?
    case _ => false
  }

  /** The monitor has not been woken by its deadline. */
  predicate Asleep(pc: Monitor) {
    pc.MNone? || pc.MWaiting? || pc.MDone?
  }

  /** The stop message is sent before the flags are loaded. */
  ghost predicate StopInv(s: State) {
    && (s.r.pc.RSnapTimeout? || s.r.pc.RSnapFired? || s.r.pc.RExiting? || s.r.pc.RExited? ==>
          s.m.stop.Sent?)
    && (OutcomeOf(s.r.pc).Some? && Normal(OutcomeOf(s.r.pc).value) ==> s.m.stop.Sent?)
  }

  lemma StopStep(c: Config, s: State, a: Action, s': State)
    requires StopInv(s) && Step(c, s, a) == Some(s')
    ensures StopInv(s') && (!s.m.stop.Open? ==> !s'.m.stop.Open?)
  {
    if a.Run? {
      RunStop(c, s, a.flag, s');
    } else {
      hide EscStep, Do, TreeAlive, RunStep;
    }
  }

  lemma RunStop(c: Config, s: State, flag: bool, s': State)
    requires StopInv(s) && RunStep(c, s, flag) == Some(s')
    ensures StopInv(s') && (!s.m.stop.Open? ==> !s'.m.stop.Open?)
  {
    hide EscStep, Do, TreeAlive;
  }

  lemma {:induction false} StopExec(c: Config, s: State, acts: seq<Action>, t: State)
    requires StopInv(s) && Exec(c, s, acts) == Some(t)
    ensures StopInv(t)
    decreases |acts|
  {
    hide Step, StopInv;
    if acts == [] {
    } else {
      var s1 := Step(c, s, acts[0]).value;
      StopStep(c, s, acts[0], s1);
      StopExec(c, s1, acts[1..], t);
    }
  }

  lemma AsleepStep(c: Config, s: State, a: Action, s': State)
    requires Step(c, s, a) == Some(s') && !s.m.stop.Open? && Asleep(s.m.pc)
    ensures Asleep(s'.m.pc) && !s'.m.stop.Open?
  {
    hide EscStep, Do, TreeAlive;
  }

  /** A monitor that the stop message or the disconnect finds waiting never kills: it is woken
      by it, and from then on it is asleep in every continuation. */
  lemma {:induction false} WokenMonitorNeverKills(c: Config, s: State, more: seq<Action>, t: State)
    requires Exec(c, s, more) == Some(t) && !s.m.stop.Open? && Asleep(s.m.pc)
    ensures Asleep(t.m.pc) && forall flag :: !Sends(t, Watch(flag))
    decreases |more|
  {
    hide Step;
    if more == [] {
    } else {
      var s1 := Step(c, s, more[0]).value;
      AsleepStep(c, s, more[0], s1);
      WokenMonitorNeverKills(c, s1, more[1..], t);
    }
  }

  lemma ReturnedStep(c: Config, s: State, a: Action, s': State)
    requires Step(c, s, a) == Some(s') && s.r.pc.RDone?
    ensures s'.r == s.r
  {
    hide EscStep, Do, TreeAlive;
  }

  lemma {:induction false} ReturnedStays(c: Config, s: State, more: seq<Action>, t: State)
    requires Exec(c, s, more) == Some(t) && s.r.pc.RDone?
    ensures t.r == s.r
    decreases |more|
  {
    hide Step;
    if more == [] {
    } else {
      var s1 := Step(c, s, more[0]).value;
      ReturnedStep(c, s, more[0], s1);
      ReturnedStays(c, s1, more[1..], t);
    }
  }

  /** After a normal return nobody sends a signal any more - no canceller, whenever it called -
      except a monitor whose deadline had elapsed before the stop message reached it. */
  lemma OnlyALateMonitorSignals(c: Config, acts: seq<Action>, s: State,
                                more: seq<Action>, t: State, a: Action)
    requires IsRun(c, acts, s) && s.r.pc.RDone? && Normal(s.r.pc.outcome)
    requires Exec(c, s, more) == Some(t) && Sends(t, a) && Step(c, t, a).Some?
    ensures a.Watch? && !Asleep(s.m.pc)
  {
    InvRun(c, acts, s);
    StopExec(c, Init(c), acts, s);
    ReturnedStays(c, s, more, t);
    InvExec(c, s, more, t);
    if Asleep(s.m.pc) {
      WokenMonitorNeverKills(c, s, more, t);
    }
    NobodyElseSends(c, t, a);
    hide Inv, Exec, Step, Sends;
  }

  lemma NobodyElseSends(c: Config, t: State, a: Action)
    requires Inv(c, t) && t.r.pc.RDone? && Normal(t.r.pc.outcome)
    ensures Sends(t, a) ==> a.Watch?
  {
    hide KillInv, GuardInv, ReportInv, DeadInv, CaptureInv, EscInv, CountInv, MachineInv;
  }

  // ----- `timed_out` is not frozen

  /** A run with a timeout, without capture or cancel handle. */
  const LATE := Config(1, false, true, false, 1)

  function LateState(k: Group, r: RunnerState, stop: Stop, w: Waiter, out: Drain, err: Drain): State {
    Init(LATE).(k := k, r := r, m := MonitorState(MStore, false, stop), w := w,
                io := Io(out, err, true, []))
  }

  const RUNNING := RunnerState(RInline, Machine.Running, true, [Started(1)])
  const GONE := Unborn(1).(status := Some(0))

  /** The deadline elapses while the root lives, and the monitor is delayed between its probe
      and its store. */
  lemma LateSpawn() returns (acts: seq<Action>, s: State)
    ensures IsRun(LATE, acts, s)
    ensures s == LateState(Spawned(1), RUNNING, Open, WSpawnOut, DNone, DNone)
  {
    acts, s := [], Init(LATE);
    acts, s := Then(LATE, acts, s, Run(false));
    acts, s := Then(LATE, acts, s, Run(false));
    acts, s := Then(LATE, acts, s, Run(false));
    acts, s := Then(LATE, acts, s, Run(false));
    acts, s := Then(LATE, acts, s, Run(false));
    acts, s := Then(LATE, acts, s, Watch(true));
    ProbeIsExact(s.k);
    acts, s := Then(LATE, acts, s, Watch(false));
  }

  /** Meanwhile the root exits by itself and is waited for. */
  lemma LateWait() returns (acts: seq<Action>, s: State)
    ensures IsRun(LATE, acts, s)
    ensures s == LateState(GONE, RUNNING, Open, WDone(Some(0)), DEnd(true), DEnd(true))
  {
    acts, s := LateSpawn();
    acts, s := Then(LATE, acts, s, Env(Exit(1, Some(0))));
    acts, s := Then(LATE, acts, s, Wait(false));
    acts, s := Then(LATE, acts, s, Wait(false));
    acts, s := Then(LATE, acts, s, Wait(false));
    acts, s := Then(LATE, acts, s, Wait(false));
    acts, s := Then(LATE, acts, s, Copy(Stdout, 0, NoFault));
    acts, s := Then(LATE, acts, s, Copy(Stderr, 0, NoFault));
    acts, s := Then(LATE, acts, s, Wait(false));
    acts, s := Then(LATE, acts, s, Wait(false));
  }

  lemma LateStop() returns (acts: seq<Action>, s: State)
    ensures IsRun(LATE, acts, s)
    ensures s == LateState(GONE, RunnerState(RSnapTimeout(0), Machine.Running, false, [Started(1)]),
                           Sent, WDone(Some(0)), DEnd(true), DEnd(true))
  {
    acts, s := LateWait();
    acts, s := Then(LATE, acts, s, Run(false));
    acts, s := Then(LATE, acts, s, Run(false));
    acts, s := Then(LATE, acts, s, Run(false));
  }

  lemma LateReport() returns (acts: seq<Action>, s: State)
    ensures IsRun(LATE, acts, s)
    ensures s == LateState(GONE, RunnerState(RExited(0, false, false), Machine.Exited, false, [Started(1)]),
                           Sent, WDone(Some(0)), DEnd(true), DEnd(true))
  {
    acts, s := LateStop();
    acts, s := Then(LATE, acts, s, Run(false));
    acts, s := Then(LATE, acts, s, Run(false));
    acts, s := Then(LATE, acts, s, Run(false));
  }

  /** `timed_out`, unlike `kill_fired`, is not frozen by the return: here is a run that has
      returned Ok, and the late monitor's store after it. */
  lemma LateFlagAfterReturn() returns (acts: seq<Action>, s: State, t: State)
    ensures IsRun(LATE, acts, s) && s.r.pc == RDone(Ok) && !s.m.late
    ensures Step(LATE, s, Watch(false)) == Some(t) && t.m.late
  {
    acts, s := LateReport();
    acts, s := Then(LATE, acts, s, Run(false));
    acts, s := Then(LATE, acts, s, Run(false));
    acts, s := Then(LATE, acts, s, Run(false));
    t := Step(LATE, s, Watch(false)).value;
  }

  /** The monitor has been woken by its deadline and its probe has met, or can still meet,
      a member of the group. */
  ghost predicate LateMonitor(s: State) {
    s.m.pc.MStore? || (s.m.pc.MProbe? && s.k.Members() != {})
  }

  lemma LateStep(c: Config, s: State, a: Action, s': State)
    requires Step(c, s, a) == Some(s') && !s.m.stop.Open?
    requires s.k.Members() == {} ==> s'.k.Members() == {}
    ensures !s'.m.stop.Open?
    ensures s'.m.late ==> s.m.late || s.m.pc.MStore?
    ensures LateMonitor(s') ==> LateMonitor(s)
  {
    ProbeIsExact(s.k);
    hide EscStep, Do, TreeAlive;
  }

  lemma {:induction false} OnlyALateMonitorStores(c: Config, s: State, more: seq<Action>, t: State)
    requires Inv(c, s) && Exec(c, s, more) == Some(t) && !s.r.pc.RSpawn?
    requires !s.m.stop.Open? && !s.m.late && !LateMonitor(s)
    ensures !t.m.late
    decreases |more|
  {
    hide Step, Inv, LateMonitor;
    if more == [] {
    } else {
      var s1 := Step(c, s, more[0]).value;
      InvHasGroup(c, s);
      GroupStep(c, s, more[0], s1);
      NeverBackToSpawn(c, s, more[0], s1);
      InvStep(c, s, more[0], s1);
      assert !s.m.pc.MStore? by { LateMonitorDef(s); }
      LateStep(c, s, more[0], s1);
      OnlyALateMonitorStores(c, s1, more[1..], t);
    }
  }

  lemma LateMonitorDef(s: State)
    ensures s.m.pc.MStore? ==> LateMonitor(s)
  {}

  ghost predicate LateAfter(c: Config, s: State, more: seq<Action>, t: State) {
    Exec(c, s, more) == Some(t) && t.m.late
  }

  ghost predicate CanBecomeLate(c: Config, s: State) {
    exists more, t :: LateAfter(c, s, more, t)
  }

  /** Exactly when the flag can still change once the stop message is on its way: when the
      monitor is past its receive with an alive answer, or about to get one. */
  lemma LateFlagExactlyWhen(c: Config, acts: seq<Action>, s: State)
    requires IsRun(c, acts, s) && !s.r.pc.RSpawn? && !s.m.stop.Open? && !s.m.late
    ensures CanBecomeLate(c, s) <==> LateMonitor(s)
  {
    InvRun(c, acts, s);
    if LateMonitor(s) {
      LateMonitorStores(c, s);
    } else {
      forall more, t | Exec(c, s, more) == Some(t)
        ensures !LateAfter(c, s, more, t)
      {
        OnlyALateMonitorStores(c, s, more, t);
      }
    }
  }

  lemma LateMonitorStores(c: Config, s: State)
    requires LateMonitor(s)
    ensures CanBecomeLate(c, s)
  {
    var watch := Watch(false);
    ProbeIsExact(s.k);
    assert [watch, watch][1..] == [watch] && [watch][1..] == [];
    var s1 := Step(c, s, watch).value;
    if s.m.pc.MStore? {
      assert LateAfter(c, s, [watch], s1);
    } else {
      var s2 := Step(c, s1, watch).value;
      assert Exec(c, s1, [watch]) == Some(s2) && s2.m.late;
      assert LateAfter(c, s, [watch, watch], s2);
    }
  }
}
