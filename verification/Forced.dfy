/** A cancel or a timeout that has fired ends the run, however the members treat SIGTERM:
    the escalation it began is still under way or has left nobody alive, nothing can stop or
    prolong it, and a cancel that has returned was no less effective. */
module Forced {
  import opened Kernel
  import opened Escalation
  import opened Protocol
  import opened Lifecycle
  import opened Handshake
  import opened Progress
  import opened Runs
  import opened RunTheorems
  import opened CancelTheorems

  predicate WinnerKills(s: State) {
    Winner(s).Some? && Winner(s).value.CEscalate?
  }

  ghost predicate FireInv(s: State) {
    && (s.ch.fired ==>
          !s.ch.slot.Unwired? && (s.k.live == {} || WinnerKills(s) || s.r.pc.REscalate?))
    && (s.m.late ==>
          (s.m.pc.MEscalate? || s.m.pc.MDone?) && (s.k.live == {} || s.m.pc.MEscalate?))
  }

  /** An escalation that returns leaves nobody alive. */
  lemma EscalationEnds(g: Group, e: Esc, late: bool)
    requires !e.EDone?
    ensures EscStep(g, e, late).1.EDone? ==> EscStep(g, e, late).0.live == {}
    ensures !EscStep(g, e, late).1.EDone? ==> EscStep(g, e, late).0 == g
    ensures EscWeight(EscStep(g, e, late).1) < EscWeight(e)
  {
    ProbeIsExact(g);
    KillLeavesNobody(g);
  }

  lemma FireStep(c: Config, s: State, a: Action, s': State)
    requires Inv(c, s) && FireInv(s) && Step(c, s, a) == Some(s')
    ensures FireInv(s')
  {
    InvGivesProgress(c, s);
    GroupStep(c, s, a, s');
    hide Inv, Absorbing;
    match a
    case Run(flag) => RunFire(c, s, flag, s');
    case Cancel(id, flag) => CancelFire(c, s, id, flag, s');
    case Watch(flag) => WatchFire(s, flag, s');
    case _ => OtherFire(c, s, a, s');
  }

  lemma OtherFire(c: Config, s: State, a: Action, s': State)
    requires FireInv(s) && Step(c, s, a) == Some(s') && !a.Run? && !a.Cancel? && !a.Watch?
    requires s.k.live == {} ==> s'.k.live == {}
    ensures FireInv(s')
  {
    hide RunStep, CancelStep, WatchStep, Do, TreeAlive;
  }

  lemma WatchFire(s: State, flag: bool, s': State)
    requires FireInv(s) && WatchStep(s, flag) == Some(s') && (s.k.live == {} ==> s'.k.live == {})
    ensures FireInv(s')
  {
    if s.m.pc.MEscalate? && !s.m.pc.esc.EDone? {
      EscalationEnds(s.k, s.m.pc.esc, flag);
    }
    hide EscStep, TreeAlive;
  }

  lemma CancelFire(c: Config, s: State, id: nat, flag: bool, s': State)
    requires HandleInv(c, s) && FireInv(s) && CancelStep(c, s, id, flag) == Some(s')
    requires s.k.live == {} ==> s'.k.live == {}
    ensures FireInv(s')
  {
    if id in s.ch.calls && s.ch.calls[id].CEscalate? && !s.ch.calls[id].esc.EDone? {
      EscalationEnds(s.k, s.ch.calls[id].esc, flag);
    }
    hide EscStep, TreeAlive;
  }

  lemma RunFire(c: Config, s: State, flag: bool, s': State)
    requires WaitInv(s) && HandleInv(c, s) && FireInv(s) && RunStep(c, s, flag) == Some(s')
    requires s.k.live == {} && !s.r.pc.RSpawn? ==> s'.k.live == {}
    ensures FireInv(s')
  {
    RunIsLocal(c, s, flag, s');
    if PhaseOf(s.r.pc).Wiring? {
      WireFire(c, s, flag, s');
    } else {
      PlainFire(c, s, flag, s');
    }
    hide RunStep;
  }

  lemma WireFire(c: Config, s: State, flag: bool, s': State)
    requires WaitInv(s) && SlotInv(c, s) && FireInv(s) && WireStep(c, s, flag) == Some(s')
    requires Winner(s') == Winner(s) && (s.k.live == {} ==> s'.k.live == {})
    ensures FireInv(s')
  {
    if s.r.pc.REscalate? && !s.r.pc.esc.EDone? {
      EscalationEnds(s.k, s.r.pc.esc, flag);
    }
    hide EscStep, TreeAlive, Winner;
  }

  lemma PlainFire(c: Config, s: State, flag: bool, s': State)
    requires WaitInv(s) && SlotInv(c, s) && FireInv(s) && RunStep(c, s, flag) == Some(s')
    requires !PhaseOf(s.r.pc).Wiring? && Winner(s') == Winner(s) && s'.m.late == s.m.late
    requires s.k.live == {} && !s.r.pc.RSpawn? ==> s'.k.live == {}
    ensures FireInv(s')
  {
    PlainFlags(c, s, flag, s');
    hide RunStep, Winner;
  }

  lemma PlainFlags(c: Config, s: State, flag: bool, s': State)
    requires RunStep(c, s, flag) == Some(s') && !PhaseOf(s.r.pc).Wiring?
    ensures s'.ch.fired == s.ch.fired
    ensures s'.ch.slot == s.ch.slot || s'.ch.slot.Cleared?
    ensures s'.m.pc == s.m.pc || s.r.pc.RMonitor?
  {
    hide EscStep, Do, WireStep;
  }

  lemma {:induction false} FireExec(c: Config, s: State, acts: seq<Action>, t: State)
    requires Inv(c, s) && FireInv(s) && Exec(c, s, acts) == Some(t)
    ensures FireInv(t)
    decreases |acts|
  {
    hide Step, Inv, FireInv;
    if acts == [] {
    } else {
      var s1 := Step(c, s, acts[0]).value;
      FireStep(c, s, acts[0], s1);
      InvStep(c, s, acts[0], s1);
      FireExec(c, s1, acts[1..], t);
    }
  }

  // ----- whose escalation

  datatype Killer = TheWinner | TheRunner | TheMonitor

  /** The escalation a thread is in; the runner's may be that of the drop guard. */
  function EscOf(killer: Killer, s: State): Option<Esc> {
    match killer
    case TheWinner => if WinnerKills(s) then Some(Winner(s).value.esc) else None
    case TheRunner => if s.r.pc.REscalate? || s.r.pc.UEscalate? then Some(s.r.pc.esc) else None
    case TheMonitor => if s.m.pc.MEscalate? then Some(s.m.pc.esc) else None
  }

  predicate MovesBy(killer: Killer, s: State, a: Action) {
    match killer
    case TheWinner => a.Cancel? && s.h.winner == Some(a.id)
    case TheRunner => a.Run?
    case TheMonitor => a.Watch?
  }

  /** The moves of `killer` along `acts`. */
  function MovesOf(killer: Killer, c: Config, s: State, acts: seq<Action>): nat
    requires Exec(c, s, acts).Some?
    decreases |acts|
  {
    if acts == [] then 0
    else
      (if MovesBy(killer, s, acts[0]) then 1 else 0)
      + MovesOf(killer, c, Step(c, s, acts[0]).value, acts[1..])
  }

  /** Nobody is alive, or the escalation goes on with at most `weight` moves to come. */
  ghost predicate KilledWithin(killer: Killer, s: State, weight: int) {
    s.k.live == {} || (EscOf(killer, s).Some? && EscWeight(EscOf(killer, s).value) <= weight)
  }

  /** An escalation's own move brings it nearer to its end, and nobody else's moves it at all. */
  lemma KillerStep(killer: Killer, c: Config, s: State, a: Action, s': State)
    requires WaitInv(s) && CallInv(s) && EscInv(s)
    requires EscOf(killer, s).Some? && Step(c, s, a) == Some(s')
    ensures KilledWithin(killer, s', EscWeight(EscOf(killer, s).value)
                                     - (if MovesBy(killer, s, a) then 1 else 0))
  {
    var e := EscOf(killer, s).value;
    if MovesBy(killer, s, a) {
      EscalationEnds(s.k, e, a.flag);
      match killer
      case TheWinner => WinnerStep(c, s, a.flag, s');
      case TheRunner => RunnerStep(c, s, a.flag, s');
      case TheMonitor => MonitorStep(s, a.flag, s');
    } else {
      NotHis(killer, c, s, a, s');
    }
    hide Step, EscStep, EscWeight, CallInv, WaitInv;
  }

  /** The escalation has taken one step of its own. */
  ghost predicate TookStep(killer: Killer, s: State, late: bool, s': State)
    requires EscOf(killer, s).Some? && !EscOf(killer, s).value.EDone?
  {
    var (g, e) := EscStep(s.k, EscOf(killer, s).value, late);
    s'.k == g && (!e.EDone? ==> EscOf(killer, s') == Some(e))
  }

  lemma WinnerStep(c: Config, s: State, flag: bool, s': State)
    requires CallInv(s) && EscInv(s) && WinnerKills(s)
    requires CancelStep(c, s, s.h.winner.value, flag) == Some(s')
    ensures TookStep(TheWinner, s, flag, s')
  {
    hide EscStep, TreeAlive;
  }

  lemma RunnerStep(c: Config, s: State, flag: bool, s': State)
    requires EscInv(s) && EscOf(TheRunner, s).Some? && RunStep(c, s, flag) == Some(s')
    ensures TookStep(TheRunner, s, flag, s')
  {
    hide EscStep, TreeAlive, Do, BeginStep, PumpStep, FinishStep;
  }

  lemma MonitorStep(s: State, flag: bool, s': State)
    requires EscInv(s) && s.m.pc.MEscalate? && WatchStep(s, flag) == Some(s')
    ensures TookStep(TheMonitor, s, flag, s')
  {
    hide EscStep, TreeAlive;
  }

  lemma NotHis(killer: Killer, c: Config, s: State, a: Action, s': State)
    requires WaitInv(s) && CallInv(s) && EscOf(killer, s).Some?
    requires Step(c, s, a) == Some(s') && !MovesBy(killer, s, a)
    ensures EscOf(killer, s') == EscOf(killer, s)
  {
    if a.Run? {
      RunIsLocal(c, s, a.flag, s');
      RunKeepsMonitor(c, s, a.flag, s');
      hide RunStep, CallInv;
    } else {
      hide RunStep, EscStep, TreeAlive, Do;
    }
  }

  lemma RunKeepsMonitor(c: Config, s: State, flag: bool, s': State)
    requires RunStep(c, s, flag) == Some(s')
    ensures s'.m.pc == s.m.pc || s.r.pc.RMonitor?
  {
    hide EscStep, TreeAlive, Do;
  }

  /** The killer can always move: no lock, and nobody else, holds it up. */
  lemma KillerCanMove(killer: Killer, c: Config, s: State) returns (a: Action)
    requires Inv(c, s) && EscOf(killer, s).Some?
    ensures !a.Env? && MovesBy(killer, s, a) && Step(c, s, a).Some?
    ensures 0 < EscWeight(EscOf(killer, s).value)
  {
    InvGivesProgress(c, s);
    a := match killer
      case TheWinner => Cancel(s.h.winner.value, false)
      case TheRunner => Run(false)
      case TheMonitor => Watch(false);
    EscalationEnds(s.k, EscOf(killer, s).value, false);
    assert 0 < EscWeight(EscOf(killer, s).value);
    hide EscStep, TreeAlive, EscWeight, Inv, BeginStep, PumpStep, FinishStep;
  }

  /** In every schedule an escalation that is under way has at most so many moves to make as its
      weight says - the bounded probes and two signals - before nobody is alive. */
  lemma {:induction false} EveryScheduleKills(killer: Killer, c: Config, s: State,
                                              more: seq<Action>, t: State)
    requires Inv(c, s) && EscOf(killer, s).Some? && Exec(c, s, more) == Some(t)
    ensures KilledWithin(killer, t, EscWeight(EscOf(killer, s).value) - MovesOf(killer, c, s, more))
    decreases |more|
  {
    hide Step, Inv, EscOf, MovesBy, EscWeight, Absorbing;
    if more == [] {
    } else {
      var s1 := Step(c, s, more[0]).value;
      InvGivesProgress(c, s);
      NotUnspawned(killer, c, s);
      KillerStep(killer, c, s, more[0], s1);
      InvStep(c, s, more[0], s1);
      if s1.k.live == {} {
        NeverBackToSpawn(c, s, more[0], s1);
        GroupAbsorbs(c, s1, more[1..], t);
        assert t.k.live == {} by { AbsorbsDeath(s1.k, t.k); }
      } else {
        EveryScheduleKills(killer, c, s1, more[1..], t);
      }
    }
  }

  lemma AbsorbsDeath(g: Group, h: Group)
    requires Absorbing(g, h) && g.live == {}
    ensures h.live == {}
  {}

  lemma NotUnspawned(killer: Killer, c: Config, s: State)
    requires WaitInv(s) && HandleInv(c, s) && EscOf(killer, s).Some?
    ensures !s.r.pc.RSpawn?
  {
    hide CallInv;
  }

  /** The escalation of a thread that moves alone leaves nobody alive. */
  lemma {:induction false} KillCompletes(killer: Killer, c: Config, s: State)
    returns (more: seq<Action>, t: State)
    requires Inv(c, s) && EscOf(killer, s).Some?
    ensures Exec(c, s, more) == Some(t) && t.k.live == {} && Inv(c, t)
    ensures |more| <= EscWeight(EscOf(killer, s).value) && forall a | a in more :: !a.Env?
    decreases EscWeight(EscOf(killer, s).value)
  {
    hide Step, Inv, EscWeight, EscOf, MovesBy;
    InvGivesProgress(c, s);
    var a := KillerCanMove(killer, c, s);
    var s1 := Step(c, s, a).value;
    KillerStep(killer, c, s, a, s1);
    InvStep(c, s, a, s1);
    var rest: seq<Action>, u := [], s1;
    if s1.k.live != {} {
      rest, u := KillCompletes(killer, c, s1);
    }
    assert ([a] + rest)[1..] == rest;
    more, t := [a] + rest, u;
  }

  /** A flag that is set has an escalation behind it that has done its work or is at it. */
  lemma FiredHasKiller(c: Config, acts: seq<Action>, s: State) returns (killer: Killer)
    requires IsRun(c, acts, s) && (s.ch.fired || s.m.late)
    ensures Inv(c, s) && !s.r.pc.RSpawn? && (s.k.live == {} || EscOf(killer, s).Some?)
  {
    InvInit(c);
    assert FireInv(Init(c)) by { hide Inv; }
    FireExec(c, Init(c), acts, s);
    InvRun(c, acts, s);
    FiredIsSpawned(c, s);
    killer := if WinnerKills(s) then TheWinner else if s.r.pc.REscalate? then TheRunner else TheMonitor;
    hide Inv;
  }

  lemma FiredIsSpawned(c: Config, s: State)
    requires Inv(c, s) && FireInv(s) && (s.ch.fired || s.m.late)
    ensures !s.r.pc.RSpawn?
  {
    InvGivesProgress(c, s);
    hide Inv, CallInv, WinnerInv, KillInv, GuardInv;
  }

  ghost predicate CanMove(killer: Killer, c: Config, s: State) {
    exists a: Action :: !a.Env? && MovesBy(killer, s, a) && Step(c, s, a).Some?
  }

  /** In one schedule: so many moves are left, and the next one is possible. */
  ghost predicate Doomed(killer: Killer, c: Config, s: State, more: seq<Action>)
    requires EscOf(killer, s).Some? && Exec(c, s, more).Some?
  {
    var t := Exec(c, s, more).value;
    && KilledWithin(killer, t, EscWeight(EscOf(killer, s).value) - MovesOf(killer, c, s, more))
    && (t.k.live != {} ==> CanMove(killer, c, t))
  }

  lemma ScheduleKills(killer: Killer, c: Config, s: State, more: seq<Action>)
    requires Inv(c, s) && EscOf(killer, s).Some? && Exec(c, s, more).Some?
    ensures Doomed(killer, c, s, more)
  {
    hide Step, Inv, EscOf, MovesBy, EscWeight, Exec, MovesOf, KilledWithin, CanMove;
    var t := Exec(c, s, more).value;
    EveryScheduleKills(killer, c, s, more, t);
    InvExec(c, s, more, t);
    if t.k.live != {} {
      AliveCanMove(killer, c, t, EscWeight(EscOf(killer, s).value) - MovesOf(killer, c, s, more));
    }
  }

  lemma AliveCanMove(killer: Killer, c: Config, t: State, weight: int)
    requires Inv(c, t) && KilledWithin(killer, t, weight) && t.k.live != {}
    ensures CanMove(killer, c, t)
  {
    hide Step, Inv, EscOf, MovesBy, EscWeight;
    var a := KillerCanMove(killer, c, t);
  }

  /** Once a cancel or the timeout has fired, whatever the schedule, some thread's escalation has
      at most `EscWeight` moves to make before nobody is alive, and it can always make the next
      one: no member has to obey SIGTERM, exit, write or close anything. */
  lemma FiredKillsInEverySchedule(c: Config, acts: seq<Action>, s: State) returns (killer: Killer)
    requires IsRun(c, acts, s) && (s.ch.fired || s.m.late)
    ensures s.k.live != {} ==>
              EscOf(killer, s).Some?
              && forall more | Exec(c, s, more).Some? :: Doomed(killer, c, s, more)
  {
    killer := FiredHasKiller(c, acts, s);
    hide Step, Inv, EscOf, Exec, Doomed;
    if s.k.live != {} {
      forall more | Exec(c, s, more).Some?
        ensures Doomed(killer, c, s, more)
      {
        ScheduleKills(killer, c, s, more);
      }
    }
  }

  /** And the library's own threads bring `run_impl` to its return. */
  lemma FiredRunReturns(c: Config, acts: seq<Action>, s: State)
    returns (more: seq<Action>, t: State)
    requires IsRun(c, acts, s) && (s.ch.fired || s.m.late)
    ensures Exec(c, s, more) == Some(t) && t.r.pc.RDone? && t.k.live == {}
    ensures forall a | a in more :: !a.Env?
  {
    var killer := FiredHasKiller(c, acts, s);
    var first: seq<Action>, u := [], s;
    if s.k.live != {} {
      first, u := KillCompletes(killer, c, s);
    }
    hide Step, Inv, EscOf;
    GroupAbsorbs(c, s, first, u);
    var rest, v := ReturnsOnceDead(c, u);
    GroupAbsorbs(c, u, rest, v);
    ExecAppend(c, s, first, rest);
    more, t := first + rest, v;
  }

  // ----- a cancel that has returned

  /** The slot is cleared only after the wait has ended. */
  ghost predicate ClearedLate(s: State) {
    s.ch.slot.Cleared? ==> s.w.WDone?
  }

  lemma ClearedLateStep(c: Config, s: State, a: Action, s': State)
    requires WaitInv(s) && ClearedLate(s) && Step(c, s, a) == Some(s')
    ensures ClearedLate(s')
  {
    hide EscStep, Do, TreeAlive;
  }

  lemma {:induction false} ClearedLateExec(c: Config, s: State, acts: seq<Action>, t: State)
    requires Inv(c, s) && ClearedLate(s) && Exec(c, s, acts) == Some(t)
    ensures ClearedLate(t)
    decreases |acts|
  {
    hide Step, Inv, ClearedLate;
    if acts == [] {
    } else {
      var s1 := Step(c, s, acts[0]).value;
      InvGivesProgress(c, s);
      ClearedLateStep(c, s, acts[0], s1);
      InvStep(c, s, acts[0], s1);
      ClearedLateExec(c, s1, acts[1..], t);
    }
  }

  /** What a caller of `cancel()` can rely on: once the check after wiring is passed and the
      winning call has returned, nobody of the group is alive - whether it has killed, found the
      tree dead or come after the slot was cleared. */
  lemma ReturnedCancelMeansDead(c: Config, acts: seq<Action>, s: State, id: nat)
    requires IsRun(c, acts, s) && s.h.checked
    requires id in s.ch.calls && s.ch.calls[id].CDone? && s.ch.calls[id].how != Lost
    ensures s.k.live == {}
  {
    NoCancelIsLost(c, acts, s, id);
    InvInit(c);
    FireExec(c, Init(c), acts, s);
    ClearedLateExec(c, Init(c), acts, s);
    InvRun(c, acts, s);
    InvGivesProgress(c, s);
    hide Inv, IsRun, Exec, WinnerInv, GuardInv;
  }
}
