/** From the moment no group member is live - killed by `wait`, by an escalation or gone by
    itself - `run_impl` returns: some thread can always move, and every move brings the
    return nearer, whoever holds the mutex and whatever the monitor still does. */
module Progress {
  import opened Kernel
  import opened Escalation
  import opened Protocol
  import opened Lifecycle
  import opened Handshake

  // ----- the measure

  function EscWeight(e: Esc): nat {
    match e
    case ETerm(grace) => MaxProbes(grace) + 3
    case EPoll(left) => left + 2
    case EKill => 1
    case EDone => 0
  }

  function RunnerWeight(pc: Runner): nat {
    match pc
    case RSpawn => 231
    case RRunning => 230
    case RStarted => 229
    case RWire => 228
    case RLoadCancelled => 227
    case RLoadFired => 226
    case RProbe => 225
    case RStoreFired => 224
    case REscalate(e) => 19 + EscWeight(e)
    case RMonitor => 19
    case RWaitStart => 18
    case RPump => 17
    case RResult => 16
    case RInline => 16
    case RDisarm(_) => 15
    case RClear(_) => 14
    case RStop(_) => 13
    case RSnapTimeout(_) => 12
    case RSnapFired(_, _) => 11
    case RExiting(_, _, _) => 10
    case RExited(_, _, _) => 9
    case UDropRx(_) => 8
    case UDropTx(_) => 7
    case UGuard(_) => 6
    case UEscalate(e, _) => 1 + EscWeight(e)
    case UReap(_) => 1
    case RDone(_) => 0
  }

  function WaiterWeight(w: Waiter): nat {
    match w
    case WNone => 7
    case WSpawnOut => 6
    case WSpawnErr => 5
    case WWait => 4
    case WKill(_) => 3
    case WJoinOut(_) => 2
    case WJoinErr(_) => 1
    case WDone(_) => 0
  }

  function DrainWeight(d: Drain): nat {
    match d
    case DNone => 2
    case DRead(_) => 1
    case DSend(_, _) => 3
    case DEnd(_) => 0
  }

  function MonitorWeight(pc: Monitor): nat {
    match pc
    case MNone => 208
    case MWaiting => 207
    case MProbe => 206
    case MStore => 205
    case MEscalate(e) => EscWeight(e)
    case MDone => 0
  }

  function WinnerWeight(pc: Option<Canceller>): nat {
    match pc
    case None => 210
    case Some(CLocking) => 209
    case Some(CLook) => 208
    case Some(CProbe) => 207
    case Some(CStore) => 206
    case Some(CEscalate(e)) => 1 + EscWeight(e)
    case Some(CUnlock(_)) => 1
    case Some(CDone(_)) => 0
  }

  function IoWeight(k: Group, io: Io): nat {
    3 * |k.out.buf| + 3 * |k.err.buf| + DrainWeight(io.out) + DrainWeight(io.err) + |io.queue|
  }

  /** Unread bytes, chunks on their way, zombies to reap, and how far each thread has come. */
  function Remaining(s: State): nat {
    |s.k.zombies| + RunnerWeight(s.r.pc) + WaiterWeight(s.w) + MonitorWeight(s.m.pc)
    + WinnerWeight(Winner(s)) + IoWeight(s.k, s.io)
  }

  /** A call of `cancel()` after the first: it returns at once. */
  predicate LateCall(s: State, a: Action) {
    a.Cancel? && a.id !in s.ch.calls && s.ch.cancelled
  }

  /** No escalation is left in its returned state. */
  ghost predicate EscInv(s: State) {
    && (s.r.pc.REscalate? || s.r.pc.UEscalate? ==> !s.r.pc.esc.EDone?)
    && (s.m.pc.MEscalate? ==> !s.m.pc.esc.EDone?)
    && (Winner(s).Some? && Winner(s).value.CEscalate? ==> !Winner(s).value.esc.EDone?)
  }

  lemma EscInvStep(c: Config, s: State, a: Action, s': State)
    requires CallInv(s) && EscInv(s) && Step(c, s, a) == Some(s')
    ensures EscInv(s')
  {
    match a
    case Run(flag) => RunEsc(c, s, flag, s');
    case Cancel(id, flag) => CancelEsc(c, s, id, flag, s');
    case _ => hide CallInv, Do, TreeAlive, EscNext, SignalGroup;
  }

  lemma CancelEsc(c: Config, s: State, id: nat, flag: bool, s': State)
    requires CallInv(s) && EscInv(s) && CancelStep(c, s, id, flag) == Some(s')
    ensures EscInv(s')
  {
    hide Do, TreeAlive, EscNext, SignalGroup;
  }

  lemma RunEsc(c: Config, s: State, flag: bool, s': State)
    requires EscInv(s) && RunStep(c, s, flag) == Some(s')
    ensures EscInv(s')
  {
    match PhaseOf(s.r.pc)
    case Wiring => WireEsc(c, s, flag, s');
    case Unwinding => UnwindEsc(s, flag, s');
    case _ => PlainEsc(c, s, flag, s');
  }

  lemma PlainEsc(c: Config, s: State, flag: bool, s': State)
    requires EscInv(s) && RunStep(c, s, flag) == Some(s')
    requires !PhaseOf(s.r.pc).Wiring? && !PhaseOf(s.r.pc).Unwinding?
    ensures EscInv(s')
  {
    RunIsLocal(c, s, flag, s');
    hide WireStep, UnwindStep, Winner;
  }

  lemma WireEsc(c: Config, s: State, flag: bool, s': State)
    requires EscInv(s) && WireStep(c, s, flag) == Some(s')
    ensures EscInv(s')
  {
    hide Do, TreeAlive, EscNext, SignalGroup;
  }

  lemma UnwindEsc(s: State, flag: bool, s': State)
    requires EscInv(s) && UnwindStep(s, flag) == Some(s')
    ensures EscInv(s')
  {
    hide Do, TreeAlive, EscNext, SignalGroup;
  }

  lemma EscDescends(g: Group, e: Esc, late: bool)
    requires !e.EDone? && g.live == {}
    ensures EscWeight(EscStep(g, e, late).1) < EscWeight(e)
    ensures EscStep(g, e, late).0 == g
  {
    DeadSignal(g);
  }

  /** Signals cannot change a group without live members. */
  lemma DeadSignal(g: Group)
    requires g.live == {}
    ensures forall sig :: SignalGroup(g, sig) == g && KillPg(g, sig).0 == g
  {
    assert Slay(g, g.live, None) == g;
  }

  // ----- every move descends

  lemma Descends(c: Config, s: State, a: Action, s': State)
    requires GroupInv(c, s) && HandleInv(c, s) && Step(c, s, a) == Some(s')
    requires s.k.live == {} && !s.r.pc.RSpawn?
    ensures s'.k.live == {} && !s'.r.pc.RSpawn?
    ensures if LateCall(s, a) then Remaining(s') == Remaining(s) else Remaining(s') < Remaining(s)
  {
    GroupStep(c, s, a, s');
    assert Sane(c.cap, s.k) && WaitInv(s) && CallInv(s);
    assert s'.k.live == {} && !s'.r.pc.RSpawn? by { NeverBackToSpawn(c, s, a, s'); }
    DeadSignal(s.k);
    hide GroupInv, Absorbing, HandleInv, Remaining, WaitInv, Sane, CallInv;
    match a
    case Run(flag) => RunDescends(c, s, flag, s');
    case Cancel(id, flag) => CancelDescends(c, s, id, flag, s');
    case Watch(flag) => WatchDescends(s, flag, s');
    case Wait(flag) => WaitDescends(s, flag, s');
    case Copy(x, n, fault) => CopyDescends(c, s, x, n, fault, s');
    case Env(act) => EnvDescends(c, s, act, s');
  }

  lemma NeverBackToSpawn(c: Config, s: State, a: Action, s': State)
    requires Step(c, s, a) == Some(s')
    ensures !s'.r.pc.RSpawn? || s'.r.pc == s.r.pc
  {
    hide EscStep, TreeAlive, Do;
  }

  lemma EnvDescends(c: Config, s: State, act: Act, s': State)
    requires Sane(c.cap, s.k) && EnvStep(c, s, act) == Some(s') && s.k.live == {}
    ensures Remaining(s') < Remaining(s)
  {}

  lemma CopyDescends(c: Config, s: State, x: Stream, n: nat, fault: Fault, s': State)
    requires CopyStep(c, s, x, n, fault) == Some(s')
    ensures Remaining(s') < Remaining(s)
  {
    hide RunnerWeight, WaiterWeight, MonitorWeight, WinnerWeight;
    assert Winner(s') == Winner(s);
    hide Winner;
  }

  lemma WaitDescends(s: State, flag: bool, s': State)
    requires WaitInv(s) && WaitStep(s, flag) == Some(s')
    requires KillPg(s.k, Kill).0 == s.k
    ensures Remaining(s') < Remaining(s)
  {
    hide RunnerWeight, MonitorWeight, WinnerWeight, KillPg;
    assert Winner(s') == Winner(s);
    hide Winner;
  }

  lemma WatchDescends(s: State, flag: bool, s': State)
    requires WatchStep(s, flag) == Some(s') && s.k.live == {}
    ensures Remaining(s') < Remaining(s)
  {
    hide EscStep, TreeAlive;
    if s.m.pc.MEscalate? && !s.m.pc.esc.EDone? {
      EscDescends(s.k, s.m.pc.esc, flag);
    }
  }

  lemma CancelDescends(c: Config, s: State, id: nat, flag: bool, s': State)
    requires CallInv(s) && CancelStep(c, s, id, flag) == Some(s') && s.k.live == {}
    ensures if LateCall(s, Cancel(id, flag)) then Remaining(s') == Remaining(s)
            else Remaining(s') < Remaining(s)
  {
    hide EscStep, TreeAlive;
    if id in s.ch.calls && s.ch.calls[id].CEscalate? && !s.ch.calls[id].esc.EDone? {
      EscDescends(s.k, s.ch.calls[id].esc, flag);
    }
  }

  lemma RunDescends(c: Config, s: State, flag: bool, s': State)
    requires WaitInv(s) && RunStep(c, s, flag) == Some(s')
    requires s.k.live == {} && !s.r.pc.RSpawn?
    ensures Remaining(s') < Remaining(s)
  {
    match PhaseOf(s.r.pc)
    case Beginning => hide WireStep, PumpStep, FinishStep, UnwindStep;
    case Wiring => WireDescends(c, s, flag, s');
    case Pumping => PumpDescends(c, s, flag, s');
    case Finishing => FinishDescends(c, s, flag, s');
    case Unwinding => UnwindDescends(s, flag, s');
  }

  /** A move of the runner alone. */
  ghost predicate Ahead(s: State, s': State) {
    && RunnerWeight(s'.r.pc) < RunnerWeight(s.r.pc)
    && s'.w == s.w && s'.m.pc == s.m.pc && s'.k == s.k && s'.io == s.io
    && s'.ch.calls == s.ch.calls && s'.h.winner == s.h.winner
  }

  lemma AheadDescends(s: State, s': State)
    requires Ahead(s, s')
    ensures Remaining(s') < Remaining(s)
  {}

  lemma WireDescends(c: Config, s: State, flag: bool, s': State)
    requires WireStep(c, s, flag) == Some(s') && s.k.live == {}
    ensures Remaining(s') < Remaining(s)
  {
    hide EscStep, TreeAlive, Remaining;
    if s.r.pc.REscalate? && !s.r.pc.esc.EDone? {
      EscDescends(s.k, s.r.pc.esc, flag);
    }
    AheadDescends(s, s');
  }

  lemma PumpDescends(c: Config, s: State, flag: bool, s': State)
    requires WaitInv(s) && PumpStep(c, s, flag) == Some(s')
    ensures Remaining(s') < Remaining(s)
  {
    PumpIsLocal(c, s, flag, s');
    assert Winner(s') == Winner(s);
    PumpAhead(c, s, flag, s');
    hide WinnerWeight, Winner, PumpStep, RunnerWeight, WaiterWeight, MonitorWeight, IoWeight;
  }

  lemma PumpAhead(c: Config, s: State, flag: bool, s': State)
    requires WaitInv(s) && PumpStep(c, s, flag) == Some(s')
    ensures s'.k == s.k
    ensures RunnerWeight(s'.r.pc) + WaiterWeight(s'.w) + MonitorWeight(s'.m.pc) + IoWeight(s'.k, s'.io)
            < RunnerWeight(s.r.pc) + WaiterWeight(s.w) + MonitorWeight(s.m.pc) + IoWeight(s.k, s.io)
  {}

  lemma FinishDescends(c: Config, s: State, flag: bool, s': State)
    requires FinishStep(c, s, flag) == Some(s')
    ensures Remaining(s') < Remaining(s)
  {
    hide Remaining;
    AheadDescends(s, s');
  }

  lemma UnwindDescends(s: State, flag: bool, s': State)
    requires UnwindStep(s, flag) == Some(s') && s.k.live == {}
    ensures Remaining(s') < Remaining(s)
  {
    hide EscStep, TreeAlive;
    if s.r.pc.UEscalate? && !s.r.pc.esc.EDone? {
      EscDescends(s.k, s.r.pc.esc, flag);
    }
    if s.r.pc.UDropRx? || s.r.pc.UReap? {
      DropDescends(s, flag, s');
    } else {
      hide Remaining;
      AheadDescends(s, s');
    }
    hide UnwindStep;
  }

  lemma DropDescends(s: State, flag: bool, s': State)
    requires UnwindStep(s, flag) == Some(s') && (s.r.pc.UDropRx? || s.r.pc.UReap?)
    ensures Remaining(s') < Remaining(s)
  {
    UnwindIsLocal(s, flag, s');
    assert Winner(s') == Winner(s);
    hide Winner, WinnerWeight, EscStep;
  }

  // ----- some thread can move

  function DrainMove(s: State, x: Stream): Action {
    if s.io.Drain(x).DRead? && s.k.Pipe(x).buf != [] then Copy(x, 1, NoFault) else Copy(x, 0, NoFault)
  }

  function WaitMove(s: State): Action {
    if s.w.WJoinOut? && !s.io.out.DEnd? then DrainMove(s, Stdout)
    else if s.w.WJoinErr? && !s.io.err.DEnd? then DrainMove(s, Stderr)
    else Wait(false)
  }

  /** Whom the return of `run_impl` is waiting for. Nothing here needs a fault, a panic,
      an elapsed deadline or a move of the group. */
  function Mover(s: State): Action {
    match s.r.pc
    case RWire => if s.ch.lock.Some? then Cancel(s.ch.lock.value, false) else Run(false)
    case RClear(_) => if s.ch.lock.Some? then Cancel(s.ch.lock.value, false) else Run(false)
    case RPump => if s.io.queue != [] || s.w.WDone? then Run(false) else WaitMove(s)
    case RResult => if s.w.WDone? then Run(false) else WaitMove(s)
    case RInline => if s.w.WDone? then Run(false) else WaitMove(s)
    case _ => Run(false)
  }

  lemma HolderMoves(c: Config, s: State)
    requires c.cancellable && CallInv(s) && EscInv(s) && s.ch.lock.Some?
    ensures CancelStep(c, s, s.ch.lock.value, false).Some?
    ensures !LateCall(s, Cancel(s.ch.lock.value, false))
  {
    hide EscStep, TreeAlive;
  }

  lemma WaiterMoves(c: Config, s: State)
    requires Sane(c.cap, s.k) && WaitInv(s) && s.k.live == {} && !s.w.WNone? && !s.w.WDone?
    ensures Step(c, s, WaitMove(s)).Some?
  {
    hide Do, KillPg;
  }

  lemma SomeThreadMoves(c: Config, s: State)
    requires GroupInv(c, s) && HandleInv(c, s) && EscInv(s)
    requires s.k.live == {} && !s.r.pc.RSpawn? && !s.r.pc.RDone?
    ensures Step(c, s, Mover(s)).Some? && !Mover(s).Env? && !LateCall(s, Mover(s))
  {
    if (s.r.pc.RWire? || s.r.pc.RClear?) && s.ch.lock.Some? {
      HolderMoves(c, s);
    } else if Mover(s) == Run(false) {
      hide EscStep, TreeAlive, Do;
    } else {
      WaiterMoves(c, s);
    }
  }
}
