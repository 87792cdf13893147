/** src/task.rs `run_impl` and `CancelHandle::cancel`, with `wait` of src/os/unix.rs and
    the drain threads of src/os/mod.rs, as a transition system: one atomic operation a
    step, any interleaving of the runner, any number of cancelling threads, the timeout
    monitor, the wait thread, the two drains, and the process group. */
module Protocol {
  import opened Kernel
  import opened Events
  import opened Escalation
  import Machine

  /** `capture`, `timeout` and `cancellable` are the branches taken by this run;
      `cap` is the capacity of a pipe. */
  datatype Config = Config(pid: Pid, capture: bool, timeout: bool, cancellable: bool, cap: nat)

  /** The runner, by the next operation of `run_impl`. The `U` states are the drops that
      run on the way out, in order, whether by return, by `?` or by unwinding. */
  datatype Runner =
    | RSpawn
    | RRunning
    | RStarted
    | RWire
    | RLoadCancelled
    | RLoadFired
    | RProbe
    | RStoreFired
    | REscalate(esc: Esc)
    | RMonitor
    | RWaitStart
    | RPump
    | RResult
    | RInline
    | RDisarm(code: int)
    | RClear(code: int)
    | RStop(code: int)
    | RSnapTimeout(code: int)
    | RSnapFired(code: int, late: bool)
    | RExiting(code: int, late: bool, fired: bool)
    | RExited(code: int, late: bool, fired: bool)
    | UDropRx(outcome: Outcome)
    | UDropTx(outcome: Outcome)
    | UGuard(outcome: Outcome)
    | UEscalate(esc: Esc, outcome: Outcome)
    | UReap(outcome: Outcome)
    | RDone(outcome: Outcome)

  /** The `Option<KillHandle>` of the cancel handle. `Unwired` and `Cleared` are both
      `None` to the code; telling them apart is history. */
  datatype Slot = Unwired | Wired | Cleared

  /** How one `cancel()` call ended. */
  datatype How = Lost | SawNone(slot: Slot) | SawDead | Fired

  datatype Canceller =
    | CLocking
    | CLook
    | CProbe
    | CStore
    | CEscalate(esc: Esc)
    | CUnlock(how: How)
    | CDone(how: How)

  datatype Monitor = MNone | MWaiting | MProbe | MStore | MEscalate(esc: Esc) | MDone

  /** `res` is the result of `child.wait()`: an exit code, or an error. */
  datatype Waiter =
    | WNone
    | WSpawnOut
    | WSpawnErr
    | WWait
    | WKill(res: Option<int>)
    | WJoinOut(res: Option<int>)
    | WJoinErr(res: Option<int>)
    | WDone(res: Option<int>)

  datatype Drain = DNone | DRead(num: nat) | DSend(num: nat, bytes: seq<Byte>) | DEnd(eof: bool)

  /** What the monitor's receiver can find: nothing yet, the stop message, a disconnect. */
  datatype Stop = Open | Sent | Disconnected

  /** Bookkeeping the code does not have: which call won the swap, whether the check after
      wiring has been passed, whether it found the tree dead, escalations begun. */
  datatype History = History(winner: Option<nat>, checked: bool, sawDead: bool, escalations: nat)

  /** The runner's locals: program counter, `machine`, `kill_guard.armed`, events emitted. */
  datatype RunnerState = RunnerState(pc: Runner, machine: Machine.State, armed: bool,
                                     trace: seq<Event>)

  /** `CancelHandle`, the holder of its mutex, and the calls of `cancel()` made so far. */
  datatype Handle = Handle(cancelled: bool, fired: bool, slot: Slot, lock: Option<nat>,
                           calls: map<nat, Canceller>)

  /** The monitor thread, its `timed_out` flag, and what its receiver can find. */
  datatype MonitorState = MonitorState(pc: Monitor, late: bool, stop: Stop)

  /** The two drains, and the chunk channel between them and the runner. */
  datatype Io = Io(out: Drain, err: Drain, rxOpen: bool, queue: seq<ChunkMsg>)
  {
    function Drain(x: Stream): Drain {
      if x.Stdout? then out else err
    }

    function WithDrain(x: Stream, d: Drain): Io {
      if x.Stdout? then this.(out := d) else this.(err := d)
    }
  }

  datatype State = State(k: Group, r: RunnerState, ch: Handle, m: MonitorState, w: Waiter,
                         io: Io, h: History)

  /** A fresh cancel handle and nothing spawned. */
  function Init(c: Config): State {
    State(Unborn(c.pid),
          RunnerState(RSpawn, Machine.Created, false, []),
          Handle(false, false, Unwired, None, map[]),
          MonitorState(MNone, false, Open),
          WNone,
          Io(DNone, DNone, true, []),
          History(None, false, false, 0))
  }

  datatype Fault = NoFault | Interrupted | Broken

  /** `flag` resolves what the environment decides: spawn refused, callback panics,
      deadline passed, wait fails. */
  datatype Action =
    | Run(flag: bool)
    | Cancel(id: nat, flag: bool)
    | Watch(flag: bool)
    | Wait(flag: bool)
    | Copy(x: Stream, n: nat, fault: Fault)
    | Env(act: Act)

  function Goto(s: State, pc: Runner): State {
    s.(r := s.r.(pc := pc))
  }

  function Count(h: History, e: Esc): History {
    if e.ETerm? then h.(escalations := h.escalations + 1) else h
  }

  function Reason(late: bool, fired: bool): ExitReason {
    if late then ExitReason.TimedOut else if fired then CancelRequested else NaturalExit
  }

  function Code(code: int, late: bool, fired: bool): int {
    if late || fired then -1 else code
  }

  function Result(late: bool, fired: bool): Outcome {
    if late then Err(AerError.TimedOut) else if fired then Err(Cancelled) else Ok
  }

  /** src/task.rs:223-242 */
  function BeginStep(c: Config, s: State, flag: bool): Option<State> {
    match s.r.pc
    case RSpawn =>
      Some(if flag then Goto(s, RDone(Err(SpawnFailed)))
           else s.(k := Spawned(c.pid), r := s.r.(armed := true, pc := RRunning)))
    case RRunning =>
      Some(if Machine.Legal(s.r.machine, Machine.Running)
           then s.(r := s.r.(machine := Machine.Running, pc := RStarted))
           else Goto(s, UGuard(Err(InvalidStateTransition))))
    case RStarted =>
      Some(s.(r := s.r.(trace := s.r.trace + [Started(c.pid)],
                        pc := if flag then UGuard(Panicked)
                              else if c.cancellable then RWire
                              else RMonitor)))
    case _ => None
  }

  function Checked(s: State): State {
    Goto(s, RMonitor).(h := s.h.(checked := true))
  }

  /** src/task.rs:248-259 */
  function WireStep(c: Config, s: State, flag: bool): Option<State> {
    match s.r.pc
    case RWire =>
      if s.ch.lock.Some? then None
      else Some(Goto(s, RLoadCancelled).(ch := s.ch.(slot := Wired)))
    case RLoadCancelled => Some(if s.ch.cancelled then Goto(s, RLoadFired) else Checked(s))
    case RLoadFired => Some(if s.ch.fired then Checked(s) else Goto(s, RProbe))
    case RProbe =>
      Some(if TreeAlive(s.k) then Goto(s, RStoreFired)
           else Checked(s.(h := s.h.(sawDead := true))))
    case RStoreFired =>
      Some(Goto(s, REscalate(ETerm(KILL_GRACE))).(ch := s.ch.(fired := true)))
    case REscalate(e) =>
      if e.EDone? then None
      else
        var (g, e1) := EscStep(s.k, e, flag);
        var s1 := s.(k := g, h := Count(s.h, e));
        Some(if e1.EDone? then Checked(s1) else Goto(s1, REscalate(e1)))
    case _ => None
  }

  /** src/task.rs:261-330 */
  function PumpStep(c: Config, s: State, flag: bool): Option<State> {
    match s.r.pc
    case RMonitor =>
      Some(Goto(s, RWaitStart).(m := s.m.(pc := if c.timeout then MWaiting else MNone)))
    case RWaitStart =>
      Some(Goto(s, if c.capture then RPump else RInline).(w := WSpawnOut))
    case RPump =>
      if s.io.queue != [] then
        Some(s.(r := s.r.(trace := s.r.trace + [Chunk(s.io.queue[0])],
                          pc := if flag then UDropRx(Panicked) else RPump),
                io := s.io.(queue := s.io.queue[1..])))
      else if s.io.out.DEnd? && s.io.err.DEnd? then Some(Goto(s, RResult))
      else None
    case RResult =>
      (match s.w
       case WDone(Some(code)) => Some(Goto(s, RDisarm(code)))
       case WDone(None) => Some(Goto(s, UDropRx(Err(WaitFailed))))
       case _ => None)
    case RInline =>
      (match s.w
       case WDone(Some(code)) => Some(Goto(s, RDisarm(code)))
       case WDone(None) => Some(Goto(s, UDropTx(Err(WaitFailed))))
       case _ => None)
    case _ => None
  }

  /** src/task.rs:332-379 */
  function FinishStep(c: Config, s: State, flag: bool): Option<State> {
    match s.r.pc
    case RDisarm(code) =>
      Some(s.(r := s.r.(armed := false, pc := if c.cancellable then RClear(code) else RStop(code))))
    case RClear(code) =>
      if s.ch.lock.Some? then None else Some(Goto(s, RStop(code)).(ch := s.ch.(slot := Cleared)))
    case RStop(code) => Some(Goto(s, RSnapTimeout(code)).(m := s.m.(stop := Sent)))
    case RSnapTimeout(code) => Some(Goto(s, RSnapFired(code, s.m.late)))
    case RSnapFired(code, late) =>
      Some(Goto(s, RExiting(code, late, c.cancellable && s.ch.fired)))
    case RExiting(code, late, fired) =>
      Some(if Machine.Legal(s.r.machine, Machine.Exited)
           then s.(r := s.r.(machine := Machine.Exited, pc := RExited(code, late, fired)))
           else Goto(s, UDropTx(Err(InvalidStateTransition))))
    case RExited(code, late, fired) =>
      Some(s.(r := s.r.(trace := s.r.trace + [Exited(Code(code, late, fired), Reason(late, fired))],
                        pc := UDropTx(if flag then Panicked else Result(late, fired)))))
    case _ => None
  }

  /** The drops: the chunk receiver, the monitor's sender, the guard (src/task.rs:37-52). */
  function UnwindStep(s: State, flag: bool): Option<State> {
    match s.r.pc
    case UDropRx(o) => Some(Goto(s, UDropTx(o)).(io := s.io.(rxOpen := false, queue := [])))
    case UDropTx(o) =>
      Some(Goto(s, UGuard(o)).(m := s.m.(stop := if s.m.stop.Open? then Disconnected else s.m.stop)))
    case UGuard(o) => Some(Goto(s, if s.r.armed then UEscalate(ETerm(0), o) else RDone(o)))
    case UEscalate(e, o) =>
      if e.EDone? then None
      else
        var (g, e1) := EscStep(s.k, e, flag);
        Some(Goto(s, if e1.EDone? then UReap(o) else UEscalate(e1, o))
              .(k := g, h := Count(s.h, e)))
    case UReap(o) =>
      if s.k.root in s.k.live then None
      else if s.k.root in s.k.zombies then Some(Goto(s, RDone(o)).(k := Do(s.k, WaitRoot)))
      else Some(Goto(s, RDone(o)))
    case _ => None
  }

  datatype Phase = Beginning | Wiring | Pumping | Finishing | Unwinding

  function PhaseOf(r: Runner): Phase {
    match r
    case RSpawn | RRunning | RStarted => Beginning
    case RWire | RLoadCancelled | RLoadFired | RProbe | RStoreFired | REscalate(_) => Wiring
    case RMonitor | RWaitStart | RPump | RResult | RInline => Pumping
    case RDisarm(_) | RClear(_) | RStop(_) | RSnapTimeout(_) | RSnapFired(_, _)
      | RExiting(_, _, _) | RExited(_, _, _) => Finishing
    case UDropRx(_) | UDropTx(_) | UGuard(_) | UEscalate(_, _) | UReap(_) | RDone(_) => Unwinding
  }

  function RunStep(c: Config, s: State, flag: bool): Option<State> {
    match PhaseOf(s.r.pc)
    case Beginning => BeginStep(c, s, flag)
    case Wiring => WireStep(c, s, flag)
    case Pumping => PumpStep(c, s, flag)
    case Finishing => FinishStep(c, s, flag)
    case Unwinding => UnwindStep(s, flag)
  }

  function SetCall(ch: Handle, id: nat, pc: Canceller): Handle {
    ch.(calls := ch.calls[id := pc])
  }

  /** One operation of a call of `cancel()` (src/task.rs:103-118). The swap is the first. */
  function CancelStep(c: Config, s: State, id: nat, flag: bool): Option<State> {
    var ch := s.ch;
    if !c.cancellable then None
    else if id !in ch.calls then
      Some(if ch.cancelled then s.(ch := SetCall(ch, id, CDone(Lost)))
           else s.(ch := SetCall(ch, id, CLocking).(cancelled := true),
                   h := s.h.(winner := Some(id))))
    else
      match ch.calls[id]
      case CLocking =>
        if ch.lock.Some? then None
        else Some(s.(ch := SetCall(ch, id, CLook).(lock := Some(id))))
      case CLook =>
        Some(s.(ch := SetCall(ch, id, if ch.slot.Wired? then CProbe else CUnlock(SawNone(ch.slot)))))
      case CProbe =>
        Some(s.(ch := SetCall(ch, id, if TreeAlive(s.k) then CStore else CUnlock(SawDead))))
      case CStore =>
        Some(s.(ch := SetCall(ch, id, CEscalate(ETerm(KILL_GRACE))).(fired := true)))
      case CEscalate(e) =>
        if e.EDone? then None
        else
          var (g, e1) := EscStep(s.k, e, flag);
          Some(s.(k := g, h := Count(s.h, e),
                  ch := SetCall(ch, id, if e1.EDone? then CUnlock(Fired) else CEscalate(e1))))
      case CUnlock(how) => Some(s.(ch := SetCall(ch, id, CDone(how)).(lock := None)))
      case CDone(_) => None
  }

  /** src/task.rs:268-280. The monitor wakes by its deadline only while nothing has been
      sent to it. */
  function WatchStep(s: State, flag: bool): Option<State> {
    match s.m.pc
    case MNone => None
    case MWaiting =>
      if !s.m.stop.Open? then Some(s.(m := s.m.(pc := MDone)))
      else if flag then Some(s.(m := s.m.(pc := MProbe)))
      else None
    case MProbe => Some(s.(m := s.m.(pc := if TreeAlive(s.k) then MStore else MDone)))
    case MStore => Some(s.(m := s.m.(late := true, pc := MEscalate(ETerm(KILL_GRACE)))))
    case MEscalate(e) =>
      if e.EDone? then None
      else
        var (g, e1) := EscStep(s.k, e, flag);
        Some(s.(k := g, h := Count(s.h, e),
                m := s.m.(pc := if e1.EDone? then MDone else MEscalate(e1))))
    case MDone => None
  }

  /** src/os/unix.rs:64-106, on its own thread when capturing, otherwise inside the runner's
      `RInline`. */
  function WaitStep(s: State, flag: bool): Option<State> {
    match s.w
    case WNone => None
    case WSpawnOut => Some(s.(io := s.io.(out := DRead(0)), w := WSpawnErr))
    case WSpawnErr => Some(s.(io := s.io.(err := DRead(0)), w := WWait))
    case WWait =>
      if flag then Some(s.(w := WKill(None)))
      else if s.k.root in s.k.live then None
      else if s.k.root in s.k.zombies then
        Some(s.(k := Do(s.k, WaitRoot), w := WKill(Some(ExitCode(s.k.status)))))
      else Some(s.(w := WKill(None)))
    case WKill(res) => Some(s.(k := KillPg(s.k, Kill).0, w := WJoinOut(res)))
    case WJoinOut(res) => if s.io.out.DEnd? then Some(s.(w := WJoinErr(res))) else None
    case WJoinErr(res) => if s.io.err.DEnd? then Some(s.(w := WDone(res))) else None
    case WDone(_) => None
  }

  /** src/os/mod.rs:107-123. With a sink, any read error ends the loop and a failed send
      does not; without one, `io::copy` retries an interrupted read, so that is no step.
      A fault is one of a read. */
  function CopyStep(c: Config, s: State, x: Stream, n: nat, fault: Fault): Option<State> {
    match s.io.Drain(x)
    case DNone => None
    case DRead(num) =>
      var p := s.k.Pipe(x);
      if fault.Interrupted? && !c.capture then None
      else if !fault.NoFault? then Some(s.(io := s.io.WithDrain(x, DEnd(false))))
      else if n == 0 then
        if p.buf == [] && p.writers == {} then Some(s.(io := s.io.WithDrain(x, DEnd(true)))) else None
      else if n <= |p.buf| && n <= CHUNK then
        Some(s.(k := Do(s.k, Read(x, n)),
                io := s.io.WithDrain(x, if c.capture then DSend(num, p.buf[..n]) else DRead(num))))
      else None
    case DSend(num, bytes) =>
      var io := s.io.WithDrain(x, DRead(num + 1));
      if !fault.NoFault? then None
      else
        Some(s.(io := if s.io.rxOpen then io.(queue := s.io.queue + [ChunkMsg(x, num, bytes)]) else io))
    case DEnd(_) => None
  }

  /** What the members and init do by themselves. Nobody can write into a pipe whose
      reader is gone. */
  function EnvStep(c: Config, s: State, act: Act): Option<State> {
    if && Can(c.cap, s.k, act)
       && (act.Fork? || act.Exit? || act.Reap? || act.Write? || act.Close?)
       && (act.Write? ==> !s.io.Drain(act.x).DEnd?)
    then Some(s.(k := Do(s.k, act)))
    else None
  }

  function Step(c: Config, s: State, a: Action): Option<State> {
    match a
    case Run(flag) => RunStep(c, s, flag)
    case Cancel(id, flag) => CancelStep(c, s, id, flag)
    case Watch(flag) => WatchStep(s, flag)
    case Wait(flag) => WaitStep(s, flag)
    case Copy(x, n, fault) => CopyStep(c, s, x, n, fault)
    case Env(act) => EnvStep(c, s, act)
  }

  /** Carries out `acts` one after the other; None when one of them is not possible.
      A run is a list of actions possible from `Init`: any finite interleaving. */
  function Exec(c: Config, s: State, acts: seq<Action>): Option<State>
    decreases |acts|
  {
    if acts == [] then Some(s)
    else
      match Step(c, s, acts[0])
      case None => None
      case Some(s1) => Exec(c, s1, acts[1..])
  }

  /** `acts` is a run of `c` that ends in `s`. */
  ghost predicate IsRun(c: Config, acts: seq<Action>, s: State) {
    Exec(c, Init(c), acts) == Some(s)
  }

  lemma {:induction false} ExecAppend(c: Config, s: State, first: seq<Action>, next: seq<Action>)
    ensures Exec(c, s, first + next)
            == if Exec(c, s, first).Some? then Exec(c, Exec(c, s, first).value, next) else None
    decreases |first|
  {
    if first == [] {
      assert first + next == next;
    } else {
      assert (first + next)[1..] == first[1..] + next;
      match Step(c, s, first[0])
      case None =>
      case Some(s1) => ExecAppend(c, s1, first[1..], next);
    }
  }
}
