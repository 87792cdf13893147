/** Output capture does not change execution semantics: the runs with capture in which the
    chunk callback does not panic, their chunk events erased, are exactly the runs without. */
module Capture {
  import opened Kernel
  import opened Events
  import opened Escalation
  import opened Protocol
  import opened Lifecycle

  function Off(c: Config): Config {
    c.(capture := false)
  }

  /** The trace without its chunk events. */
  function EraseTrace(t: seq<Event>): seq<Event> {
    if t == [] then []
    else EraseTrace(t[..|t| - 1]) + (if t[|t| - 1].Chunk? then [] else [t[|t| - 1]])
  }

  function ErasePc(pc: Runner): Runner {
    match pc
    case RPump => RInline
    case RResult => RInline
    case UDropRx(o) => UDropTx(o)
    case _ => pc
  }

  function EraseDrain(d: Drain): Drain {
    if d.DRead? || d.DSend? then DRead(0) else d
  }

  /** The state of the capture-off run that a capture-on state corresponds to: what is only
      there to deliver chunks is gone, the group and all flags are the same. */
  function Erase(s: State): State {
    s.(r := s.r.(pc := ErasePc(s.r.pc), trace := EraseTrace(s.r.trace)),
       io := Io(EraseDrain(s.io.out), EraseDrain(s.io.err), true, []))
  }

  predicate ChunkPanics(s: State, a: Action) {
    a.Run? && s.r.pc.RPump? && s.io.queue != [] && a.flag
  }

  /** A read is interrupted by a signal. */
  predicate Interrupts(a: Action) {
    a.Copy? && a.fault.Interrupted?
  }

  predicate Disturbed(s: State, a: Action) {
    ChunkPanics(s, a) || Interrupts(a)
  }

  /** The chunk callback never panics along `acts`. */
  ghost predicate Unpanicked(c: Config, s: State, acts: seq<Action>)
    decreases |acts|
  {
    acts != [] && Step(c, s, acts[0]).Some? ==>
      !ChunkPanics(s, acts[0]) && Unpanicked(c, Step(c, s, acts[0]).value, acts[1..])
  }

  ghost predicate Uninterrupted(acts: seq<Action>) {
    forall a | a in acts :: !Interrupts(a)
  }

  ghost predicate Clean(c: Config, s: State, acts: seq<Action>)
    decreases |acts|
  {
    acts != [] && Step(c, s, acts[0]).Some? ==>
      !Disturbed(s, acts[0]) && Clean(c, Step(c, s, acts[0]).value, acts[1..])
  }

  lemma EraseEmit(t: seq<Event>, e: Event)
    ensures EraseTrace(t + [e]) == if e.Chunk? then EraseTrace(t) else EraseTrace(t) + [e]
  {
    assert (t + [e])[..|t|] == t;
  }

  // ----- with capture ==> without

  /** The steps that only move chunks, or drop their receiver. */
  predicate Silent(s: State, a: Action) {
    match a
    case Run(_) => s.r.pc.RPump? || s.r.pc.UDropRx?
    case Copy(x, _, _) => s.io.Drain(x).DSend?
    case _ => false
  }

  /** Every other capture-on step is the same step of the capture-off run. */
  ghost predicate Matched(c: Config, s: State, a: Action, s': State) {
    if Silent(s, a) then Erase(s') == Erase(s)
    else Step(Off(c), Erase(s), a) == Some(Erase(s'))
  }

  lemma EraseStep(c: Config, s: State, a: Action, s': State)
    requires c.capture && Step(c, s, a) == Some(s') && !Disturbed(s, a)
    requires !s.r.pc.RInline?
    ensures Matched(c, s, a, s') && !s'.r.pc.RInline?
  {
    match a
    case Run(flag) => EraseRun(c, s, flag, s');
    case Copy(x, n, fault) => EraseCopy(c, s, x, n, fault, s');
    case _ =>
      EraseOther(c, s, a, s');
      hide Step, Matched;
  }

  lemma EraseOther(c: Config, s: State, a: Action, s': State)
    requires c.capture && Step(c, s, a) == Some(s') && !a.Run? && !a.Copy?
    ensures Matched(c, s, a, s') && s'.r.pc == s.r.pc
  {
    hide EscStep, Do, TreeAlive, EraseTrace, RunStep, CopyStep, ErasePc;
    if a.Wait? {
      EraseWait(c, s, a.flag, s');
      hide WaitStep;
    }
  }

  lemma EraseWait(c: Config, s: State, flag: bool, s': State)
    requires c.capture && WaitStep(s, flag) == Some(s')
    ensures Matched(c, s, Wait(flag), s') && s'.r.pc == s.r.pc
  {
    hide EscStep, Do, TreeAlive, EraseTrace, RunStep, CopyStep, ErasePc;
  }

  lemma EraseCopy(c: Config, s: State, x: Stream, n: nat, fault: Fault, s': State)
    requires c.capture && CopyStep(c, s, x, n, fault) == Some(s') && !fault.Interrupted?
    ensures Matched(c, s, Copy(x, n, fault), s')
    ensures s'.r.pc == s.r.pc
  {
    hide Do, EraseTrace;
  }

  lemma EraseRun(c: Config, s: State, flag: bool, s': State)
    requires c.capture && RunStep(c, s, flag) == Some(s') && !Disturbed(s, Run(flag))
    requires !s.r.pc.RInline?
    ensures Matched(c, s, Run(flag), s') && !s'.r.pc.RInline?
  {
    match PhaseOf(s.r.pc)
    case Beginning => EraseBegin(c, s, flag, s');
    case Wiring => EraseWire(c, s, flag, s');
    case Pumping => ErasePump(c, s, flag, s');
    case Finishing => EraseFinish(c, s, flag, s');
    case Unwinding => EraseUnwind(c, s, flag, s');
  }

  lemma EraseBegin(c: Config, s: State, flag: bool, s': State)
    requires c.capture && BeginStep(c, s, flag) == Some(s')
    ensures Matched(c, s, Run(flag), s') && !s'.r.pc.RInline?
  {
    EraseEmit(s.r.trace, Started(c.pid));
    hide EraseTrace;
  }

  lemma EraseWire(c: Config, s: State, flag: bool, s': State)
    requires c.capture && WireStep(c, s, flag) == Some(s')
    ensures Matched(c, s, Run(flag), s') && !s'.r.pc.RInline?
  {
    hide EraseTrace, EscStep, TreeAlive, BeginStep, PumpStep, FinishStep, UnwindStep, EraseDrain;
  }

  lemma ErasePump(c: Config, s: State, flag: bool, s': State)
    requires c.capture && PumpStep(c, s, flag) == Some(s') && !Disturbed(s, Run(flag))
    requires !s.r.pc.RInline?
    ensures Matched(c, s, Run(flag), s') && !s'.r.pc.RInline?
  {
    if s.r.pc.RPump? && s.io.queue != [] {
      EraseEmit(s.r.trace, Chunk(s.io.queue[0]));
    }
    hide EraseTrace, BeginStep, WireStep, FinishStep, UnwindStep;
  }

  lemma EraseFinish(c: Config, s: State, flag: bool, s': State)
    requires c.capture && FinishStep(c, s, flag) == Some(s')
    ensures Matched(c, s, Run(flag), s') && !s'.r.pc.RInline?
  {
    if s.r.pc.RExited? {
      EraseReport(c, s, flag, s');
    } else {
      EraseClose(c, s, flag, s');
    }
    hide Matched, FinishStep, EraseTrace, Code, Reason, Result, BeginStep, WireStep, PumpStep,
      UnwindStep, EraseDrain;
  }

  lemma EraseClose(c: Config, s: State, flag: bool, s': State)
    requires c.capture && FinishStep(c, s, flag) == Some(s') && !s.r.pc.RExited?
    ensures Matched(c, s, Run(flag), s') && !s'.r.pc.RInline?
  {
    hide EraseTrace, Code, Reason, Result, BeginStep, WireStep, PumpStep, UnwindStep, EraseDrain;
  }

  lemma EraseReport(c: Config, s: State, flag: bool, s': State)
    requires c.capture && FinishStep(c, s, flag) == Some(s') && s.r.pc.RExited?
    ensures Matched(c, s, Run(flag), s') && !s'.r.pc.RInline?
  {
    EraseEmit(s.r.trace, Exited(Code(s.r.pc.code, s.r.pc.late, s.r.pc.fired),
                                Reason(s.r.pc.late, s.r.pc.fired)));
    hide EraseTrace, Code, Reason, Result;
  }

  lemma EraseUnwind(c: Config, s: State, flag: bool, s': State)
    requires c.capture && UnwindStep(s, flag) == Some(s')
    ensures Matched(c, s, Run(flag), s') && !s'.r.pc.RInline?
  {
    hide EraseTrace, EscStep, Do;
  }

  /** `thin` is `acts` with some actions left out. */
  ghost predicate Thinned(thin: seq<Action>, acts: seq<Action>)
    decreases |acts|
  {
    if acts == [] then thin == []
    else
      Thinned(thin, acts[1..]) || (thin != [] && thin[0] == acts[0] && Thinned(thin[1..], acts[1..]))
  }

  /** A capturing drain takes an interrupted read for a broken one. */
  function Relabel(a: Action): Action {
    if Interrupts(a) then a.(fault := Broken) else a
  }

  function Relabelled(acts: seq<Action>): seq<Action>
    decreases |acts|
  {
    if acts == [] then [] else [Relabel(acts[0])] + Relabelled(acts[1..])
  }

  lemma RelabelStep(c: Config, s: State, a: Action, s': State)
    requires c.capture && Step(c, s, a) == Some(s') && !ChunkPanics(s, a) && !s.r.pc.RInline?
    ensures Matched(c, s, Relabel(a), s') && !s'.r.pc.RInline?
    ensures Silent(s, Relabel(a)) <==> Silent(s, a)
  {
    assert Step(c, s, Relabel(a)) == Some(s') by {
      hide RunStep, CancelStep, WatchStep, WaitStep, EnvStep, Do;
    }
    EraseStep(c, s, Relabel(a), s');
    hide Step, Matched;
  }

  lemma {:induction false} EraseRuns(c: Config, s: State, acts: seq<Action>, t: State)
    returns (thin: seq<Action>)
    requires c.capture && Exec(c, s, acts) == Some(t) && Unpanicked(c, s, acts) && !s.r.pc.RInline?
    ensures Exec(Off(c), Erase(s), thin) == Some(Erase(t)) && Thinned(thin, Relabelled(acts))
    decreases |acts|
  {
    hide Step, Erase, Silent, Relabel, ChunkPanics;
    if acts == [] {
      return [];
    }
    var s1 := Step(c, s, acts[0]).value;
    RelabelStep(c, s, acts[0], s1);
    var rest := EraseRuns(c, s1, acts[1..], t);
    assert Relabelled(acts)[1..] == Relabelled(acts[1..]);
    thin := rest;
    if !Silent(s, acts[0]) {
      thin := [Relabel(acts[0])] + rest;
      assert thin[1..] == rest;
    }
  }

  /** Every capture-on run whose chunk callback does not panic, its chunk events erased, is a
      capture-off run with the same moves of everybody else: the same group, flags, Started,
      Exited and outcome. Where a signal interrupted a read, the capture-off run has a broken
      one. */
  lemma CaptureOnIsCaptureOff(c: Config, acts: seq<Action>, t: State) returns (thin: seq<Action>)
    requires c.capture && IsRun(c, acts, t) && Unpanicked(c, Init(c), acts)
    ensures IsRun(Off(c), thin, Erase(t)) && Thinned(thin, Relabelled(acts))
    ensures t.r.pc.RDone? ==> Erase(t).r.pc == t.r.pc
  {
    thin := EraseRuns(c, Init(c), acts, t);
    assert Erase(Init(c)) == Init(Off(c));
  }

  // ----- without capture ==> with

  /** A capture-on state in which nothing is on its way to the callback. */
  ghost predicate Quiet(s: State) {
    && s.io.queue == [] && !s.io.out.DSend? && !s.io.err.DSend?
    && !s.r.pc.RInline? && !s.r.pc.RResult? && !s.r.pc.UDropRx?
    && (s.r.pc.RPump? ==> s.io.rxOpen)
    && (!s.w.WNone? && !s.w.WDone? ==> s.r.pc.RPump?)
    && (BeforeWait(s.r.pc) ==> s.w.WNone? && s.io.rxOpen)
    && (s.io.out.DRead? || s.io.err.DRead? ==> !s.w.WNone? && !s.w.WDone?)
    && (s.w.WDone? ==> s.io.out.DEnd? && s.io.err.DEnd?)
    && (s.w.WJoinErr? ==> s.io.out.DEnd?)
  }

  /** The capture-off steps that the capture-on run takes in one step. */
  predicate Direct(s: State, b: Action) {
    match b
    case Run(_) => !s.r.pc.RPump?
    case Copy(x, n, fault) => !(fault.NoFault? && n > 0)
    case _ => true
  }

  /** A direct step is possible with capture when it is possible without. */
  lemma DirectPossible(c: Config, s: State, b: Action)
    requires c.capture && Quiet(s) && Direct(s, b) && Step(Off(c), Erase(s), b).Some?
    ensures Step(c, s, b).Some? && !Disturbed(s, b) && !Silent(s, b)
  {
    match b
    case Run(flag) => RunPossible(c, s, flag);
    case Copy(x, n, fault) => hide EscStep, Do, TreeAlive, EraseTrace, RunStep;
    case Cancel(_, _) => hide EscStep, Do, TreeAlive, EraseTrace, RunStep, CopyStep, WaitStep;
    case Watch(_) => hide EscStep, Do, TreeAlive, EraseTrace, RunStep, CopyStep, WaitStep;
    case Wait(_) => hide EscStep, Do, TreeAlive, EraseTrace, RunStep, CopyStep;
    case Env(_) => hide EscStep, Do, TreeAlive, EraseTrace, RunStep, CopyStep, WaitStep;
  }

  lemma RunPossible(c: Config, s: State, flag: bool)
    requires c.capture && Quiet(s) && !s.r.pc.RPump? && RunStep(Off(c), Erase(s), flag).Some?
    ensures RunStep(c, s, flag).Some?
  {
    assert PhaseOf(ErasePc(s.r.pc)) == PhaseOf(s.r.pc);
    match PhaseOf(s.r.pc)
    case Beginning => hide EscStep, Do, TreeAlive, EraseTrace, WireStep, PumpStep, FinishStep, UnwindStep;
    case Wiring => hide EscStep, Do, TreeAlive, EraseTrace, BeginStep, PumpStep, FinishStep, UnwindStep;
    case Pumping => hide EscStep, Do, TreeAlive, EraseTrace, BeginStep, WireStep, FinishStep, UnwindStep;
    case Finishing => hide EscStep, Do, TreeAlive, EraseTrace, BeginStep, WireStep, PumpStep, UnwindStep;
    case Unwinding => hide EscStep, Do, TreeAlive, EraseTrace, BeginStep, WireStep, PumpStep, FinishStep;
  }

  lemma DirectQuiet(c: Config, s: State, b: Action, s': State)
    requires c.capture && Quiet(s) && Direct(s, b) && Step(c, s, b) == Some(s')
    ensures Quiet(s')
  {
    match b
    case Run(flag) => RunQuiet(c, s, flag, s');
    case _ => hide EscStep, Do, TreeAlive, RunStep;
  }

  lemma RunQuiet(c: Config, s: State, flag: bool, s': State)
    requires c.capture && Quiet(s) && !s.r.pc.RPump? && RunStep(c, s, flag) == Some(s')
    ensures Quiet(s')
  {
    if PhaseOf(s.r.pc).Pumping? {
      PumpQuiet(c, s, flag, s');
    } else {
      QuietFrame(c, s, flag, s');
      hide RunStep;
    }
  }

  lemma PumpQuiet(c: Config, s: State, flag: bool, s': State)
    requires c.capture && Quiet(s) && !s.r.pc.RPump? && PumpStep(c, s, flag) == Some(s')
    ensures Quiet(s')
  {}

  lemma QuietFrame(c: Config, s: State, flag: bool, s': State)
    requires RunStep(c, s, flag) == Some(s') && !PhaseOf(s.r.pc).Pumping? && !s.r.pc.UDropRx?
    ensures s'.io == s.io && s'.w == s.w
    ensures BeforeWait(s'.r.pc) ==> BeforeWait(s.r.pc)
    ensures !s'.r.pc.RInline? && !s'.r.pc.RResult? && !s'.r.pc.UDropRx? && !s'.r.pc.RPump?
  {
    QuietPc(c, s, flag, s');
    hide EscStep, Do, TreeAlive, BeforeWait;
  }

  lemma QuietPc(c: Config, s: State, flag: bool, s': State)
    requires RunStep(c, s, flag) == Some(s') && !PhaseOf(s.r.pc).Pumping? && !s.r.pc.UDropRx?
    ensures BeforeWait(s'.r.pc) ==> BeforeWait(s.r.pc)
    ensures !s'.r.pc.RInline? && !s'.r.pc.RResult? && !s'.r.pc.UDropRx? && !s'.r.pc.RPump?
  {
    match PhaseOf(s.r.pc)
    case Finishing => FinishPc(c, s, flag, s');
    case Unwinding => UnwindPc(s, flag, s');
    case _ => hide EscStep, Do, TreeAlive, FinishStep, UnwindStep;
  }

  lemma FinishPc(c: Config, s: State, flag: bool, s': State)
    requires FinishStep(c, s, flag) == Some(s')
    ensures PhaseOf(s'.r.pc).Finishing? || s'.r.pc.UDropTx?
  {}

  lemma UnwindPc(s: State, flag: bool, s': State)
    requires UnwindStep(s, flag) == Some(s')
    ensures PhaseOf(s'.r.pc).Unwinding? && !s'.r.pc.UDropRx?
  {
    hide EscStep, Do;
  }

  lemma LiftDirect(c: Config, s: State, b: Action, t': State) returns (s': State)
    requires c.capture && Quiet(s) && Direct(s, b) && Step(Off(c), Erase(s), b) == Some(t')
    ensures Step(c, s, b) == Some(s') && Erase(s') == t' && Quiet(s') && !Disturbed(s, b)
  {
    assert !s.r.pc.RInline?;
    hide Step, Erase, Quiet, Direct, Disturbed, Silent;
    DirectPossible(c, s, b);
    s' := Step(c, s, b).value;
    EraseStep(c, s, b, s');
    DirectQuiet(c, s, b, s');
  }

  /** Without capture a read discards its bytes; with it, they are sent and delivered. */
  lemma LiftRead(c: Config, s: State, x: Stream, n: nat, t': State) returns (acts: seq<Action>, s': State)
    requires c.capture && Quiet(s) && n > 0 && CopyStep(Off(c), Erase(s), x, n, NoFault) == Some(t')
    ensures acts == [Copy(x, n, NoFault), Copy(x, 0, NoFault), Run(false)]
    ensures Exec(c, s, acts) == Some(s') && Erase(s') == t' && Quiet(s') && Clean(c, s, acts)
  {
    acts := [Copy(x, n, NoFault), Copy(x, 0, NoFault), Run(false)];
    var s1 := Step(c, s, acts[0]).value;
    var s2 := Step(c, s1, acts[1]).value;
    s' := Step(c, s2, acts[2]).value;
    EraseStep(c, s, acts[0], s1);
    EraseStep(c, s1, acts[1], s2);
    EraseStep(c, s2, acts[2], s');
    ExecThree(c, s, acts, s1, s2, s');
  }

  lemma ExecThree(c: Config, s: State, acts: seq<Action>, s1: State, s2: State, s3: State)
    requires |acts| == 3 && Step(c, s, acts[0]) == Some(s1) && !Disturbed(s, acts[0])
    requires Step(c, s1, acts[1]) == Some(s2) && !Disturbed(s1, acts[1])
    requires Step(c, s2, acts[2]) == Some(s3) && !Disturbed(s2, acts[2])
    ensures Exec(c, s, acts) == Some(s3) && Clean(c, s, acts)
  {
    hide Step, Disturbed;
    assert acts[1..][1..][1..] == [];
    assert Exec(c, s2, acts[1..][1..]) == Some(s3) && Clean(c, s2, acts[1..][1..]);
    assert Exec(c, s1, acts[1..]) == Some(s3) && Clean(c, s1, acts[1..]);
  }

  /** Without capture the runner leaves the inline wait; with it, the pump first sees the
      channel close, and after an error the receiver is dropped. */
  lemma LiftInline(c: Config, s: State, flag: bool, t': State) returns (acts: seq<Action>, s': State)
    requires c.capture && Quiet(s) && s.r.pc.RPump? && RunStep(Off(c), Erase(s), flag) == Some(t')
    ensures Exec(c, s, acts) == Some(s') && Erase(s') == t' && Quiet(s') && Clean(c, s, acts)
  {
    assert s.w.WDone?;
    if s.w.res.Some? {
      acts, s' := LiftResult(c, s, flag, t');
    } else {
      acts, s' := LiftFailure(c, s, flag, t');
    }
  }

  lemma LiftResult(c: Config, s: State, flag: bool, t': State) returns (acts: seq<Action>, s': State)
    requires c.capture && Quiet(s) && s.r.pc.RPump? && RunStep(Off(c), Erase(s), flag) == Some(t')
    requires s.w.WDone? && s.w.res.Some?
    ensures Exec(c, s, acts) == Some(s') && Erase(s') == t' && Quiet(s') && Clean(c, s, acts)
  {
    hide EraseTrace, Exec, Clean;
    acts := [Run(false), Run(false)];
    var s1 := Goto(s, RResult);
    s' := Goto(s1, RDisarm(s.w.res.value));
    ExecTwo(c, s, acts, s1, s');
  }

  lemma LiftFailure(c: Config, s: State, flag: bool, t': State) returns (acts: seq<Action>, s': State)
    requires c.capture && Quiet(s) && s.r.pc.RPump? && RunStep(Off(c), Erase(s), flag) == Some(t')
    requires s.w.WDone? && s.w.res.None?
    ensures Exec(c, s, acts) == Some(s') && Erase(s') == t' && Quiet(s') && Clean(c, s, acts)
  {
    hide EraseTrace, Exec, Clean;
    acts := [Run(false), Run(false), Run(false)];
    var s1 := Goto(s, RResult);
    var s2 := Goto(s1, UDropRx(Err(WaitFailed)));
    s' := Goto(s2, UDropTx(Err(WaitFailed))).(io := s.io.(rxOpen := false));
    ExecThree(c, s, acts, s1, s2, s');
  }

  lemma ExecTwo(c: Config, s: State, acts: seq<Action>, s1: State, s2: State)
    requires |acts| == 2 && Step(c, s, acts[0]) == Some(s1) && !Disturbed(s, acts[0])
    requires Step(c, s1, acts[1]) == Some(s2) && !Disturbed(s1, acts[1])
    ensures Exec(c, s, acts) == Some(s2) && Clean(c, s, acts)
  {
    hide Step, Disturbed;
    assert acts[1..][1..] == [];
    assert Exec(c, s1, acts[1..]) == Some(s2) && Clean(c, s1, acts[1..]);
  }

  lemma LiftStep(c: Config, s: State, b: Action, t': State) returns (acts: seq<Action>, s': State)
    requires c.capture && Quiet(s) && Step(Off(c), Erase(s), b) == Some(t')
    ensures Exec(c, s, acts) == Some(s') && Erase(s') == t' && Quiet(s') && Clean(c, s, acts)
  {
    if Direct(s, b) {
      s' := LiftDirect(c, s, b, t');
      acts := [b];
      hide Step, Erase, Quiet, Disturbed;
      assert acts[1..] == [];
    } else if b.Run? {
      hide RunStep, Quiet;
      acts, s' := LiftInline(c, s, b.flag, t');
    } else {
      hide CopyStep, Quiet;
      acts, s' := LiftRead(c, s, b.x, b.n, t');
    }
  }

  lemma {:induction false} CleanAppend(c: Config, s: State, first: seq<Action>, next: seq<Action>)
    requires Exec(c, s, first).Some? && Clean(c, s, first) && Clean(c, Exec(c, s, first).value, next)
    ensures Clean(c, s, first + next)
    decreases |first|
  {
    hide Step, Disturbed;
    if first == [] {
      assert first + next == next;
    } else {
      assert (first + next)[1..] == first[1..] + next;
      CleanAppend(c, Step(c, s, first[0]).value, first[1..], next);
    }
  }

  lemma {:induction false} LiftRuns(c: Config, s: State, acts: seq<Action>, t: State)
    returns (more: seq<Action>, s': State)
    requires c.capture && Quiet(s) && Exec(Off(c), Erase(s), acts) == Some(t)
    ensures Exec(c, s, more) == Some(s') && Erase(s') == t && Clean(c, s, more)
    decreases |acts|
  {
    hide Step, Erase, Quiet;
    if acts == [] {
      return [], s;
    }
    var first, s1 := LiftStep(c, s, acts[0], Step(Off(c), Erase(s), acts[0]).value);
    var rest, u := LiftRuns(c, s1, acts[1..], t);
    ExecAppend(c, s, first, rest);
    CleanAppend(c, s, first, rest);
    more, s' := first + rest, u;
  }

  lemma {:induction false} CleanMeans(c: Config, s: State, acts: seq<Action>)
    requires Exec(c, s, acts).Some? && Clean(c, s, acts)
    ensures Unpanicked(c, s, acts) && Uninterrupted(acts)
    decreases |acts|
  {
    hide Step, ChunkPanics;
    if acts == [] {
    } else {
      CleanMeans(c, Step(c, s, acts[0]).value, acts[1..]);
    }
  }

  /** And every capture-off run is what is left of some undisturbed capture-on run: turning
      capture on loses no behaviour either. */
  lemma CaptureOffIsCaptureOn(c: Config, acts: seq<Action>, t: State)
    returns (more: seq<Action>, s: State)
    requires c.capture && IsRun(Off(c), acts, t)
    ensures IsRun(c, more, s) && Unpanicked(c, Init(c), more) && Uninterrupted(more)
    ensures Erase(s) == t
  {
    assert Erase(Init(c)) == Init(Off(c));
    more, s := LiftRuns(c, Init(c), acts, t);
    CleanMeans(c, Init(c), more);
    hide Init, Erase, Unpanicked, Uninterrupted, Clean;
  }
}
