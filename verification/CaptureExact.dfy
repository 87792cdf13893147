/** Exactly when a capture-on run is a capture-off run: with moves of its own choice as soon as
    the chunk callback does not panic, with the same moves only if, besides, no read was
    interrupted. */
module CaptureExact {
  import opened Kernel
  import opened Events
  import opened Escalation
  import opened Protocol
  import opened Lifecycle
  import opened Handshake
  import opened Report
  import opened Streams
  import opened Progress
  import opened Runs
  import opened RunTheorems
  import opened Capture

  // ----- a panicking chunk callback

  ghost predicate Unreported(t: seq<Event>) {
    forall e | e in t :: !e.Exited?
  }

  /** A callback has panicked after the wait began and before Exited. */
  ghost predicate Quit(s: State) {
    OutcomeOf(s.r.pc) == Some(Panicked) && !s.w.WNone? && Unreported(s.r.trace)
  }

  lemma QuitBegins(c: Config, s: State, a: Action, s': State)
    requires Inv(c, s) && Step(c, s, a) == Some(s') && ChunkPanics(s, a)
    ensures Quit(s')
  {
    InvHasGroup(c, s);
    BodySoFar(c, s);
    assert Unreported(s.r.trace);
    PumpPanics(c, s, s');
    hide Inv, Step, Body;
  }

  lemma BodySoFar(c: Config, s: State)
    requires Inv(c, s) && s.r.pc.RPump?
    ensures Body(c, s.r.trace)
  {
    hide GroupInv, HandleInv, ReportInv, DeadInv, CaptureInv, EscInv, CountInv, MachineInv, Body;
  }

  lemma PumpPanics(c: Config, s: State, s': State)
    requires s.r.pc.RPump? && s.io.queue != [] && PumpStep(c, s, true) == Some(s')
    requires WaitInv(s) && Unreported(s.r.trace)
    ensures Quit(s')
  {}

  lemma QuitStep(c: Config, s: State, a: Action, s': State)
    requires Quit(s) && Step(c, s, a) == Some(s')
    ensures Quit(s')
  {
    assert s'.r.trace == s.r.trace && OutcomeOf(s'.r.pc) == OutcomeOf(s.r.pc) by {
      hide EscStep, Do, TreeAlive, BeginStep, WireStep, PumpStep, FinishStep;
    }
    assert !s'.w.WNone? by {
      hide EscStep, Do, TreeAlive, Unreported, OutcomeOf;
    }
    hide Step;
  }

  lemma {:induction false} PanicQuits(c: Config, s: State, acts: seq<Action>, t: State)
    requires Inv(c, s) && Exec(c, s, acts) == Some(t) && (Quit(s) || !Unpanicked(c, s, acts))
    ensures Quit(t)
    decreases |acts|
  {
    hide Step, Inv, Quit, ChunkPanics;
    if acts == [] {
    } else {
      var s1 := Step(c, s, acts[0]).value;
      InvStep(c, s, acts[0], s1);
      if Quit(s) {
        QuitStep(c, s, acts[0], s1);
      } else if ChunkPanics(s, acts[0]) {
        QuitBegins(c, s, acts[0], s1);
      }
      PanicQuits(c, s1, acts[1..], t);
    }
  }

  /** Without capture a callback panics before the wait begins or in Exited. */
  ghost predicate PlainPanic(s: State) {
    OutcomeOf(s.r.pc) == Some(Panicked) ==> s.w.WNone? || !Unreported(s.r.trace)
  }

  lemma PlainPanicStep(c: Config, s: State, a: Action, s': State)
    requires !c.capture && WaitInv(s) && PlainPanic(s) && Step(c, s, a) == Some(s')
    requires !s.r.pc.RPump?
    ensures PlainPanic(s')
  {
    if a.Run? {
      PlainPanicRun(c, s, a.flag, s');
    } else {
      hide EscStep, Do, TreeAlive, RunStep, WaitInv;
    }
  }

  lemma PlainPanicRun(c: Config, s: State, flag: bool, s': State)
    requires !c.capture && WaitInv(s) && PlainPanic(s) && RunStep(c, s, flag) == Some(s')
    requires !s.r.pc.RPump?
    ensures PlainPanic(s')
  {
    if s.r.pc.RExited? {
      assert s'.r.trace[|s.r.trace|] in s'.r.trace;
    }
    hide EscStep, Do, TreeAlive, Unreported;
  }

  lemma {:induction false} PlainPanicExec(c: Config, s: State, acts: seq<Action>, t: State)
    requires !c.capture && Inv(c, s) && PlainPanic(s) && Exec(c, s, acts) == Some(t)
    ensures PlainPanic(t)
    decreases |acts|
  {
    hide Step, Inv, PlainPanic;
    if acts == [] {
    } else {
      var s1 := Step(c, s, acts[0]).value;
      assert WaitInv(s) by { InvHasGroup(c, s); }
      NeverPumps(c, s);
      PlainPanicStep(c, s, acts[0], s1);
      InvStep(c, s, acts[0], s1);
      PlainPanicExec(c, s1, acts[1..], t);
    }
  }

  lemma NeverPumps(c: Config, s: State)
    requires Inv(c, s) && !c.capture
    ensures !s.r.pc.RPump?
  {
    hide GroupInv, HandleInv, ReportInv, DeadInv, CaptureInv, EscInv, CountInv, MachineInv;
  }

  lemma {:induction false} ErasedIn(t: seq<Event>)
    ensures forall e | e in EraseTrace(t) :: e in t
  {
    if t == [] {
    } else {
      ErasedIn(t[..|t| - 1]);
    }
  }

  lemma QuitIsNoPlainPanic(s: State)
    requires Quit(s)
    ensures !PlainPanic(Erase(s))
  {
    ErasedIn(s.r.trace);
  }

  /** Capture changes nothing but the chunks, exactly when the chunk callback does not panic:
      only then is there a capture-off run that ends with the same group, flags, Started, Exited
      and outcome. */
  lemma CaptureOffExistsExactlyWhen(c: Config, acts: seq<Action>, t: State)
    requires c.capture && IsRun(c, acts, t)
    ensures (exists off :: IsRun(Off(c), off, Erase(t))) <==> Unpanicked(c, Init(c), acts)
  {
    if Unpanicked(c, Init(c), acts) {
      var thin := CaptureOnIsCaptureOff(c, acts, t);
    } else {
      InvInit(c);
      PanicQuits(c, Init(c), acts, t);
      QuitIsNoPlainPanic(t);
      forall off | IsRun(Off(c), off, Erase(t)) ensures false {
        InvInit(Off(c));
        PlainPanicExec(Off(c), Init(Off(c)), off, Erase(t));
      }
    }
  }

  // ----- an interrupted read

  lemma {:induction false} SameLabels(acts: seq<Action>)
    requires Uninterrupted(acts)
    ensures Relabelled(acts) == acts
    decreases |acts|
  {
    if acts == [] {
    } else {
      SameLabels(acts[1..]);
    }
  }

  predicate CopyOf(x: Stream, a: Action) {
    a.Copy? && a.x == x
  }

  lemma EndIsFinal(c: Config, x: Stream, s: State, a: Action, s': State)
    requires WaitInv(s) && Step(c, s, a) == Some(s') && s.io.Drain(x).DEnd?
    ensures s'.io.Drain(x) == s.io.Drain(x) && !CopyOf(x, a)
  {
    hide EscStep, Do, TreeAlive;
  }

  lemma {:induction false} EndStays(c: Config, x: Stream, s: State, acts: seq<Action>, t: State)
    requires Inv(c, s) && Exec(c, s, acts) == Some(t) && s.io.Drain(x).DEnd?
    ensures t.io.Drain(x) == s.io.Drain(x) && forall a | a in acts :: !CopyOf(x, a)
    decreases |acts|
  {
    hide Step, Inv, CopyOf;
    if acts == [] {
    } else {
      var s1 := Step(c, s, acts[0]).value;
      assert WaitInv(s) by { InvHasGroup(c, s); }
      EndIsFinal(c, x, s, acts[0], s1);
      InvStep(c, s, acts[0], s1);
      EndStays(c, x, s1, acts[1..], t);
    }
  }

  lemma FaultEnds(c: Config, s: State, a: Action, s': State)
    requires Step(c, s, a) == Some(s') && a.Copy? && !a.fault.NoFault?
    ensures s'.io.Drain(a.x) == DEnd(false)
  {
    hide RunStep, CancelStep, WatchStep, WaitStep, EnvStep, Do;
  }

  /** A drain that was interrupted has ended, and broke neither before nor after. */
  lemma {:induction false} InterruptEnds(c: Config, x: Stream, n: nat, s: State, acts: seq<Action>, t: State)
    requires Inv(c, s) && Exec(c, s, acts) == Some(t) && Copy(x, n, Interrupted) in acts
    ensures t.io.Drain(x) == DEnd(false) && forall m :: Copy(x, m, Broken) !in acts
    decreases |acts|
  {
    hide Step, Inv;
    var a := acts[0];
    var s1 := Step(c, s, a).value;
    InvStep(c, s, a, s1);
    if CopyOf(x, a) && !a.fault.NoFault? {
      FaultEnds(c, s, a, s1);
      EndStays(c, x, s1, acts[1..], t);
      assert forall b | CopyOf(x, b) :: b in acts <==> b == a;
    } else {
      InterruptEnds(c, x, n, s1, acts[1..], t);
    }
  }

  lemma PlainEndStep(c: Config, x: Stream, s: State, a: Action, s': State)
    requires !c.capture && Step(c, s, a) == Some(s') && s.io.Drain(x) != DEnd(false)
    requires a.Copy? ==> a.x != x || !a.fault.Broken?
    ensures s'.io.Drain(x) != DEnd(false)
  {
    hide EscStep, Do, TreeAlive;
  }

  /** Without capture only a broken read ends a drain early. */
  lemma {:induction false} PlainEndNeedsBreak(c: Config, x: Stream, s: State, acts: seq<Action>, t: State)
    requires !c.capture && Exec(c, s, acts) == Some(t) && s.io.Drain(x) != DEnd(false)
    requires forall m :: Copy(x, m, Broken) !in acts
    ensures t.io.Drain(x) != DEnd(false)
    decreases |acts|
  {
    hide Step;
    if acts == [] {
    } else {
      var s1 := Step(c, s, acts[0]).value;
      PlainEndStep(c, x, s, acts[0], s1);
      PlainEndNeedsBreak(c, x, s1, acts[1..], t);
    }
  }

  lemma {:induction false} ThinnedIn(thin: seq<Action>, acts: seq<Action>)
    requires Thinned(thin, acts)
    ensures forall a | a in thin :: a in acts
    decreases |acts|
  {
    if acts == [] {
    } else if Thinned(thin, acts[1..]) {
      ThinnedIn(thin, acts[1..]);
    } else {
      ThinnedIn(thin[1..], acts[1..]);
      assert forall a | a in thin :: a == thin[0] || a in thin[1..];
    }
  }

  /** The same moves, without those that only carry chunks, make a capture-off run exactly when
      no signal interrupted a read: an interrupted read ends a capturing drain, and `io::copy`
      tries it again. */
  lemma SameActionsExactlyWhen(c: Config, acts: seq<Action>, t: State)
    requires c.capture && IsRun(c, acts, t) && Unpanicked(c, Init(c), acts)
    ensures (exists thin :: Thinned(thin, acts) && IsRun(Off(c), thin, Erase(t))) <==> Uninterrupted(acts)
  {
    if Uninterrupted(acts) {
      var thin := CaptureOnIsCaptureOff(c, acts, t);
      SameLabels(acts);
    } else {
      var a :| a in acts && Interrupts(a);
      InvInit(c);
      InterruptEnds(c, a.x, a.n, Init(c), acts, t);
      forall thin | Thinned(thin, acts) && IsRun(Off(c), thin, Erase(t)) ensures false {
        ThinnedIn(thin, acts);
        PlainEndNeedsBreak(Off(c), a.x, Init(Off(c)), thin, Erase(t));
      }
    }
  }

  // ----- a run in which it differs

  const LOSSY := Config(1, true, false, false, 1)
  const ONE: seq<Byte> := [0]

  function LossyState(k: Group, pc: Runner, armed: bool, w: Waiter, out: Drain, err: Drain): State {
    Init(LOSSY).(k := k, r := RunnerState(pc, Machine.Running, armed, [Started(1)]), w := w,
                 io := Io(out, err, true, []))
  }

  const LEFT := Unborn(1).(status := Some(0), out := Pipe.Pipe(ONE, {}, ONE))

  /** The root writes a byte, and a signal interrupts the read for it. */
  lemma LossyRead() returns (acts: seq<Action>, s: State)
    ensures IsRun(LOSSY, acts, s) && Copy(Stdout, 1, Interrupted) in acts
    ensures s == LossyState(Spawned(1).(out := Pipe.Pipe(ONE, {1}, ONE)), RPump, true, WWait,
                            DEnd(false), DRead(0))
  {
    acts, s := [], Init(LOSSY);
    acts, s := Then(LOSSY, acts, s, Run(false));
    acts, s := Then(LOSSY, acts, s, Run(false));
    acts, s := Then(LOSSY, acts, s, Run(false));
    acts, s := Then(LOSSY, acts, s, Run(false));
    acts, s := Then(LOSSY, acts, s, Run(false));
    acts, s := Then(LOSSY, acts, s, Wait(false));
    acts, s := Then(LOSSY, acts, s, Wait(false));
    acts, s := Then(LOSSY, acts, s, Env(Write(1, Stdout, ONE)));
    acts, s := Then(LOSSY, acts, s, Copy(Stdout, 1, Interrupted));
  }

  lemma LossyWait() returns (acts: seq<Action>, s: State)
    ensures IsRun(LOSSY, acts, s) && Copy(Stdout, 1, Interrupted) in acts
    ensures s == LossyState(LEFT, RResult, true, WDone(Some(0)), DEnd(false), DEnd(true))
  {
    hide BeginStep, WireStep, FinishStep, UnwindStep, CancelStep, WatchStep, EscStep;
    acts, s := LossyRead();
    acts, s := Then(LOSSY, acts, s, Env(Exit(1, Some(0))));
    acts, s := Then(LOSSY, acts, s, Wait(false));
    acts, s := Then(LOSSY, acts, s, Wait(false));
    acts, s := Then(LOSSY, acts, s, Wait(false));
    acts, s := Then(LOSSY, acts, s, Copy(Stderr, 0, NoFault));
    acts, s := Then(LOSSY, acts, s, Wait(false));
    acts, s := Then(LOSSY, acts, s, Run(false));
  }

  lemma LossyReport() returns (acts: seq<Action>, s: State)
    ensures IsRun(LOSSY, acts, s) && Copy(Stdout, 1, Interrupted) in acts
    ensures s == LossyState(LEFT, RExiting(0, false, false), false, WDone(Some(0)), DEnd(false), DEnd(true))
                 .(m := MonitorState(MNone, false, Sent))
  {
    hide BeginStep, WireStep, UnwindStep, CancelStep, WatchStep, WaitStep, CopyStep, EnvStep, EscStep, Do;
    acts, s := LossyWait();
    acts, s := Then(LOSSY, acts, s, Run(false));
    acts, s := Then(LOSSY, acts, s, Run(false));
    acts, s := Then(LOSSY, acts, s, Run(false));
    acts, s := Then(LOSSY, acts, s, Run(false));
    acts, s := Then(LOSSY, acts, s, Run(false));
  }

  lemma LossyReturn() returns (acts: seq<Action>, s: State)
    ensures IsRun(LOSSY, acts, s) && Copy(Stdout, 1, Interrupted) in acts
    ensures s.r.pc == RDone(Ok) && s.r.trace == [Started(1), Exited(0, NaturalExit)]
    ensures s.k.out.written == ONE && s.io.out == DEnd(false)
  {
    hide BeginStep, WireStep, PumpStep, CancelStep, WatchStep, WaitStep, CopyStep, EnvStep, EscStep, Do;
    acts, s := LossyReport();
    acts, s := Then(LOSSY, acts, s, Run(false));
    acts, s := Then(LOSSY, acts, s, Run(false));
    acts, s := Then(LOSSY, acts, s, Run(false));
    acts, s := Then(LOSSY, acts, s, Run(false));
  }

  /** A run with capture whose interrupted read loses a byte for good: it returns Ok, the byte
      was written and never delivered, and its moves are those of no capture-off run. */
  lemma InterruptedReadDiffers() returns (acts: seq<Action>, t: State)
    ensures IsRun(LOSSY, acts, t) && Unpanicked(LOSSY, Init(LOSSY), acts)
    ensures t.r.pc == RDone(Ok) && t.k.out.written == ONE && Delivered(Stdout, t.r.trace) == []
    ensures forall thin | Thinned(thin, acts) :: !IsRun(Off(LOSSY), thin, Erase(t))
  {
    acts, t := LossyReturn();
    if !Unpanicked(LOSSY, Init(LOSSY), acts) {
      InvInit(LOSSY);
      PanicQuits(LOSSY, Init(LOSSY), acts, t);
      assert false;
    }
    SameActionsExactlyWhen(LOSSY, acts, t);
    assert t.r.trace[..1] == [Started(1)];
    assert Delivered(Stdout, [Started(1)]) == [];
    hide Exec, Erase, Unpanicked, Thinned;
  }
}
