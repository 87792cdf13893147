/** The invariants of the run protocol together, and what follows for whole runs. */
module Runs {
  import opened Kernel
  import opened Protocol
  import opened Lifecycle
  import opened Handshake
  import opened Report
  import opened Streams
  import opened Progress

  ghost predicate CaptureInv(c: Config, s: State) {
    c.capture ==> PumpedInv(s) && StreamInv(Stdout, s) && StreamInv(Stderr, s)
  }

  ghost predicate Inv(c: Config, s: State) {
    && GroupInv(c, s) && EventInv(c, s) && HandleInv(c, s) && ReportInv(c, s) && DeadInv(s)
    && CountInv(s) && EscInv(s) && CaptureInv(c, s)
  }

  lemma InvInit(c: Config)
    ensures Inv(c, Init(c))
  {
    assert GroupInv(c, Init(c)) && EventInv(c, Init(c));
    assert HandleInv(c, Init(c)) && ReportInv(c, Init(c)) && DeadInv(Init(c));
    assert CountInv(Init(c)) && EscInv(Init(c));
    assert CaptureInv(c, Init(c));
    hide GroupInv, EventInv, HandleInv, ReportInv, DeadInv, CountInv, EscInv, CaptureInv, Init;
  }

  lemma CaptureStep(c: Config, s: State, a: Action, s': State)
    requires GroupInv(c, s) && CaptureInv(c, s) && Step(c, s, a) == Some(s')
    ensures CaptureInv(c, s')
  {
    if c.capture {
      PumpedStep(c, s, a, s');
      StreamStep(c, Stdout, s, a, s');
      StreamStep(c, Stderr, s, a, s');
    }
    hide Step, GroupInv, PumpedInv, StreamInv;
  }

  lemma InvStep(c: Config, s: State, a: Action, s': State)
    requires Inv(c, s) && Step(c, s, a) == Some(s')
    ensures Inv(c, s')
  {
    hide Step, EventInv, ReportInv, DeadInv, CaptureInv, EscInv, CountInv, WaitInv, CallInv, SlotInv,
      WinnerInv;
    GroupStep(c, s, a, s');
    EventStep(c, s, a, s');
    HandleStep(c, s, a, s');
    ReportStep(c, s, a, s');
    DeadStep(c, s, a, s');
    CountStep(c, s, a, s');
    EscInvStep(c, s, a, s');
    CaptureStep(c, s, a, s');
  }

  lemma {:induction false} InvExec(c: Config, s: State, acts: seq<Action>, t: State)
    requires Inv(c, s) && Exec(c, s, acts) == Some(t)
    ensures Inv(c, t)
    decreases |acts|
  {
    hide Step, Inv;
    if acts == [] {
    } else {
      var s1 := Step(c, s, acts[0]).value;
      InvStep(c, s, acts[0], s1);
      InvExec(c, s1, acts[1..], t);
    }
  }

  /** Every state of every run satisfies every invariant. */
  lemma InvRun(c: Config, acts: seq<Action>, s: State)
    requires IsRun(c, acts, s)
    ensures Inv(c, s)
  {
    InvInit(c);
    InvExec(c, Init(c), acts, s);
  }

  /** One more step of a run. */
  lemma Then(c: Config, acts: seq<Action>, s: State, a: Action) returns (acts': seq<Action>, s': State)
    requires IsRun(c, acts, s) && Step(c, s, a).Some?
    ensures acts' == acts + [a] && Step(c, s, a) == Some(s') && IsRun(c, acts', s')
  {
    acts', s' := acts + [a], Step(c, s, a).value;
    ExecAppend(c, Init(c), acts, [a]);
    assert [a][1..] == [];
    hide Step;
  }
}
