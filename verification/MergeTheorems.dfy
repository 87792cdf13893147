/** The merge of the two streams: chunks reach the callback in the order in which the drains sent
    them, whole reads of the drains' buffer, until the receiver is dropped. */
module MergeTheorems {
  import opened Kernel
  import opened Events
  import opened Escalation
  import opened Protocol
  import opened Lifecycle
  import opened Handshake
  import opened Report
  import opened Progress
  import opened Runs
  import opened RunTheorems

  /** The chunks of both streams the callback has been given, in order. */
  function Chunks(t: seq<Event>): seq<ChunkMsg> {
    if t == [] then []
    else
      var last := t[|t| - 1];
      Chunks(t[..|t| - 1]) + (if last.Chunk? then [last.msg] else [])
  }

  lemma ChunksSnoc(t: seq<Event>, e: Event)
    ensures Chunks(t + [e]) == if e.Chunk? then Chunks(t) + [e.msg] else Chunks(t)
  {
    assert (t + [e])[..|t|] == t;
  }

  /** What a step hands to the channel. */
  function SentBy(s: State, a: Action): seq<ChunkMsg> {
    if a.Copy? && s.io.Drain(a.x).DSend? then
      [ChunkMsg(a.x, s.io.Drain(a.x).num, s.io.Drain(a.x).bytes)]
    else []
  }

  /** What both drains hand to the channel along `acts`, in order. */
  function SentAlong(c: Config, s: State, acts: seq<Action>): seq<ChunkMsg>
    decreases |acts|
  {
    if acts == [] || Step(c, s, acts[0]).None? then []
    else SentBy(s, acts[0]) + SentAlong(c, Step(c, s, acts[0]).value, acts[1..])
  }

  /** `sent` is on its way to the callback, or has been when the receiver was dropped. */
  ghost predicate Underway(s: State, sent: seq<ChunkMsg>) {
    && (s.io.rxOpen ==> Chunks(s.r.trace) + s.io.queue == sent)
    && (!s.io.rxOpen ==> s.io.queue == [])
    && Chunks(s.r.trace) <= sent
  }

  lemma UnderwayStep(c: Config, s: State, sent: seq<ChunkMsg>, a: Action, s': State)
    requires Underway(s, sent) && Step(c, s, a) == Some(s')
    ensures Underway(s', sent + SentBy(s, a))
  {
    match a
    case Run(flag) =>
      RunUnderway(c, s, sent, flag, s');
      hide RunStep, Chunks;
    case Copy(x, n, fault) => CopyUnderway(c, s, sent, x, n, fault, s');
    case _ => hide EscStep, Do, TreeAlive, RunStep, Chunks;
  }

  lemma CopyUnderway(c: Config, s: State, sent: seq<ChunkMsg>, x: Stream, n: nat, fault: Fault, s': State)
    requires Underway(s, sent) && CopyStep(c, s, x, n, fault) == Some(s')
    ensures Underway(s', sent + SentBy(s, Copy(x, n, fault)))
  {
    hide Do, Chunks;
  }

  lemma RunUnderway(c: Config, s: State, sent: seq<ChunkMsg>, flag: bool, s': State)
    requires Underway(s, sent) && RunStep(c, s, flag) == Some(s')
    ensures Underway(s', sent + SentBy(s, Run(flag)))
  {
    assert sent + SentBy(s, Run(flag)) == sent;
    if s.r.pc.RPump? && s.io.queue != [] {
      PumpUnderway(c, s, sent, flag, s');
      hide RunStep, Chunks;
    } else {
      RunAddsNoChunk(c, s, flag, s');
      hide RunStep, Chunks;
    }
  }

  lemma ChunkMoves(t: seq<Event>, queue: seq<ChunkMsg>)
    requires queue != []
    ensures Chunks(t + [Chunk(queue[0])]) + queue[1..] == Chunks(t) + queue
    ensures Chunks(t + [Chunk(queue[0])]) <= Chunks(t) + queue
  {
    ChunksSnoc(t, Chunk(queue[0]));
    assert [queue[0]] + queue[1..] == queue;
  }

  lemma PumpUnderway(c: Config, s: State, sent: seq<ChunkMsg>, flag: bool, s': State)
    requires Underway(s, sent) && PumpStep(c, s, flag) == Some(s')
    requires s.r.pc.RPump? && s.io.queue != []
    ensures Underway(s', sent)
  {
    ChunkMoves(s.r.trace, s.io.queue);
    hide Chunks;
  }

  lemma RunAddsNoChunk(c: Config, s: State, flag: bool, s': State)
    requires RunStep(c, s, flag) == Some(s') && !(s.r.pc.RPump? && s.io.queue != [])
    ensures Chunks(s'.r.trace) == Chunks(s.r.trace)
    ensures s'.io == s.io || (!s'.io.rxOpen && s'.io.queue == [])
  {
    if |s'.r.trace| > |s.r.trace| {
      NewEventIsPlain(c, s, flag, s');
      ChunksSnoc(s.r.trace, s'.r.trace[|s.r.trace|]);
    } else {
      TraceKept(c, s, flag, s');
    }
    hide RunStep, Chunks;
    IoKept(c, s, flag, s');
  }

  lemma NewEventIsPlain(c: Config, s: State, flag: bool, s': State)
    requires RunStep(c, s, flag) == Some(s') && !(s.r.pc.RPump? && s.io.queue != [])
    requires |s'.r.trace| > |s.r.trace|
    ensures s'.r.trace == s.r.trace + [s'.r.trace[|s.r.trace|]] && !s'.r.trace[|s.r.trace|].Chunk?
  {
    hide EscStep, Do, TreeAlive;
  }

  lemma TraceKept(c: Config, s: State, flag: bool, s': State)
    requires RunStep(c, s, flag) == Some(s') && |s'.r.trace| <= |s.r.trace|
    ensures s'.r.trace == s.r.trace
  {
    hide EscStep, Do, TreeAlive;
  }

  lemma IoKept(c: Config, s: State, flag: bool, s': State)
    requires RunStep(c, s, flag) == Some(s') && !(s.r.pc.RPump? && s.io.queue != [])
    ensures s'.io == s.io || (!s'.io.rxOpen && s'.io.queue == [])
  {
    hide EscStep, Do, TreeAlive;
  }

  lemma {:induction false} UnderwayExec(c: Config, s: State, sent: seq<ChunkMsg>, acts: seq<Action>, t: State)
    requires Underway(s, sent) && Exec(c, s, acts) == Some(t)
    ensures Underway(t, sent + SentAlong(c, s, acts))
    decreases |acts|
  {
    hide Step, Underway, SentBy;
    if acts == [] {
      assert sent + [] == sent;
    } else {
      var s1 := Step(c, s, acts[0]).value;
      UnderwayStep(c, s, sent, acts[0], s1);
      UnderwayExec(c, s1, sent + SentBy(s, acts[0]), acts[1..], t);
      assert (sent + SentBy(s, acts[0])) + SentAlong(c, s1, acts[1..]) == sent + SentAlong(c, s, acts);
    }
  }

  /** The channel is first in, first out across both streams: what the callback has been given,
      followed by what is queued, is what the drains have sent, in the order of the sends; and what
      it has been given is always a prefix of that. */
  lemma MergedInSendOrder(c: Config, acts: seq<Action>, s: State)
    requires IsRun(c, acts, s)
    ensures s.io.rxOpen ==> Chunks(s.r.trace) + s.io.queue == SentAlong(c, Init(c), acts)
    ensures Chunks(s.r.trace) <= SentAlong(c, Init(c), acts)
  {
    UnderwayExec(c, Init(c), [], acts, s);
    assert [] + SentAlong(c, Init(c), acts) == SentAlong(c, Init(c), acts);
    hide SentAlong, Exec, Chunks;
  }

  /** A drain that reads can take any number of bytes that are there, up to 8192, and no more. */
  lemma ReadsUpToTheBuffer(c: Config, s: State, x: Stream, n: nat)
    requires s.io.Drain(x).DRead? && n > 0
    ensures Step(c, s, Copy(x, n, NoFault)).Some? <==> n <= |s.k.Pipe(x).buf| && n <= 8192
  {
    hide Do;
  }

  // ----- the receiver

  /** The receiver is dropped on the ways out that leave the pump early. */
  ghost predicate Dropped(c: Config, s: State) {
    c.capture && PhaseOf(s.r.pc).Unwinding? && !s.r.pc.UDropRx? && !s.w.WNone? && !Reported(s.r.trace) ==>
      !s.io.rxOpen && s.io.queue == []
  }

  lemma DroppedStep(c: Config, s: State, a: Action, s': State)
    requires Dropped(c, s) && Step(c, s, a) == Some(s')
    requires c.capture ==> !s.r.pc.RInline?
    requires MachineInv(s) && WaitInv(s)
    ensures Dropped(c, s')
  {
    match a
    case Run(flag) =>
      RunDropped(c, s, flag, s');
      hide RunStep;
    case Copy(x, n, fault) => hide EscStep, Do, TreeAlive, RunStep, WaitInv, MachineInv, Reported;
    case _ => hide EscStep, Do, TreeAlive, RunStep, WaitInv, MachineInv, Reported;
  }

  lemma RunDropped(c: Config, s: State, flag: bool, s': State)
    requires Dropped(c, s) && RunStep(c, s, flag) == Some(s')
    requires c.capture ==> !s.r.pc.RInline?
    requires MachineInv(s) && WaitInv(s)
    ensures Dropped(c, s')
  {
    match PhaseOf(s.r.pc)
    case Unwinding => hide EscStep, Do, BeginStep, WireStep, PumpStep, FinishStep, Reported;
    case Finishing => hide BeginStep, WireStep, PumpStep, UnwindStep;
    case _ => hide EscStep, Do, TreeAlive, FinishStep, UnwindStep;
  }

  lemma {:induction false} DroppedExec(c: Config, s: State, acts: seq<Action>, t: State)
    requires Inv(c, s) && Dropped(c, s) && Exec(c, s, acts) == Some(t)
    ensures Dropped(c, t)
    decreases |acts|
  {
    hide Step, Inv, Dropped, WaitInv, MachineInv;
    if acts == [] {
    } else {
      var s1 := Step(c, s, acts[0]).value;
      InvGivesProgress(c, s);
      InvGivesMachine(c, s);
      NoInline(c, s);
      DroppedStep(c, s, acts[0], s1);
      InvStep(c, s, acts[0], s1);
      DroppedExec(c, s1, acts[1..], t);
    }
  }

  lemma NoInline(c: Config, s: State)
    requires Inv(c, s)
    ensures c.capture ==> !s.r.pc.RInline?
  {
    hide GroupInv, EventInv, HandleInv, ReportInv, DeadInv, EscInv, CountInv;
  }

  /** A capture run that returns without Exited after its wait has begun - by a wait error or a
      panicking chunk callback - leaves no receiver and no queued chunk behind. */
  lemma ReceiverIsDropped(c: Config, acts: seq<Action>, s: State)
    requires IsRun(c, acts, s) && c.capture && s.r.pc.RDone? && !s.w.WNone? && !Reported(s.r.trace)
    ensures !s.io.rxOpen && s.io.queue == []
  {
    hide Inv, Exec;
    InvInit(c);
    assert Dropped(c, Init(c));
    DroppedExec(c, Init(c), acts, s);
  }
}
