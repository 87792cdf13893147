/** Captured output: nothing a member writes is lost, duplicated or reordered between the
    pipe and the callback, and each stream is numbered 0, 1, 2, ... through the merge. */
module Streams {
  import opened Kernel
  import opened Events
  import opened Escalation
  import opened Protocol
  import opened Lifecycle
  import opened Report

  /** The messages of one stream, in order. */
  function Of(x: Stream, ms: seq<ChunkMsg>): seq<ChunkMsg> {
    if ms == [] then []
    else Of(x, ms[..|ms| - 1]) + (if ms[|ms| - 1].x == x then [ms[|ms| - 1]] else [])
  }

  /** The chunks of one stream the callback has been given, in order. */
  function Delivered(x: Stream, t: seq<Event>): seq<ChunkMsg> {
    if t == [] then []
    else
      var e := t[|t| - 1];
      Delivered(x, t[..|t| - 1]) + (if e.Chunk? && e.msg.x == x then [e.msg] else [])
  }

  function Bytes(ms: seq<ChunkMsg>): seq<Byte> {
    if ms == [] then [] else Bytes(ms[..|ms| - 1]) + ms[|ms| - 1].bytes
  }

  function InHand(x: Stream, d: Drain): seq<ChunkMsg> {
    if d.DSend? then [ChunkMsg(x, d.num, d.bytes)] else []
  }

  /** Everything taken out of the pipe: delivered, queued, or in the drain's hand. */
  function Taken(x: Stream, s: State): seq<ChunkMsg> {
    Delivered(x, s.r.trace) + Of(x, s.io.queue) + InHand(x, s.io.Drain(x))
  }

  ghost predicate Numbered(x: Stream, ms: seq<ChunkMsg>) {
    forall i | 0 <= i < |ms| :: ms[i].x == x && ms[i].num == i && 1 <= |ms[i].bytes| <= CHUNK
  }

  ghost predicate Conserved(x: Stream, s: State) {
    Bytes(Taken(x, s)) + s.k.Pipe(x).buf == s.k.Pipe(x).written
  }

  ghost predicate DrainInv(x: Stream, s: State) {
    match s.io.Drain(x)
    case DNone => Delivered(x, s.r.trace) + Of(x, s.io.queue) == []
    case DRead(num) => num == |Delivered(x, s.r.trace) + Of(x, s.io.queue)|
    case DSend(num, _) => num == |Delivered(x, s.r.trace) + Of(x, s.io.queue)|
    case DEnd(_) => true
  }

  ghost predicate StreamInv(x: Stream, s: State) {
    && (s.io.rxOpen ==> Conserved(x, s) && Numbered(x, Taken(x, s)) && DrainInv(x, s))
    && (!s.io.rxOpen ==> s.io.queue == [])
    && Numbered(x, Delivered(x, s.r.trace))
    && Bytes(Delivered(x, s.r.trace)) <= s.k.Pipe(x).written
    && (s.io.Drain(x) == DEnd(true) ==> s.k.Pipe(x).buf == [] && s.k.Pipe(x).writers == {})
  }

  ghost predicate PumpedInv(s: State) {
    && (s.r.pc.RResult? || PhaseOf(s.r.pc).Finishing? || Reported(s.r.trace) ==>
          s.io.queue == [] && s.io.out.DEnd? && s.io.err.DEnd?)
    && !s.r.pc.RInline?
    && (Reported(s.r.trace) ==> PhaseOf(s.r.pc).Unwinding? && !s.r.pc.UDropRx?)
    && (!s.io.rxOpen ==> PhaseOf(s.r.pc).Unwinding? && !Reported(s.r.trace))
  }

  // ----- sequences

  lemma {:induction false} OfHead(x: Stream, ms: seq<ChunkMsg>)
    requires ms != []
    ensures Of(x, ms) == (if ms[0].x == x then [ms[0]] else []) + Of(x, ms[1..])
  {
    if |ms| == 1 {
    } else {
      var pre := ms[..|ms| - 1];
      OfHead(x, pre);
      assert pre[1..] == ms[1..][..|ms[1..]| - 1];
    }
  }

  lemma {:induction false} BytesConcat(a: seq<ChunkMsg>, b: seq<ChunkMsg>)
    ensures Bytes(a + b) == Bytes(a) + Bytes(b)
  {
    if b == [] {
      assert a + b == a;
    } else {
      var pre, last := b[..|b| - 1], b[|b| - 1];
      BytesConcat(a, pre);
      var all := a + b;
      assert all[..|all| - 1] == a + pre && all[|all| - 1] == last;
      Regroup(Bytes(a), Bytes(pre), last.bytes);
    }
  }

  lemma DeliveredEmit(x: Stream, t: seq<Event>, e: Event)
    ensures Delivered(x, t + [e])
            == if e.Chunk? && e.msg.x == x then Delivered(x, t) + [e.msg] else Delivered(x, t)
  {
    assert (t + [e])[..|t|] == t;
  }

  lemma OfSend(x: Stream, ms: seq<ChunkMsg>, m: ChunkMsg)
    ensures Of(x, ms + [m]) == if m.x == x then Of(x, ms) + [m] else Of(x, ms)
  {
    assert (ms + [m])[..|ms|] == ms;
  }

  // ----- steps

  lemma PumpMoves(x: Stream, s: State, s': State)
    requires s.io.queue != [] && s'.io.queue == s.io.queue[1..]
    requires s'.r.trace == s.r.trace + [Chunk(s.io.queue[0])]
    requires s'.io.Drain(x) == s.io.Drain(x)
    ensures Taken(x, s') == Taken(x, s)
    ensures Delivered(x, s'.r.trace) + Of(x, s'.io.queue) == Delivered(x, s.r.trace) + Of(x, s.io.queue)
  {
    var m := s.io.queue[0];
    OfHead(x, s.io.queue);
    DeliveredEmit(x, s.r.trace, Chunk(m));
    Regroup(Delivered(x, s.r.trace), if m.x == x then [m] else [], Of(x, s.io.queue[1..]));
    hide Of, Delivered;
  }

  lemma Regroup<T>(a: seq<T>, b: seq<T>, c: seq<T>)
    ensures a + (b + c) == (a + b) + c
  {}

  /** Dropping undelivered messages leaves a prefix. */
  lemma DeliveredPrefix(x: Stream, s: State)
    requires Conserved(x, s) && Numbered(x, Taken(x, s))
    ensures Bytes(Delivered(x, s.r.trace)) <= s.k.Pipe(x).written
    ensures Numbered(x, Delivered(x, s.r.trace))
  {
    var rest := Of(x, s.io.queue) + InHand(x, s.io.Drain(x));
    assert Taken(x, s) == Delivered(x, s.r.trace) + rest;
    BytesConcat(Delivered(x, s.r.trace), rest);
    forall i | 0 <= i < |Delivered(x, s.r.trace)|
      ensures Delivered(x, s.r.trace)[i] == Taken(x, s)[i]
    {}
  }

  /** All that the invariant of one stream looks at. */
  ghost predicate SameView(x: Stream, s: State, s': State) {
    && Delivered(x, s'.r.trace) == Delivered(x, s.r.trace)
    && Of(x, s'.io.queue) == Of(x, s.io.queue)
    && s'.io.Drain(x) == s.io.Drain(x)
    && s'.io.rxOpen == s.io.rxOpen && (s.io.queue == [] && !s.io.rxOpen ==> s'.io.queue == [])
  }

  ghost predicate SamePipe(p: Pipe, p': Pipe) {
    p'.buf == p.buf && p'.written == p.written && (p.writers == {} ==> p'.writers == {})
  }

  lemma ViewKeeps(x: Stream, s: State, s': State)
    requires StreamInv(x, s) && SameView(x, s, s') && SamePipe(s.k.Pipe(x), s'.k.Pipe(x))
    ensures StreamInv(x, s')
  {
    hide Bytes, Of, Delivered;
  }

  lemma ActOnPipe(cap: nat, g: Group, act: Act, x: Stream)
    requires Sane(cap, g) && Can(cap, g, act)
    requires !(act.Read? && act.x == x) && !(act.Write? && act.x == x)
    ensures SamePipe(g.Pipe(x), Do(g, act).Pipe(x))
  {
    StepAbsorbs(cap, g, act);
  }

  lemma StreamStep(c: Config, x: Stream, s: State, a: Action, s': State)
    requires c.capture && GroupInv(c, s) && StreamInv(x, s) && Step(c, s, a) == Some(s')
    ensures StreamInv(x, s')
  {
    if s.r.pc.RSpawn? && a.Run? {
      hide Of, Delivered;
    } else {
      StepIsKernelAct(c, s, a, s');
      match a
      case Run(flag) => RunStream(c, x, s, flag, s');
      case Wait(flag) => WaitStream(c, x, s, flag, s');
      case Copy(y, n, fault) =>
        if x == y {
          CopyStream(c, x, s, n, fault, s');
        } else {
          OtherStream(c, x, s, a, s');
        }
      case Env(act) =>
        if act.Write? && act.x == x {
          WriteStream(c, x, s, act, s');
        } else {
          ActOnPipe(c.cap, s.k, act, x);
          ViewKeeps(x, s, s') by { hide StreamInv, GroupInv, Of, Delivered, Do; }
        }
      case Cancel(_, _) => OtherStream(c, x, s, a, s');
      case Watch(_) => OtherStream(c, x, s, a, s');
    }
  }

  lemma OtherStream(c: Config, x: Stream, s: State, a: Action, s': State)
    requires GroupInv(c, s) && StreamInv(x, s) && Step(c, s, a) == Some(s')
    requires a.Cancel? || a.Watch? || (a.Copy? && a.x != x)
    requires ActedBy(c.cap, s.k, KernelAct(s, a), s'.k)
    ensures StreamInv(x, s')
  {
    hide Do, TreeAlive, Of, Delivered, StreamInv, EscStep;
    if KernelAct(s, a).Some? {
      ActOnPipe(c.cap, s.k, KernelAct(s, a).value, x);
    }
    if a.Copy? && s.io.Drain(a.x).DSend? && s.io.rxOpen {
      OfSend(x, s.io.queue, ChunkMsg(a.x, s.io.Drain(a.x).num, s.io.Drain(a.x).bytes));
    }
    ViewKeeps(x, s, s');
  }

  lemma WaitStream(c: Config, x: Stream, s: State, flag: bool, s': State)
    requires GroupInv(c, s) && StreamInv(x, s) && WaitStep(s, flag) == Some(s')
    requires ActedBy(c.cap, s.k, KernelAct(s, Wait(flag)), s'.k)
    ensures StreamInv(x, s')
  {
    hide Do, TreeAlive, Of, Delivered, Bytes, KillPg;
    if KernelAct(s, Wait(flag)).Some? {
      ActOnPipe(c.cap, s.k, KernelAct(s, Wait(flag)).value, x);
    }
  }

  lemma WriteStream(c: Config, x: Stream, s: State, act: Act, s': State)
    requires StreamInv(x, s) && EnvStep(c, s, act) == Some(s') && act.Write? && act.x == x
    ensures StreamInv(x, s')
  {
    hide Of, Delivered, Bytes;
    Regroup(Bytes(Taken(x, s)), s.k.Pipe(x).buf, act.bytes);
  }

  lemma CopyStream(c: Config, x: Stream, s: State, n: nat, fault: Fault, s': State)
    requires c.capture && StreamInv(x, s) && CopyStep(c, s, x, n, fault) == Some(s')
    ensures StreamInv(x, s')
  {
    if s.io.Drain(x).DSend? {
      SendStream(c, x, s, n, fault, s');
    } else if fault.NoFault? && n > 0 {
      ReadStream(c, x, s, n, s');
    } else {
      EndStream(c, x, s, n, fault, s');
    }
    hide StreamInv, CopyStep;
  }

  lemma EndStream(c: Config, x: Stream, s: State, n: nat, fault: Fault, s': State)
    requires StreamInv(x, s) && CopyStep(c, s, x, n, fault) == Some(s')
    requires s.io.Drain(x).DRead? && (!fault.NoFault? || n == 0)
    ensures StreamInv(x, s')
  {
    assert Taken(x, s') == Taken(x, s) by { hide Of, Delivered; }
    hide Of, Delivered, Bytes, Taken, Do;
  }

  lemma SendStream(c: Config, x: Stream, s: State, n: nat, fault: Fault, s': State)
    requires StreamInv(x, s) && CopyStep(c, s, x, n, fault) == Some(s') && s.io.Drain(x).DSend?
    ensures StreamInv(x, s')
  {
    if s.io.rxOpen {
      SendTaken(c, x, s, n, fault, s');
    }
    hide Of, Delivered, Bytes, Taken, Numbered;
  }

  /** A send moves the chunk from the drain's hand to the end of the queue. */
  lemma SendTaken(c: Config, x: Stream, s: State, n: nat, fault: Fault, s': State)
    requires CopyStep(c, s, x, n, fault) == Some(s') && s.io.Drain(x).DSend? && s.io.rxOpen
    ensures Taken(x, s') == Taken(x, s)
    ensures Delivered(x, s'.r.trace) + Of(x, s'.io.queue)
            == Delivered(x, s.r.trace) + Of(x, s.io.queue) + InHand(x, s.io.Drain(x))
  {
    var m := ChunkMsg(x, s.io.Drain(x).num, s.io.Drain(x).bytes);
    OfSend(x, s.io.queue, m);
    Regroup(Delivered(x, s.r.trace), Of(x, s.io.queue), [m]);
    hide Of, Delivered;
  }

  lemma ReadStream(c: Config, x: Stream, s: State, n: nat, s': State)
    requires c.capture && StreamInv(x, s) && CopyStep(c, s, x, n, NoFault) == Some(s')
    requires n > 0 && s.io.Drain(x).DRead?
    ensures StreamInv(x, s')
  {
    var p := s.k.Pipe(x);
    var m := ChunkMsg(x, s.io.Drain(x).num, p.buf[..n]);
    assert Taken(x, s') == Taken(x, s) + [m] by { hide Of, Delivered, StreamInv; }
    if s.io.rxOpen {
      TakeBytes(Taken(x, s), m, p.buf, p.written, n);
    }
    hide Of, Delivered, Bytes, Taken;
  }

  lemma TakeBytes(taken: seq<ChunkMsg>, m: ChunkMsg, buf: seq<Byte>, written: seq<Byte>, n: nat)
    requires n <= |buf| && Bytes(taken) + buf == written && m.bytes == buf[..n]
    ensures Bytes(taken + [m]) + buf[n..] == written
  {
    assert (taken + [m])[..|taken|] == taken;
    assert Bytes(taken + [m]) == Bytes(taken) + buf[..n];
    assert buf == buf[..n] + buf[n..];
    hide Bytes;
  }

  lemma RunStream(c: Config, x: Stream, s: State, flag: bool, s': State)
    requires GroupInv(c, s) && StreamInv(x, s) && RunStep(c, s, flag) == Some(s')
    requires !s.r.pc.RSpawn? && ActedBy(c.cap, s.k, KernelAct(s, Run(flag)), s'.k)
    ensures StreamInv(x, s')
  {
    if s.r.pc.RPump? && s.io.queue != [] {
      hide Of, Delivered, Bytes;
      PumpMoves(x, s, s');
      if s'.io.rxOpen {
        DeliveredPrefix(x, s');
      }
    } else if s.r.pc.UDropRx? {
      hide Of, Delivered, Bytes;
    } else {
      hide Do, TreeAlive, Of, Delivered, StreamInv, EscStep;
      if KernelAct(s, Run(flag)).Some? {
        ActOnPipe(c.cap, s.k, KernelAct(s, Run(flag)).value, x);
      }
      RunView(c, x, s, flag, s');
      ViewKeeps(x, s, s');
    }
  }

  lemma RunView(c: Config, x: Stream, s: State, flag: bool, s': State)
    requires RunStep(c, s, flag) == Some(s')
    requires !s.r.pc.UDropRx? && !(s.r.pc.RPump? && s.io.queue != [])
    ensures SameView(x, s, s')
  {
    hide Do, TreeAlive, EscStep, Of, Delivered;
    if s.r.pc.RStarted? {
      DeliveredEmit(x, s.r.trace, Started(c.pid));
    } else if s.r.pc.RExited? {
      DeliveredEmit(x, s.r.trace, Exited(Code(s.r.pc.code, s.r.pc.late, s.r.pc.fired),
                                         Reason(s.r.pc.late, s.r.pc.fired)));
    } else {
      assert s'.r.trace == s.r.trace;
    }
  }

  lemma PumpedStep(c: Config, s: State, a: Action, s': State)
    requires c.capture && WaitInv(s) && PumpedInv(s) && Step(c, s, a) == Some(s')
    ensures PumpedInv(s')
  {
    hide EscStep, Do, TreeAlive;
    if a.Run? {
      RunPumped(c, s, a.flag, s');
    }
  }

  lemma RunPumped(c: Config, s: State, flag: bool, s': State)
    requires c.capture && WaitInv(s) && PumpedInv(s) && RunStep(c, s, flag) == Some(s')
    ensures PumpedInv(s')
  {
    hide EscStep, Do, TreeAlive, WaitInv;
    match PhaseOf(s.r.pc)
    case Finishing => FinishPumped(c, s, flag, s');
    case Unwinding => UnwindPumped(s, flag, s');
    case _ =>
      EarlyReport(c, s, flag, s');
      hide Reported, FinishStep, UnwindStep;
  }

  lemma FinishPumped(c: Config, s: State, flag: bool, s': State)
    requires PumpedInv(s) && FinishStep(c, s, flag) == Some(s')
    ensures PumpedInv(s')
  {}

  lemma UnwindPumped(s: State, flag: bool, s': State)
    requires PumpedInv(s) && UnwindStep(s, flag) == Some(s')
    ensures PumpedInv(s')
  {
    hide EscStep, Do, Reported;
  }
}
