/** The way of one event from `aer_task_run` (src/ffi.rs) through `CallbackBridge.Dispatch`
    to `AerTask.Dispatch` of the .NET binding, and what the managed caller sees of a run. */
module EventBridge {
  import opened Kernel
  import opened Events
  import opened Protocol
  import opened Report
  import opened Streams
  import opened RunTheorems
  import opened Runs
  import opened ReportTheorems
  import opened OutputTheorems
  import opened Ffi

  /** The C event. `data` points into memory of the sender, valid during the callback. */
  datatype NativeEvent = NativeEvent(kind: nat, pid: Pid, code: int, reason: nat, num: nat,
                                     data: array?<Byte>, len: nat)

  datatype Kind = KStarted | KStdoutChunk | KStderrChunk | KExited

  /** `AerEventArgs`, with a reference to its managed byte array. */
  datatype Args = Args(kind: Kind, pid: Pid, exitCode: int, exitReason: nat, num: nat,
                       data: array?<Byte>)

  const INT_MAX := 0x7FFF_FFFF

  /** The unchecked conversion `(int)evt.DataLen`. */
  function ToInt32(n: nat): int {
    var m := n % 0x1_0000_0000;
    if m <= INT_MAX then m else m - 0x1_0000_0000
  }

  function ReasonCode(r: ExitReason): nat {
    match r
    case NaturalExit => 0
    case TimedOut => 1
    case CancelRequested => 2
  }

  function ReasonOf(n: nat): Option<ExitReason> {
    match n
    case 0 => Some(NaturalExit)
    case 1 => Some(ExitReason.TimedOut)
    case 2 => Some(CancelRequested)
    case _ => None
  }

  /** The event that the handler's arguments describe, if they describe one. */
  ghost function EventOf(a: Args): Option<Event>
    reads a.data
  {
    match a.kind
    case KStarted => Some(Started(a.pid))
    case KExited =>
      if ReasonOf(a.exitReason).Some? then Some(Exited(a.exitCode, ReasonOf(a.exitReason).value)) else None
    case KStdoutChunk => if a.data == null then None else Some(Chunk(ChunkMsg(Stdout, a.num, a.data[..])))
    case KStderrChunk => if a.data == null then None else Some(Chunk(ChunkMsg(Stderr, a.num, a.data[..])))
  }

  /** What the managed handler is given for an event: an empty chunk comes without its array,
      the bridge throws when the converted length is negative, and otherwise a length that
      does not fit cuts the chunk. */
  function Marshalled(e: Event): Option<Event> {
    match e
    case Chunk(m) =>
      var n := ToInt32(|m.bytes|);
      if m.bytes == [] || n < 0 then None else Some(Chunk(m.(bytes := m.bytes[..n])))
    case _ => Some(e)
  }

  /** The `EventRaised` subscribers of one managed task. */
  class ManagedTask {
    var raised: seq<Args>

    constructor ()
      ensures raised == []
    {
      raised := [];
    }

    /** `AerTask.Dispatch` */
    method Dispatch(evt: NativeEvent, data: array?<Byte>)
      modifies this
      ensures raised
              == old(raised)
                 + (if evt.kind == 0 then [Args(KStarted, evt.pid, 0, 0, 0, null)]
                    else if evt.kind == 1 then [Args(KExited, 0, evt.code, evt.reason, 0, null)]
                    else if evt.kind == 2 then [Args(KStdoutChunk, 0, 0, 0, evt.num, data)]
                    else if evt.kind == 3 then [Args(KStderrChunk, 0, 0, 0, evt.num, data)]
                    else [])
    {
      if evt.kind == 0 {
        raised := raised + [Args(KStarted, evt.pid, 0, 0, 0, null)];
      } else if evt.kind == 1 {
        raised := raised + [Args(KExited, 0, evt.code, evt.reason, 0, null)];
      } else if evt.kind == 2 {
        raised := raised + [Args(KStdoutChunk, 0, 0, 0, evt.num, data)];
      } else if evt.kind == 3 {
        raised := raised + [Args(KStderrChunk, 0, 0, 0, evt.num, data)];
      }
    }
  }

  /** `CallbackBridge` */
  class CallbackBridge {
    const handler: ManagedTask

    constructor (handler: ManagedTask)
      ensures this.handler == handler
    {
      this.handler := handler;
    }

    /** Copies a non-empty chunk into a managed array of its own before handing it on. */
    method Dispatch(evt: NativeEvent) returns (threw: bool)
      requires evt.data != null ==> evt.len == evt.data.Length
      requires evt.data == null ==> evt.len == 0
      modifies handler
      ensures threw <==> evt.kind in {2, 3} && ToInt32(evt.len) < 0
      ensures threw ==> handler.raised == old(handler.raised)
      ensures !threw && evt.kind < 4 ==>
                && |handler.raised| == |old(handler.raised)| + 1
                && handler.raised[..|old(handler.raised)|] == old(handler.raised)
                && (var a := handler.raised[|old(handler.raised)|];
                    && a.kind == [KStarted, KExited, KStdoutChunk, KStderrChunk][evt.kind]
                    && (evt.kind < 2 ==> a.data == null)
                    && (evt.kind == 0 ==> a.pid == evt.pid)
                    && (evt.kind == 1 ==> a.exitCode == evt.code && a.exitReason == evt.reason)
                    && (evt.kind in {2, 3} ==>
                          && a.num == evt.num
                          && (a.data == null <==> evt.len == 0)
                          && (a.data != null ==>
                                && fresh(a.data)
                                && a.data.Length == ToInt32(evt.len) <= evt.len
                                && a.data[..] == evt.data[..a.data.Length])))
    {
      var chunk: array?<Byte> := null;
      threw := false;
      if (evt.kind == 2 || evt.kind == 3) && evt.len > 0 {
        var n := ToInt32(evt.len);
        if n < 0 {
          return true;
        }
        chunk := new Byte[n];
        for i := 0 to n
          modifies chunk
          invariant chunk[..i] == evt.data[..i]
        {
          chunk[i] := evt.data[i];
        }
      }
      handler.Dispatch(evt, chunk);
    }
  }

  /** The `on_event` closure of `aer_task_run`: build the C event and call back. A chunk's
      bytes live until the callback returns; then their memory is reused. */
  method OnEvent(event: Event, bridge: CallbackBridge?) returns (threw: bool)
    modifies if bridge == null then {} else {bridge.handler}
    ensures bridge == null ==> !threw
    ensures bridge != null ==>
              var h := bridge.handler;
              if threw then
                h.raised == old(h.raised) && Marshalled(event) == None
              else
                && |h.raised| == |old(h.raised)| + 1
                && h.raised[..|old(h.raised)|] == old(h.raised)
                && EventOf(h.raised[|old(h.raised)|]) == Marshalled(event)
                && (event.Exited? ==>
                      var n := h.raised[|old(h.raised)|].exitReason;
                      && (n == 0 <==> event.reason == NaturalExit)
                      && (n == 1 <==> event.reason == ExitReason.TimedOut)
                      && (n == 2 <==> event.reason == CancelRequested))
                && (h.raised[|old(h.raised)|].data != null ==> fresh(h.raised[|old(h.raised)|].data))
  {
    threw := false;
    if bridge != null {
      match event
      case Started(pid) =>
        threw := bridge.Dispatch(NativeEvent(0, pid, 0, 0, 0, null, 0));
      case Exited(code, reason) =>
        threw := bridge.Dispatch(NativeEvent(1, 0, code, ReasonCode(reason), 0, null, 0));
      case Chunk(m) =>
        var bytes := new Byte[|m.bytes|];
        for i := 0 to |m.bytes|
          modifies bytes
          invariant bytes[..i] == m.bytes[..i]
        {
          bytes[i] := m.bytes[i];
        }
        assert bytes[..] == m.bytes;
        threw := bridge.Dispatch(NativeEvent(if m.x.Stdout? then 2 else 3, 0, 0, 0, m.num,
                                             bytes, bytes.Length));
        for i := 0 to bytes.Length
          modifies bytes
        {
          bytes[i] := 0;
        }
    }
  }

  // ----- the round trip

  /** An event reaches the managed caller unchanged exactly when it is not a chunk or its
      length is between 1 and 2^31 - 1. */
  lemma RoundTripExactlyWhen(e: Event)
    ensures Marshalled(e) == Some(e) <==> (e.Chunk? ==> 1 <= |e.msg.bytes| <= INT_MAX)
  {
    if e.Chunk? {
      var bytes := e.msg.bytes;
      if 1 <= |bytes| <= INT_MAX {
        assert bytes[..|bytes|] == bytes;
      }
    }
  }

  lemma {:induction false} ChunkIsDelivered(t: seq<Event>, e: Event)
    requires e in t && e.Chunk?
    ensures e.msg in Delivered(e.msg.x, t)
  {
    var last := t[|t| - 1];
    if e == last {
    } else {
      assert t == t[..|t| - 1] + [last];
      ChunkIsDelivered(t[..|t| - 1], e);
    }
  }

  /** Every event that any run can emit makes the round trip. */
  lemma EveryRunRoundTrips(c: Config, acts: seq<Action>, s: State, e: Event)
    requires IsRun(c, acts, s) && e in s.r.trace
    ensures Marshalled(e) == Some(e)
  {
    RoundTripExactlyWhen(e);
    if e.Chunk? {
      ChunkIsDelivered(s.r.trace, e);
      NumberedThroughTheMerge(c, acts, s, e.msg.x);
      hide IsRun, Marshalled, Delivered;
    }
  }

  /** The callbacks of one whole run. The arrays handed out earlier still hold their bytes at
      the end, although the memory they were copied from has been reused. */
  method DeliverRun(events: seq<Event>, bridge: CallbackBridge) returns (threw: bool)
    requires bridge.handler.raised == []
    requires forall e | e in events :: Marshalled(e) == Some(e)
    modifies bridge.handler
    ensures !threw && |bridge.handler.raised| == |events|
    ensures forall i | 0 <= i < |events| :: EventOf(bridge.handler.raised[i]) == Some(events[i])
  {
    threw := false;
    var h := bridge.handler;
    for k := 0 to |events|
      invariant !threw && |h.raised| == k
      invariant forall i | 0 <= i < k :: EventOf(h.raised[i]) == Some(events[i])
    {
      ghost var before := h.raised;
      label Call:
      threw := OnEvent(events[k], bridge);
      assert events[k] in events;
      forall i | 0 <= i < k
        ensures EventOf(h.raised[i]) == Some(events[i])
      {
        assert h.raised[i] == h.raised[..k][i] == before[i];
        assert old@Call(EventOf(before[i])) == Some(events[i]);
      }
    }
  }

  /** For any run: the managed caller is given the very events of the run, in order, and nothing
      throws. */
  method DeliverTrace(ghost c: Config, ghost acts: seq<Action>, ghost s: State, events: seq<Event>,
                      bridge: CallbackBridge)
    returns (threw: bool)
    requires IsRun(c, acts, s) && events == s.r.trace
    requires bridge.handler.raised == []
    modifies bridge.handler
    ensures !threw && |bridge.handler.raised| == |events|
    ensures forall i | 0 <= i < |events| :: EventOf(bridge.handler.raised[i]) == Some(events[i])
  {
    forall e | e in events
      ensures Marshalled(e) == Some(e)
    {
      EveryRunRoundTrips(c, acts, s, e);
    }
    threw := DeliverRun(events, bridge);
  }

  // ----- the result

  datatype Exception = NoException | TimeoutException | CancelException | AerException(code: ErrorCode)

  /** `if (result != Ok) throw BuildRunException(result)` */
  function BuildRunException(code: ErrorCode): Exception {
    match code
    case CodeOk => NoException
    case CodeTimedOut => TimeoutException
    case CodeCancelled => CancelException
    case _ => AerException(code)
  }

  /** What `aer_task_run` returns says what happened in the run, in both directions. */
  lemma CodeMatchesRun(c: Config, acts: seq<Action>, s: State)
    requires IsRun(c, acts, s) && s.r.pc.RDone?
    ensures var code, t, panic := CodeOf(s.r.pc.outcome), s.r.trace, SomeCallbackPanics(c, Init(c), acts);
            && (code == CodePanic <==> panic)
            && (code == CodeSpawnFailed <==> t == [])
            && (code == CodeWaitFailed <==> s.w == WDone(None) && !panic)
            && (code == CodeOk <==> !panic && Reported(t) && t[|t| - 1].reason == NaturalExit)
            && (code == CodeTimedOut <==>
                  !panic && Reported(t) && t[|t| - 1].reason == ExitReason.TimedOut)
            && (code == CodeCancelled <==> !panic && Reported(t) && t[|t| - 1].reason == CancelRequested)
            && code in {CodePanic, CodeSpawnFailed, CodeWaitFailed, CodeOk, CodeTimedOut, CodeCancelled}
  {
    EventLanguage(c, acts, s);
    PanickedExactlyWhen(c, acts, s);
    if s.r.pc.outcome == Err(SpawnFailed) {
      UnspawnedNeverWaits(c, acts, s);
    }
    hide IsRun, SomeCallbackPanics;
  }

  lemma UnspawnedNeverWaits(c: Config, acts: seq<Action>, s: State)
    requires IsRun(c, acts, s) && s.r.pc == RDone(Err(SpawnFailed))
    ensures s.w.WNone?
  {
    InvRun(c, acts, s);
    InvHasGroup(c, s);
    hide Inv, IsRun;
  }

  /** The exception the managed caller catches names the reason of the Exited event it has
      seen, or what went wrong instead, in both directions. */
  lemma ExceptionMatchesReason(c: Config, acts: seq<Action>, s: State)
    requires IsRun(c, acts, s) && s.r.pc.RDone?
    ensures var x, t, panic := BuildRunException(CodeOf(s.r.pc.outcome)), s.r.trace,
                               SomeCallbackPanics(c, Init(c), acts);
            && (x == AerException(CodePanic) <==> panic)
            && (x == AerException(CodeSpawnFailed) <==> t == [])
            && (x == AerException(CodeWaitFailed) <==> s.w == WDone(None) && !panic)
            && (x == NoException <==> !panic && Reported(t) && t[|t| - 1].reason == NaturalExit)
            && (x == TimeoutException <==>
                  !panic && Reported(t) && t[|t| - 1].reason == ExitReason.TimedOut)
            && (x == CancelException <==> !panic && Reported(t) && t[|t| - 1].reason == CancelRequested)
            && (x.AerException? ==> x.code in {CodePanic, CodeSpawnFailed, CodeWaitFailed})
  {
    CodeMatchesRun(c, acts, s);
    hide IsRun, SomeCallbackPanics, CodeOf;
  }

  datatype RunResult = ObjectDisposed | InvalidOperation | Finished(x: Exception)

  /** The run-once part of the managed wrapper, around the native handle it owns. */
  class ManagedRun {
    const native: AerTask
    var hasRun: bool
    var disposed: bool

    ghost predicate Valid()
      reads this, native
    {
      native.Valid() && (native.hasRun ==> hasRun)
    }

    constructor (native: AerTask)
      requires native.Valid() && !native.hasRun
      ensures Valid() && this.native == native && !hasRun && !disposed
    {
      this.native := native;
      hasRun, disposed := false, false;
    }

    method Dispose()
      requires Valid()
      modifies this`disposed
      ensures Valid() && disposed
    {
      disposed := true;
    }

    /** `RunCore`: a disposed or already started task is refused before the native side is
        touched, so the native AlreadyRun never surfaces as an exception. `refused` says that the
        native side has no memory for a cancel handle; then nothing runs, and nothing ever will
        on this task. */
    method RunCore(canBeCanceled: bool, refused: bool, run: Outcome) returns (r: RunResult)
      requires Valid()
      modifies this`hasRun, native
      ensures Valid() && hasRun == (old(hasRun) || !disposed)
      ensures r == if disposed then ObjectDisposed
                   else if old(hasRun) then InvalidOperation
                   else if canBeCanceled && refused then Finished(AerException(NullPointer))
                   else Finished(BuildRunException(CodeOf(run)))
      ensures r.Finished? && !(canBeCanceled && refused) ==>
                native.View()
                == Apply(if canBeCanceled then Apply(old(native.View()), MakeCancelHandle).0
                         else old(native.View()), RunTask(run)).0
      ensures !r.Finished? || (canBeCanceled && refused) ==> native.View() == old(native.View())
      ensures r != Finished(AerException(AlreadyRun))
    {
      if disposed {
        return ObjectDisposed;
      }
      var before := hasRun;
      hasRun := true;
      if before {
        return InvalidOperation;
      }
      if canBeCanceled {
        var made := false;
        if !refused {
          made := MakeCancel(native);
        }
        if !made {
          return Finished(AerException(NullPointer));
        }
      }
      var code := RunOnce(native, run);
      r := Finished(BuildRunException(code));
    }
  }
}
