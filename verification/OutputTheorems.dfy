/** What the library promises about captured output and about the pipes. */
module OutputTheorems {
  import opened Kernel
  import opened Events
  import opened Protocol
  import opened Lifecycle
  import opened Handshake
  import opened Report
  import opened Streams
  import opened Progress
  import opened Runs
  import opened RunTheorems

  lemma InvGivesStream(c: Config, s: State, x: Stream)
    requires Inv(c, s) && c.capture
    ensures StreamInv(x, s) && PumpedInv(s)
  {
    hide GroupInv, EventInv, HandleInv, ReportInv, DeadInv, EscInv, CountInv, StreamInv, PumpedInv;
  }

  /** While the receiver is there, delivered ++ queued ++ in hand ++ unread is what the members
      wrote, in every state of every capture run, read errors or not; and what has been
      delivered is always a prefix of it, even after a callback panicked. */
  lemma NothingIsLost(c: Config, acts: seq<Action>, s: State, x: Stream)
    requires IsRun(c, acts, s) && c.capture
    ensures s.io.rxOpen ==> Conserved(x, s)
    ensures Bytes(Delivered(x, s.r.trace)) <= s.k.Pipe(x).written
  {
    InvRun(c, acts, s);
    InvGivesStream(c, s, x);
    hide Conserved, Numbered, Delivered, Bytes;
  }

  /** For any interleaving of the two drains, each stream's callbacks are numbered 0, 1, 2, ...
      and carry 1 to 8192 bytes each. */
  lemma NumberedThroughTheMerge(c: Config, acts: seq<Action>, s: State, x: Stream)
    requires IsRun(c, acts, s)
    ensures Numbered(x, Delivered(x, s.r.trace))
  {
    InvRun(c, acts, s);
    if c.capture {
      InvGivesStream(c, s, x);
      hide Delivered, Numbered, Conserved;
    } else {
      hide GroupInv, HandleInv, ReportInv, DeadInv, CaptureInv, EscInv, CountInv, MachineInv;
      NoChunks(x, s.r.trace);
    }
  }

  lemma {:induction false} NoChunks(x: Stream, t: seq<Event>)
    requires |t| <= 2 && forall e | e in t :: e.Chunk? ==> false
    ensures Delivered(x, t) == []
  {
    if t == [] {
    } else {
      NoChunks(x, t[..|t| - 1]);
    }
  }

  /** When Exited is emitted the stream is complete: everything the members wrote has been
      delivered, except what a read error left in the pipe; nothing is written afterwards
      to a stream that was read to its end. */
  lemma ExitedMeansComplete(c: Config, acts: seq<Action>, s: State, x: Stream,
                            more: seq<Action>, t: State)
    requires IsRun(c, acts, s) && c.capture && Reported(s.r.trace)
    requires Exec(c, s, more) == Some(t)
    ensures Bytes(Delivered(x, s.r.trace)) + s.k.Pipe(x).buf == s.k.Pipe(x).written
    ensures s.io.Drain(x).DEnd?
    ensures s.io.Drain(x).eof ==>
              && Bytes(Delivered(x, s.r.trace)) == s.k.Pipe(x).written
              && t.k.Pipe(x).written == s.k.Pipe(x).written
  {
    InvRun(c, acts, s);
    InvGivesStream(c, s, x);
    ReportedSpawned(c, s);
    GroupAbsorbs(c, s, more, t);
    AllTaken(x, s);
    hide Inv, Exec, Delivered, Bytes;
  }

  lemma AllTaken(x: Stream, s: State)
    requires StreamInv(x, s) && PumpedInv(s) && Reported(s.r.trace)
    ensures Bytes(Delivered(x, s.r.trace)) + s.k.Pipe(x).buf == s.k.Pipe(x).written
  {
    assert Taken(x, s) == Delivered(x, s.r.trace);
    hide Delivered, Bytes;
  }

  lemma ReportedSpawned(c: Config, s: State)
    requires Inv(c, s) && Reported(s.r.trace)
    ensures PhaseOf(s.r.pc).Unwinding?
  {
    hide GroupInv, EventInv, HandleInv, DeadInv, CaptureInv, EscInv, CountInv;
  }

  /** A member that wants to write `n` bytes must sleep: the pipe has a reader and no room. */
  predicate Blocked(c: Config, s: State, x: Stream, n: nat) {
    !s.io.Drain(x).DEnd? && |s.k.Pipe(x).buf| + n > c.cap
  }

  /** A full pipe cannot stall the group: its own drain, moving alone, makes room for any write
      that fits the pipe - whatever the other stream holds, and with nobody receiving. */
  lemma {:induction false} DrainAloneMakesRoom(c: Config, s: State, x: Stream)
    returns (more: seq<Action>, t: State)
    requires s.io.Drain(x).DRead? || s.io.Drain(x).DSend?
    ensures Exec(c, s, more) == Some(t) && t.k.Pipe(x).buf == []
    ensures forall a | a in more :: a.Copy? && a.x == x && a.fault.NoFault?
    ensures !t.io.Drain(x).DNone? && t.k.Pipe(x).writers == s.k.Pipe(x).writers
    ensures forall n: nat | n <= c.cap :: !Blocked(c, t, x, n)
    decreases |s.k.Pipe(x).buf|, if s.io.Drain(x).DSend? then 1 else 0
  {
    if s.k.Pipe(x).buf == [] {
      return [], s;
    }
    var a := DrainMove(s, x);
    var s1 := DrainMoves(c, s, x);
    var rest, u := DrainAloneMakesRoom(c, s1, x);
    assert ([a] + rest)[1..] == rest;
    hide Step, Blocked;
    more, t := [a] + rest, u;
  }

  lemma DrainMoves(c: Config, s: State, x: Stream) returns (s1: State)
    requires (s.io.Drain(x).DRead? && s.k.Pipe(x).buf != []) || s.io.Drain(x).DSend?
    ensures Step(c, s, DrainMove(s, x)) == Some(s1)
    ensures s1.io.Drain(x).DRead? || s1.io.Drain(x).DSend?
    ensures s1.k.Pipe(x).writers == s.k.Pipe(x).writers
    ensures |s1.k.Pipe(x).buf| < |s.k.Pipe(x).buf|
            || (s1.k.Pipe(x).buf == s.k.Pipe(x).buf && s.io.Drain(x).DSend? && s1.io.Drain(x).DRead?)
  {
    s1 := Step(c, s, DrainMove(s, x)).value;
  }
}
