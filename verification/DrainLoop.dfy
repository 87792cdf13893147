/** src/os/mod.rs:92-124: the loop of one drain thread, reading into one reused buffer. */
module DrainLoop {
  import opened Kernel
  import opened Events
  import opened Streams

  /** What successive reads of a pipe meet. A reply with no bytes left reads as end of file. */
  datatype Reply = Data(bytes: seq<Byte>) | Interrupted | Broken

  datatype ReadResult = Read(n: nat) | Interrupt | Failure

  function Size(replies: seq<Reply>): nat {
    if replies == [] then 0
    else 1 + (if replies[0].Data? then |replies[0].bytes| else 0) + Size(replies[1..])
  }

  /** The bytes up to the first reply that ends a capturing drain. */
  function Readable(replies: seq<Reply>): seq<Byte> {
    if replies == [] || !replies[0].Data? || replies[0].bytes == [] then []
    else replies[0].bytes + Readable(replies[1..])
  }

  /** What a capturing drain leaves unread. */
  function Unread(replies: seq<Reply>): seq<Reply> {
    if replies == [] then []
    else if !replies[0].Data? || replies[0].bytes == [] then replies[1..]
    else Unread(replies[1..])
  }

  /** What `io::copy` leaves unread: an interrupted read is tried again. */
  function UnreadByCopy(replies: seq<Reply>): seq<Reply> {
    if replies == [] then []
    else if replies[0].Broken? || (replies[0].Data? && replies[0].bytes == []) then replies[1..]
    else UnreadByCopy(replies[1..])
  }

  /** The position of the first reply that is not some bytes: there a capturing drain stops. */
  function First(replies: seq<Reply>): (n: nat)
    ensures n <= |replies|
  {
    if replies == [] || !replies[0].Data? || replies[0].bytes == [] then 0
    else 1 + First(replies[1..])
  }

  lemma {:induction false} CopyTakesOne(replies: seq<Reply>)
    requires replies != []
    ensures |UnreadByCopy(replies)| < |replies|
  {
    if |replies| > 1 {
      CopyTakesOne(replies[1..]);
    }
  }

  /** The drain with a sink and the drain without one stop at the same place, exactly when the
      former is not stopped by an interrupt with something still to come. */
  lemma {:induction false} SameStopExactlyWhen(replies: seq<Reply>)
    ensures Unread(replies) == UnreadByCopy(replies)
            <==> !(First(replies) + 1 < |replies| && replies[First(replies)].Interrupted?)
  {
    if replies == [] {
    } else if First(replies) > 0 {
      SameStopExactlyWhen(replies[1..]);
      assert First(replies) < |replies| ==>
               replies[First(replies)] == replies[1..][First(replies[1..])];
    } else if |replies| > 1 {
      CopyTakesOne(replies[1..]);
    }
  }

  /** With capture on, an interrupted read loses the rest of the stream. */
  lemma InterruptLosesTheRest(bytes: seq<Byte>)
    requires bytes != []
    ensures Readable([Interrupted, Data(bytes)]) == []
    ensures Unread([Interrupted, Data(bytes)]) == [Data(bytes)]
    ensures UnreadByCopy([Interrupted, Data(bytes)]) == []
  {
    assert [Interrupted, Data(bytes)][1..] == [Data(bytes)];
    assert [Data(bytes)][1..] == [];
    assert UnreadByCopy([Data(bytes)]) == [];
  }

  class Reader {
    var replies: seq<Reply>

    constructor (replies: seq<Reply>)
      ensures this.replies == replies
    {
      this.replies := replies;
    }

    /** One `read(2)`: at most a buffer full of what is there; the rest stays. */
    method Read(buf: array<Byte>) returns (r: ReadResult)
      requires buf.Length > 0
      modifies this, buf
      ensures Size(replies) < Size(old(replies)) || (old(replies) == replies == [] && r == ReadResult.Read(0))
      ensures r.Read? ==> r.n <= buf.Length
      ensures r.Read? && r.n > 0 ==>
                && Readable(old(replies)) == buf[..r.n] + Readable(replies)
                && Unread(old(replies)) == Unread(replies)
                && UnreadByCopy(old(replies)) == UnreadByCopy(replies)
      ensures r.Read? && r.n == 0 ==>
                Readable(old(replies)) == [] && Unread(old(replies)) == replies == UnreadByCopy(old(replies))
      ensures !r.Read? ==> Readable(old(replies)) == [] && Unread(old(replies)) == replies
      ensures r.Interrupt? ==> UnreadByCopy(old(replies)) == UnreadByCopy(replies)
      ensures r.Failure? ==> UnreadByCopy(old(replies)) == replies
    {
      if replies == [] {
        return ReadResult.Read(0);
      }
      match replies[0]
      case Interrupted =>
        replies := replies[1..];
        r := Interrupt;
      case Broken =>
        replies := replies[1..];
        r := Failure;
      case Data(bytes) =>
        var n := if |bytes| < buf.Length then |bytes| else buf.Length;
        for i := 0 to n
          invariant replies == old(replies) && buf[..i] == bytes[..i]
        {
          buf[i] := bytes[i];
        }
        r := ReadResult.Read(n);
        if n == |bytes| {
          assert buf[..n] == bytes;
          replies := replies[1..];
        } else {
          replies := [Data(bytes[n..])] + replies[1..];
          assert bytes == bytes[..n] + bytes[n..];
          assert replies[1..] == old(replies)[1..];
        }
    }
  }

  /** The sending half of the chunk channel. The receiver may be dropped at any time; `sent`
      records what was handed to `send`, `taken` what a receiver was there for. */
  class Sender {
    const gone: nat -> bool
    var sent: seq<ChunkMsg>
    var taken: seq<ChunkMsg>

    constructor (gone: nat -> bool)
      ensures sent == [] && taken == []
    {
      this.gone := gone;
      sent, taken := [], [];
    }

    method Send(m: ChunkMsg) returns (ok: bool)
      modifies this
      ensures sent == old(sent) + [m]
      ensures taken == if ok then old(taken) + [m] else old(taken)
    {
      ok := !gone(|sent|);
      sent := sent + [m];
      if ok {
        taken := taken + [m];
      }
    }
  }

  /** With a sender, the drain forwards everything readable, in order, numbered from 0, in
      chunks of 1 to 8192 bytes, and stops at end of file or at the first read error of any
      kind - never because a send failed. Without one it discards and retries interrupts. */
  method Drain(reader: Reader, tx: Sender?, x: Stream)
    requires tx != null ==> tx.sent == []
    modifies reader, tx
    ensures tx != null ==>
              && Numbered(x, tx.sent)
              && Bytes(tx.sent) == Readable(old(reader.replies))
              && reader.replies == Unread(old(reader.replies))
    ensures tx == null ==> reader.replies == UnreadByCopy(old(reader.replies))
  {
    hide Readable, Unread, UnreadByCopy, Size;
    var buf := new Byte[CHUNK];
    if tx != null {
      var num := 0;
      while true
        invariant num == |tx.sent| && Numbered(x, tx.sent)
        invariant Bytes(tx.sent) + Readable(reader.replies) == Readable(old(reader.replies))
        invariant Unread(reader.replies) == Unread(old(reader.replies))
        decreases Size(reader.replies)
      {
        var r := reader.Read(buf);
        if !r.Read? || r.n == 0 {
          break;
        }
        ghost var before := tx.sent;
        var m := ChunkMsg(x, num, buf[..r.n]);
        var ok := tx.Send(m);   // the result is ignored
        assert tx.sent[..|tx.sent| - 1] == before;
        num := num + 1;
      }
    } else {
      while true
        invariant UnreadByCopy(reader.replies) == UnreadByCopy(old(reader.replies))
        decreases Size(reader.replies)
      {
        var r := reader.Read(buf);
        if r.Failure? || (r.Read? && r.n == 0) {
          break;
        }
      }
    }
  }
}
