/** src/event.rs and the error type of src/lib.rs. */
module Events {
  import opened Kernel

  datatype ExitReason = NaturalExit | TimedOut | CancelRequested

  /** A captured chunk, tagged with its stream and its per-stream number. */
  datatype ChunkMsg = ChunkMsg(x: Stream, num: nat, bytes: seq<Byte>)

  datatype Event =
    | Started(pid: Pid)
    | Exited(code: int, reason: ExitReason)
    | Chunk(msg: ChunkMsg)

  datatype AerError =
    | SpawnFailed
    | WaitFailed
    | InvalidStateTransition
    | TimedOut
    | KillFailed
    | Cancelled

  /** How `run_impl` ends: a value, an error, or unwinding out of a callback. */
  datatype Outcome = Ok | Err(error: AerError) | Panicked

  const CHUNK := 8192
}
