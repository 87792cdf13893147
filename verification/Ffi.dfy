/** src/ffi.rs: the task handle, its setters, and `aer_task_run`, which may happen once. */
module Ffi {
  import opened Kernel
  import opened Events
  import opened TaskConfig

  datatype ErrorCode =
    | CodeOk
    | NullPointer
    | CodeSpawnFailed
    | CodeWaitFailed
    | CodeInvalidStateTransition
    | CodeTimedOut
    | CodeKillFailed
    | AlreadyRun
    | CodePanic
    | CodeCancelled
    | InvalidArgument

  /** A C string argument: NULL, bytes that are not UTF-8, or text. */
  datatype CString = Null | NotUtf8 | Text(text: string)

  function MapAerError(e: AerError): ErrorCode {
    match e
    case SpawnFailed => CodeSpawnFailed
    case WaitFailed => CodeWaitFailed
    case InvalidStateTransition => CodeInvalidStateTransition
    case TimedOut => CodeTimedOut
    case KillFailed => CodeKillFailed
    case Cancelled => CodeCancelled
  }

  /** `catch_unwind` turns a panic into a code. */
  function CodeOf(o: Outcome): ErrorCode {
    match o
    case Ok => CodeOk
    case Err(e) => MapAerError(e)
    case Panicked => CodePanic
  }

  /** One call on a non-null task handle. A `RunTask` carries how its run will end. */
  datatype Call =
    | SetTimeout(ms: nat)
    | SetCapture(capture: bool)
    | SetEnv(key: CString, value: CString)
    | SetClearEnv(clear: bool)
    | SetCwd(path: CString)
    | MakeCancelHandle
    | RunTask(outcome: Outcome)

  /** What a handle means: the configuration, whether it has run, whether a cancel handle was
      made, and the configurations it has run. */
  datatype Handle = Handle(task: Task, hasRun: bool, cancellable: bool, ran: seq<(Task, bool)>)

  predicate BadKey(key: string) {
    key == "" || '=' in key
  }

  /** The specification of one call. */
  function Apply(h: Handle, call: Call): (Handle, ErrorCode) {
    match call
    case MakeCancelHandle => (h.(cancellable := true), CodeOk)
    case RunTask(outcome) =>
      if h.hasRun then (h, AlreadyRun)
      else (h.(hasRun := true, ran := h.ran + [(h.task, h.cancellable)]), CodeOf(outcome))
    case SetEnv(key, value) =>
      if key.Null? || value.Null? then (h, NullPointer)
      else if h.hasRun then (h, AlreadyRun)
      else if key.NotUtf8? || value.NotUtf8? || BadKey(key.text) then (h, InvalidArgument)
      else (h.(task := h.task.(env := SetVar(h.task.env, key.text, value.text))), CodeOk)
    case SetCwd(path) =>
      if path.Null? then (h, NullPointer)
      else if h.hasRun then (h, AlreadyRun)
      else if path.NotUtf8? || path.text == "" then (h, InvalidArgument)
      else (h.(task := h.task.(cwd := Some(path.text))), CodeOk)
    case SetTimeout(ms) =>
      if h.hasRun then (h, AlreadyRun)
      else (h.(task := h.task.(timeout := Some(ms * 1_000_000))), CodeOk)
    case SetCapture(capture) =>
      if h.hasRun then (h, AlreadyRun)
      else (h.(task := h.task.(captureOutput := capture)), CodeOk)
    case SetClearEnv(clear) =>
      if h.hasRun then (h, AlreadyRun)
      else (h.(task := h.task.(clearEnv := clear)), CodeOk)
  }

  class AerTask {
    var inner: Option<Task>
    var hasRun: bool
    var cancel: bool
    ghost var ran: seq<(Task, bool)>

    /** Between calls the task is present: every setter puts back what it took. */
    ghost predicate Valid()
      reads this
    {
      inner.Some?
    }

    ghost function View(): Handle
      reads this
      requires Valid()
    {
      Handle(inner.value, hasRun, cancel, ran)
    }

    constructor (program: string, args: seq<string>)
      ensures Valid() && View() == Handle(NewTask(program, args), false, false, [])
    {
      inner := Some(NewTask(program, args));
      hasRun, cancel, ran := false, false, [];
    }
  }

  method WithTimeout(task: AerTask?, ms: nat) returns (code: ErrorCode)
    requires task != null ==> task.Valid()
    modifies task
    ensures task == null ==> code == NullPointer
    ensures task != null ==> task.Valid() && (task.View(), code) == Apply(old(task.View()), SetTimeout(ms))
  {
    if task == null {
      return NullPointer;
    }
    if task.hasRun {
      return AlreadyRun;
    }
    var taken := task.inner;
    task.inner := None;
    match taken
    case Some(inner) =>
      task.inner := Some(inner.(timeout := Some(ms * 1_000_000)));
      code := CodeOk;
    case None => code := AlreadyRun;
  }

  method WithCaptureOutput(task: AerTask?, capture: bool) returns (code: ErrorCode)
    requires task != null ==> task.Valid()
    modifies task
    ensures task == null ==> code == NullPointer
    ensures task != null ==> task.Valid() && (task.View(), code) == Apply(old(task.View()), SetCapture(capture))
  {
    if task == null {
      return NullPointer;
    }
    if task.hasRun {
      return AlreadyRun;
    }
    var taken := task.inner;
    task.inner := None;
    match taken
    case Some(inner) =>
      task.inner := Some(inner.(captureOutput := capture));
      code := CodeOk;
    case None => code := AlreadyRun;
  }

  method SetEnvVar(task: AerTask?, key: CString, value: CString) returns (code: ErrorCode)
    requires task != null ==> task.Valid()
    modifies task
    ensures task == null ==> code == NullPointer
    ensures task != null ==> task.Valid() && (task.View(), code) == Apply(old(task.View()), SetEnv(key, value))
  {
    if task == null || key.Null? || value.Null? {
      return NullPointer;
    }
    if task.hasRun {
      return AlreadyRun;
    }
    if !key.Text? {
      return InvalidArgument;
    }
    if !value.Text? {
      return InvalidArgument;
    }
    if key.text == "" || '=' in key.text {
      return InvalidArgument;
    }
    var taken := task.inner;
    task.inner := None;
    match taken
    case Some(inner) =>
      var r := WithEnv(inner, key.text, value.text);
      task.inner := Some(r);
      code := CodeOk;
    case None => code := AlreadyRun;
  }

  method SetClearEnvFlag(task: AerTask?, clear: bool) returns (code: ErrorCode)
    requires task != null ==> task.Valid()
    modifies task
    ensures task == null ==> code == NullPointer
    ensures task != null ==> task.Valid() && (task.View(), code) == Apply(old(task.View()), SetClearEnv(clear))
  {
    if task == null {
      return NullPointer;
    }
    if task.hasRun {
      return AlreadyRun;
    }
    var taken := task.inner;
    task.inner := None;
    match taken
    case Some(inner) =>
      task.inner := Some(inner.(clearEnv := clear));
      code := CodeOk;
    case None => code := AlreadyRun;
  }

  method SetWorkingDir(task: AerTask?, path: CString) returns (code: ErrorCode)
    requires task != null ==> task.Valid()
    modifies task
    ensures task == null ==> code == NullPointer
    ensures task != null ==> task.Valid() && (task.View(), code) == Apply(old(task.View()), SetCwd(path))
  {
    if task == null || path.Null? {
      return NullPointer;
    }
    if task.hasRun {
      return AlreadyRun;
    }
    if !path.Text? {
      return InvalidArgument;
    }
    if path.text == "" {
      return InvalidArgument;
    }
    var taken := task.inner;
    task.inner := None;
    match taken
    case Some(inner) =>
      task.inner := Some(inner.(cwd := Some(path.text)));
      code := CodeOk;
    case None => code := AlreadyRun;
  }

  /** `run` says how `run_impl` ends when it is called; it is consulted at most once. */
  method RunOnce(task: AerTask?, run: Outcome) returns (code: ErrorCode)
    requires task != null ==> task.Valid()
    modifies task
    ensures task == null ==> code == NullPointer
    ensures task != null ==> task.Valid() && (task.View(), code) == Apply(old(task.View()), RunTask(run))
  {
    if task == null {
      return NullPointer;
    }
    if task.hasRun {
      return AlreadyRun;
    }
    task.hasRun := true;
    match task.inner
    case Some(inner) =>
      task.ran := task.ran + [(inner, task.cancel)];
      match run {
        case Ok => code := CodeOk;
        case Err(e) => code := MapAerError(e);
        case Panicked => code := CodePanic;
      }
    case None => code := AlreadyRun;
  }

  method MakeCancel(task: AerTask?) returns (made: bool)
    requires task != null ==> task.Valid()
    modifies task
    ensures made <==> task != null
    ensures task != null ==> task.Valid() && task.View() == Apply(old(task.View()), MakeCancelHandle).0
  {
    made := task != null;
    if made {
      task.cancel := true;
    }
  }

  // ----- any sequence of calls

  function ApplyAll(h: Handle, calls: seq<Call>): Handle
    decreases |calls|
  {
    if calls == [] then h else ApplyAll(Apply(h, calls[0]).0, calls[1..])
  }

  /** The setters alone, on a task that never runs. */
  function Configure(task: Task, calls: seq<Call>): Task
    decreases |calls|
  {
    if calls == [] then task
    else
      var h := Handle(task, false, false, []);
      Configure(if calls[0].RunTask? then task else Apply(h, calls[0]).0.task, calls[1..])
  }

  function FirstRun(calls: seq<Call>): nat
    ensures FirstRun(calls) <= |calls|
  {
    if calls == [] || calls[0].RunTask? then 0 else 1 + FirstRun(calls[1..])
  }

  /** Once a handle has run, every later call on it reports AlreadyRun, or rejects a null
      argument, and neither runs anything nor changes the configuration. */
  lemma {:induction false} AfterTheRun(h: Handle, calls: seq<Call>)
    requires h.hasRun
    ensures ApplyAll(h, calls).(cancellable := h.cancellable) == h
    ensures forall call | call in calls && !call.MakeCancelHandle? ::
              Apply(ApplyAll(h, calls), call).1 in {AlreadyRun, NullPointer}
    decreases |calls|
  {
    if calls == [] {
    } else {
      AfterTheRun(Apply(h, calls[0]).0, calls[1..]);
    }
  }

  /** Single-shot: over any sequence of calls the first run, and only that, executes, with the
      configuration made by the calls before it; calls after it are refused. */
  lemma {:induction false} SingleShot(h: Handle, calls: seq<Call>)
    requires !h.hasRun && h.ran == []
    ensures var end := ApplyAll(h, calls);
            var first := FirstRun(calls);
            var task := Configure(h.task, calls[..first]);
            && end.task == task
            && end.hasRun == (first < |calls|)
            && |end.ran| == (if first < |calls| then 1 else 0)
            && (first < |calls| ==> end.ran[0].0 == task)
            && (first < |calls| ==>
                  (end.ran[0].1 <==> h.cancellable || MakeCancelHandle in calls[..first]))
    decreases |calls|
  {
    if calls == [] {
    } else if calls[0].RunTask? {
      AfterTheRun(Apply(h, calls[0]).0, calls[1..]);
    } else {
      var h1 := Apply(h, calls[0]).0;
      SingleShot(h1, calls[1..]);
      var first := FirstRun(calls);
      assert calls[..first][1..] == calls[1..][..first - 1];
    }
  }
}
