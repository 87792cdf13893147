/** What any sequence of calls on a fresh handle amounts to, said without the specification of
    the single call: the configuration of the one run, and the answer to every call. */
module FfiCalls {
  import opened Kernel
  import opened TaskConfig
  import opened Ffi

  function Fresh(program: string, args: seq<string>): Handle {
    Handle(NewTask(program, args), false, false, [])
  }

  /** What the last call says that says anything. */
  function LastOf<T>(calls: seq<Call>, says: Call -> Option<T>): Option<T> {
    if calls == [] then None
    else if says(calls[|calls| - 1]).Some? then says(calls[|calls| - 1])
    else LastOf(calls[..|calls| - 1], says)
  }

  /** A timeout in nanoseconds. */
  function TimeoutOf(call: Call): Option<nat> {
    if call.SetTimeout? then Some(call.ms * 1_000_000) else None
  }

  function CaptureOf(call: Call): Option<bool> {
    if call.SetCapture? then Some(call.capture) else None
  }

  function ClearOf(call: Call): Option<bool> {
    if call.SetClearEnv? then Some(call.clear) else None
  }

  function CwdOf(call: Call): Option<string> {
    if call.SetCwd? && call.path.Text? && call.path.text != "" then Some(call.path.text) else None
  }

  /** The value a call gives to the variable `key`, which is not empty and has no '='. */
  function ValueOf(key: string): Call -> Option<string> {
    (call: Call) =>
      if && call.SetEnv? && call.key == Text(key) && call.value.Text?
         && key != "" && '=' !in key
      then Some(call.value.text)
      else None
  }

  function OrFalse(b: Option<bool>): bool {
    b.Some? && b.value
  }

  /** `task` is what `calls` ask for, each setting by its last valid call. */
  ghost predicate AsCalled(program: string, args: seq<string>, calls: seq<Call>, task: Task) {
    && task.program == program && task.args == args
    && task.timeout == LastOf(calls, TimeoutOf)
    && task.captureOutput == OrFalse(LastOf(calls, CaptureOf))
    && task.clearEnv == OrFalse(LastOf(calls, ClearOf))
    && task.cwd == LastOf(calls, CwdOf)
    && Distinct(task.env)
    && forall key :: VarIs(task.env, key, LastOf(calls, ValueOf(key)))
  }

  ghost predicate VarIs(env: seq<Entry>, key: string, value: Option<string>) {
    match value
    case Some(v) => key in Vars(env) && Vars(env)[key] == v
    case None => key !in Vars(env)
  }

  lemma LastSnoc<T>(calls: seq<Call>, call: Call, says: Call -> Option<T>)
    ensures LastOf(calls + [call], says) == if says(call).Some? then says(call) else LastOf(calls, says)
  {
    assert (calls + [call])[..|calls|] == calls;
  }

  lemma {:induction false} ApplyAllAppend(h: Handle, first: seq<Call>, next: seq<Call>)
    ensures ApplyAll(h, first + next) == ApplyAll(ApplyAll(h, first), next)
    decreases |first|
  {
    if first == [] {
      assert first + next == next;
    } else {
      assert (first + next)[1..] == first[1..] + next;
      ApplyAllAppend(Apply(h, first[0]).0, first[1..], next);
    }
  }

  /** One call more before the run. */
  lemma CalledOnce(program: string, args: seq<string>, calls: seq<Call>, h: Handle, call: Call)
    requires AsCalled(program, args, calls, h.task) && !h.hasRun && !call.RunTask?
    ensures var h1 := Apply(h, call).0;
            && AsCalled(program, args, calls + [call], h1.task)
            && !h1.hasRun && h1.ran == h.ran
            && (h1.cancellable <==> h.cancellable || call.MakeCancelHandle?)
  {
    LastSnoc(calls, call, TimeoutOf);
    LastSnoc(calls, call, CaptureOf);
    LastSnoc(calls, call, ClearOf);
    LastSnoc(calls, call, CwdOf);
    var h1 := Apply(h, call).0;
    EnvCalledOnce(calls, h, call);
    hide LastOf, Vars, SetVar, Distinct;
  }

  lemma EnvCalledOnce(calls: seq<Call>, h: Handle, call: Call)
    requires Distinct(h.task.env) && !h.hasRun && !call.RunTask?
    requires forall key :: VarIs(h.task.env, key, LastOf(calls, ValueOf(key)))
    ensures Distinct(Apply(h, call).0.task.env)
    ensures forall key :: VarIs(Apply(h, call).0.task.env, key, LastOf(calls + [call], ValueOf(key)))
  {
    hide LastOf, Vars, SetVar, Distinct, VarIs, ValueOf, Apply;
    var env1 := Apply(h, call).0.task.env;
    EnvAfter(h, call);
    forall key
      ensures VarIs(env1, key, LastOf(calls + [call], ValueOf(key)))
    {
      LastSnoc(calls, call, ValueOf(key));
      VarAfter(h.task.env, env1, call, key, LastOf(calls, ValueOf(key)));
    }
  }

  /** A valid call sets its variable, and no other call changes the environment. */
  lemma EnvAfter(h: Handle, call: Call)
    requires Distinct(h.task.env) && !h.hasRun && !call.RunTask?
    ensures var env1 := Apply(h, call).0.task.env;
            && Distinct(env1)
            && Vars(env1) == if call.SetEnv? && call.key.Text? && call.value.Text?
                                && call.key.text != "" && '=' !in call.key.text
                             then Vars(h.task.env)[call.key.text := call.value.text]
                             else Vars(h.task.env)
  {
    if call.SetEnv? && call.key.Text? && call.value.Text? {
      SetVarDistinct(h.task.env, call.key.text, call.value.text);
      SetVarMeansUpdate(h.task.env, call.key.text, call.value.text);
    }
    hide Vars, SetVar, Distinct;
  }

  lemma VarAfter(env: seq<Entry>, env1: seq<Entry>, call: Call, key: string, was: Option<string>)
    requires VarIs(env, key, was)
    requires Vars(env1) == if call.SetEnv? && call.key.Text? && call.value.Text?
                              && call.key.text != "" && '=' !in call.key.text
                           then Vars(env)[call.key.text := call.value.text]
                           else Vars(env)
    ensures VarIs(env1, key, if ValueOf(key)(call).Some? then ValueOf(key)(call) else was)
  {
    hide Vars;
  }

  /** Before the run. */
  lemma {:induction false} Configured(program: string, args: seq<string>, calls: seq<Call>)
    requires forall call | call in calls :: !call.RunTask?
    ensures var h := ApplyAll(Fresh(program, args), calls);
            && AsCalled(program, args, calls, h.task)
            && !h.hasRun && h.ran == []
            && (h.cancellable <==> MakeCancelHandle in calls)
  {
    if calls == [] {
    } else {
      var pre, last := calls[..|calls| - 1], calls[|calls| - 1];
      assert calls == pre + [last];
      Configured(program, args, pre);
      ApplyAllAppend(Fresh(program, args), pre, [last]);
      assert [last][1..] == [];
      CalledOnce(program, args, pre, ApplyAll(Fresh(program, args), pre), last);
      hide AsCalled;
    }
  }

  /** The one run: whatever calls are made on a fresh handle, the first `aer_task_run` and no
      other one executes, with program and arguments as created, each setting that of its last
      valid call before it or the default, the timeout in milliseconds, the environment with each
      key once; and it can be cancelled exactly when a cancel handle was made before it. */
  lemma RunsAsCalled(program: string, args: seq<string>, calls: seq<Call>, first: nat)
    requires first < |calls| && calls[first].RunTask?
    requires forall i | 0 <= i < first :: !calls[i].RunTask?
    ensures var ran := ApplyAll(Fresh(program, args), calls).ran;
            && |ran| == 1 && AsCalled(program, args, calls[..first], ran[0].0)
            && (ran[0].1 <==> MakeCancelHandle in calls[..first])
  {
    var pre, rest := calls[..first], calls[first + 1..];
    assert calls == pre + ([calls[first]] + rest);
    ApplyAllAppend(Fresh(program, args), pre, [calls[first]] + rest);
    Configured(program, args, pre);
    var h := ApplyAll(Fresh(program, args), pre);
    assert ([calls[first]] + rest)[1..] == rest;
    AfterTheRun(Apply(h, calls[first]).0, rest);
    hide AsCalled, ApplyAll;
  }

  lemma {:induction false} HasRunWhen(h: Handle, calls: seq<Call>)
    ensures ApplyAll(h, calls).hasRun <==> h.hasRun || exists i :: 0 <= i < |calls| && calls[i].RunTask?
    decreases |calls|
  {
    if calls == [] {
    } else {
      HasRunWhen(Apply(h, calls[0]).0, calls[1..]);
      assert forall i | 0 < i < |calls| :: calls[i] == calls[1..][i - 1];
      assert forall i | 0 <= i < |calls| - 1 :: calls[1..][i] == calls[i + 1];
    }
  }

  /** The answer to call `i`: a null argument, then a run that has been, then an argument that is
      not text or not acceptable, in this order. */
  lemma AnswersTo(program: string, args: seq<string>, calls: seq<Call>, i: nat)
    requires i < |calls|
    ensures var answer := Apply(ApplyAll(Fresh(program, args), calls[..i]), calls[i]).1;
            var late := exists j :: 0 <= j < i && calls[j].RunTask?;
            match calls[i]
            case MakeCancelHandle => answer == CodeOk
            case RunTask(outcome) => answer == if late then AlreadyRun else CodeOf(outcome)
            case SetEnv(key, value) =>
              if key.Null? || value.Null? then answer == NullPointer
              else if late then answer == AlreadyRun
              else (answer == InvalidArgument <==>
                      key.NotUtf8? || value.NotUtf8? || key.text == "" || '=' in key.text)
                   && answer in {InvalidArgument, CodeOk}
            case SetCwd(path) =>
              if path.Null? then answer == NullPointer
              else if late then answer == AlreadyRun
              else (answer == InvalidArgument <==> path.NotUtf8? || path.text == "")
                   && answer in {InvalidArgument, CodeOk}
            case _ => answer == if late then AlreadyRun else CodeOk
  {
    HasRunWhen(Fresh(program, args), calls[..i]);
    assert forall j | 0 <= j < i :: calls[..i][j] == calls[j];
    hide ApplyAll, CodeOf;
  }
}
