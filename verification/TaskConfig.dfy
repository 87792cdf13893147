/** src/task.rs:127-197, the builders of `Task`, and the environment part of `spawn` in
    src/os/unix.rs:28-35. */
module TaskConfig {
  import opened Kernel

  type Entry = (string, string)

  datatype Task = Task(program: string, args: seq<string>, timeout: Option<nat>, captureOutput: bool,
                       env: seq<Entry>, clearEnv: bool, cwd: Option<string>)

  function NewTask(program: string, args: seq<string>): Task {
    Task(program, args, None, false, [], false, None)
  }

  /** Each key at most once. */
  ghost predicate Distinct(env: seq<Entry>) {
    forall i, j | 0 <= i < j < |env| :: env[i].0 != env[j].0
  }

  /** The variables an entry list sets, applied in order: later entries win. */
  function Vars(env: seq<Entry>): map<string, string> {
    if env == [] then map[]
    else Vars(env[..|env| - 1])[env[|env| - 1].0 := env[|env| - 1].1]
  }

  /** The list after setting one variable: replaced where it stands, else appended. */
  function SetVar(env: seq<Entry>, key: string, value: string): seq<Entry> {
    if env == [] then [(key, value)]
    else if env[0].0 == key then [(key, value)] + env[1..]
    else [env[0]] + SetVar(env[1..], key, value)
  }

  /** Where the key stands the value is overwritten, everything else staying in its place; a new
      key is appended. */
  lemma {:induction false} SetVarInPlace(env: seq<Entry>, key: string, value: string, i: nat)
    requires i <= |env| && (forall j | 0 <= j < i :: env[j].0 != key)
    requires i < |env| ==> env[i].0 == key
    ensures SetVar(env, key, value) == if i < |env| then env[i := (key, value)] else env + [(key, value)]
  {
    var e := (key, value);
    if env == [] {
    } else if i == 0 {
      assert env[0 := e] == [e] + env[1..];
    } else {
      SetVarInPlace(env[1..], key, value, i - 1);
      if i < |env| {
        assert env[i := e] == [env[0]] + env[1..][i - 1 := e];
      } else {
        assert env + [e] == [env[0]] + (env[1..] + [e]);
      }
    }
  }

  /** `with_env`: look for the key, overwrite its value in place or push a new entry. */
  method WithEnv(task: Task, key: string, value: string) returns (r: Task)
    ensures r == task.(env := SetVar(task.env, key, value))
  {
    var env := task.env;
    var i := 0;
    while i < |env| && env[i].0 != key
      invariant 0 <= i <= |env| && env == task.env
      invariant forall j | 0 <= j < i :: env[j].0 != key
    {
      i := i + 1;
    }
    SetVarInPlace(env, key, value, i);
    if i < |env| {
      env := env[i := (key, value)];
    } else {
      env := env + [(key, value)];
    }
    r := task.(env := env);
  }

  lemma {:induction false} SetVarKeys(env: seq<Entry>, key: string, value: string, k: string)
    ensures (exists e :: e in SetVar(env, key, value) && e.0 == k)
            <==> k == key || exists e :: e in env && e.0 == k
  {
    if env == [] {
      assert (key, value) in SetVar(env, key, value);
    } else if env[0].0 == key {
      assert (key, value) in SetVar(env, key, value);
      assert env == [env[0]] + env[1..];
    } else {
      SetVarKeys(env[1..], key, value, k);
      assert env == [env[0]] + env[1..];
    }
  }

  /** Setting a variable keeps the keys distinct ... */
  lemma {:induction false} SetVarDistinct(env: seq<Entry>, key: string, value: string)
    requires Distinct(env)
    ensures Distinct(SetVar(env, key, value))
  {
    if env == [] || env[0].0 == key {
    } else {
      SetVarDistinct(env[1..], key, value);
      SetVarKeys(env[1..], key, value, env[0].0);
      var rest := SetVar(env[1..], key, value);
      forall j | 0 <= j < |rest|
        ensures rest[j].0 != env[0].0
      {
        assert rest[j] in rest;
      }
    }
  }

  lemma {:induction false} VarsHead(e: Entry, env: seq<Entry>)
    ensures Vars([e] + env) == map[e.0 := e.1] + Vars(env)
  {
    if env == [] {
      assert [e] + env == [e];
      assert [e][..0] == [];
    } else {
      var all := [e] + env;
      assert all[..|all| - 1] == [e] + env[..|env| - 1];
      VarsHead(e, env[..|env| - 1]);
    }
  }

  lemma {:induction false} VarsDomain(env: seq<Entry>, k: string)
    ensures k in Vars(env) <==> exists e :: e in env && e.0 == k
  {
    if env == [] {
    } else {
      VarsDomain(env[..|env| - 1], k);
      assert env == env[..|env| - 1] + [env[|env| - 1]];
    }
  }

  /** ... and sets exactly that variable. */
  lemma {:induction false} SetVarMeansUpdate(env: seq<Entry>, key: string, value: string)
    requires Distinct(env)
    ensures Vars(SetVar(env, key, value)) == Vars(env)[key := value]
  {
    if env == [] {
      VarsHead((key, value), []);
      assert [(key, value)] + [] == [(key, value)];
    } else {
      var e, rest := env[0], env[1..];
      assert env == [e] + rest;
      VarsHead(e, rest);
      if e.0 == key {
        VarsHead((key, value), rest);
        VarsDomain(rest, key);
        MapHit(Vars(rest), key, e.1, value);
      } else {
        SetVarMeansUpdate(rest, key, value);
        VarsHead(e, SetVar(rest, key, value));
        MapMiss(Vars(rest), e.0, e.1, key, value);
      }
      hide Vars;
    }
  }

  lemma MapHit<K, V>(m: map<K, V>, k: K, u: V, v: V)
    requires k !in m
    ensures (map[k := u] + m)[k := v] == map[k := v] + m
  {}

  lemma MapMiss<K, V>(m: map<K, V>, j: K, u: V, k: K, v: V)
    requires j != k
    ensures (map[j := u] + m)[k := v] == map[j := u] + m[k := v]
  {}

  /** The list after any sequence of `with_env` calls. */
  function SetAll(calls: seq<Entry>): seq<Entry> {
    if calls == [] then []
    else SetVar(SetAll(calls[..|calls| - 1]), calls[|calls| - 1].0, calls[|calls| - 1].1)
  }

  /** However often keys repeat, the list has each key once and means: the last call wins. */
  lemma {:induction false} LastCallWins(calls: seq<Entry>)
    ensures Distinct(SetAll(calls)) && Vars(SetAll(calls)) == Vars(calls)
  {
    if calls == [] {
    } else {
      var pre := calls[..|calls| - 1];
      LastCallWins(pre);
      SetVarDistinct(SetAll(pre), calls[|calls| - 1].0, calls[|calls| - 1].1);
      SetVarMeansUpdate(SetAll(pre), calls[|calls| - 1].0, calls[|calls| - 1].1);
    }
  }

  /** `spawn`: clear first if asked to, then apply the entries one by one. */
  method ChildEnv(parent: map<string, string>, task: Task) returns (env: map<string, string>)
    ensures env == (if task.clearEnv then map[] else parent) + Vars(task.env)
  {
    env := parent;
    if task.clearEnv {
      env := map[];
    }
    ghost var base := env;
    for i := 0 to |task.env|
      invariant env == base + Vars(task.env[..i])
    {
      env := env[task.env[i].0 := task.env[i].1];
      assert task.env[..i + 1][..i] == task.env[..i];
    }
    assert task.env[..|task.env|] == task.env;
  }
}
