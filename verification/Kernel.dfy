/** What the operating system contributes to one run: the process group led by the
    spawned root, the two pipes its members write to, and the signal and wait calls
    (`kill`, `killpg`, `setsid`, `waitpid` of IEEE Std 1003.1-2017). */
module Kernel {

  type Pid = int
  type Byte = bv8

  datatype Option<+T> = None | Some(value: T)

  datatype Stream = Stdout | Stderr

  /** `Null` is signal 0, the existence probe. */
  datatype Sig = Null | Term | Kill

  datatype Errno = Success | ESRCH | EPERM

  /** `written` is the history of everything members ever wrote; `buf` is what is unread. */
  datatype Pipe = Pipe(buf: seq<Byte>, writers: set<Pid>, written: seq<Byte>)

  /** `status` is the root's wait status once it is no longer live:
      `Some(code)` for an exit, `None` for death by signal. */
  datatype Group = Group(root: Pid, live: set<Pid>, zombies: set<Pid>, status: Option<int>,
                         out: Pipe, err: Pipe)
  {
    function Members(): set<Pid> {
      live + zombies
    }

    function Pipe(x: Stream): Pipe {
      if x.Stdout? then out else err
    }

    function WithPipe(x: Stream, p: Pipe): Group {
      if x.Stdout? then this.(out := p) else this.(err := p)
    }
  }

  /** `wait_res...code().unwrap_or(-1)` of the root's status. */
  function ExitCode(status: Option<int>): int {
    match status
    case Some(code) => code
    case None => -1
  }

  const NO_PIPE := Pipe.Pipe([], {}, [])

  /** Before the spawn there is no group. */
  function Unborn(root: Pid): Group {
    Group(root, {}, {}, None, NO_PIPE, NO_PIPE)
  }

  /** The root is in its own group, and holds both write ends, when `spawn` returns. */
  function Spawned(root: Pid): Group {
    Group(root, {root}, {}, None, Pipe.Pipe([], {root}, []), Pipe.Pipe([], {root}, []))
  }

  /** Everything that can happen to a group. `Signal` and `WaitRoot` and `Read` are calls
      made by this library; the rest is done by the members and by init. */
  datatype Act =
    | Fork(parent: Pid, child: Pid)
    | Exit(pid: Pid, status: Option<int>)
    | Reap(pid: Pid)
    | Write(pid: Pid, x: Stream, bytes: seq<Byte>)
    | Close(pid: Pid, x: Stream)
    | Read(x: Stream, n: nat)
    | Signal(sig: Sig)
    | WaitRoot

  function Bury(p: Pipe, dead: set<Pid>): Pipe {
    p.(writers := p.writers - dead)
  }

  /** The processes `dead` become zombies and lose their write ends. */
  function Slay(g: Group, dead: set<Pid>, status: Option<int>): Group {
    g.(live := g.live - dead,
       zombies := g.zombies + (g.live * dead),
       status := if g.root in g.live && g.root in dead then status else g.status,
       out := Bury(g.out, dead),
       err := Bury(g.err, dead))
  }

  /** A group signal fails with ESRCH exactly when the group has no member, live or zombie.
      SIGTERM and signal 0 leave the group alone: a member may exit at any time anyway. */
  function KillPg(g: Group, sig: Sig): (Group, Errno) {
    if g.Members() == {} then (g, ESRCH)
    else (if sig.Kill? then Slay(g, g.live, None) else g, Success)
  }

  function KillPid(g: Group, sig: Sig): (Group, Errno) {
    if g.root !in g.Members() then (g, ESRCH)
    else (if sig.Kill? then Slay(g, {g.root}, None) else g, Success)
  }

  /** `killpg`, falling back to `kill` on the pid after ESRCH. */
  function SignalGroup(g: Group, sig: Sig): Group {
    var (g1, e) := KillPg(g, sig);
    if e.ESRCH? then KillPid(g1, sig).0 else g1
  }

  /** The probe of `tree_alive`: anything but ESRCH from both calls means alive. */
  function TreeAlive(g: Group): bool {
    !KillPg(g, Null).1.ESRCH? || !KillPid(g, Null).1.ESRCH?
  }

  function Inherit(p: Pipe, parent: Pid, child: Pid): Pipe {
    if parent in p.writers then p.(writers := p.writers + {child}) else p
  }

  predicate Can(cap: nat, g: Group, a: Act) {
    match a
    case Fork(parent, child) => parent in g.live && child !in g.Members() && child != g.root
    case Exit(pid, _) => pid in g.live
    case Reap(pid) => pid in g.zombies && pid != g.root
    case Write(pid, x, bytes) =>
      && pid in g.live && pid in g.Pipe(x).writers && bytes != []
      && |g.Pipe(x).buf| + |bytes| <= cap
    case Close(pid, x) => pid in g.Pipe(x).writers
    case Read(x, n) => 0 < n <= |g.Pipe(x).buf|
    case Signal(_) => true
    case WaitRoot => g.root in g.zombies
  }

  function Do(g: Group, a: Act): Group
    requires a.Read? ==> a.n <= |g.Pipe(a.x).buf|
  {
    match a
    case Fork(parent, child) =>
      g.(live := g.live + {child},
         out := Inherit(g.out, parent, child),
         err := Inherit(g.err, parent, child))
    case Exit(pid, status) => Slay(g, {pid}, status)
    case Reap(pid) => g.(zombies := g.zombies - {pid})
    case Write(_, x, bytes) =>
      var p := g.Pipe(x);
      g.WithPipe(x, p.(buf := p.buf + bytes, written := p.written + bytes))
    case Close(pid, x) =>
      var p := g.Pipe(x);
      g.WithPipe(x, p.(writers := p.writers - {pid}))
    case Read(x, n) =>
      var p := g.Pipe(x);
      g.WithPipe(x, p.(buf := p.buf[n..]))
    case Signal(sig) => SignalGroup(g, sig)
    case WaitRoot => g.(zombies := g.zombies - {g.root})
  }

  ghost predicate Sane(cap: nat, g: Group) {
    && g.live !! g.zombies
    && g.out.writers <= g.live && g.err.writers <= g.live
    && |g.out.buf| <= cap && |g.err.buf| <= cap
  }

  /** The relation between a group and one of its successors that every argument about
      killing rests on: death of the group, of all its live members, of the root and of
      a pipe's writers is for ever, and only writers extend what was written. */
  ghost predicate Absorbing(g: Group, h: Group) {
    && h.root == g.root
    && (g.live == {} ==> h.live == {} && h.zombies <= g.zombies)
    && (g.root !in g.live ==> h.root !in h.live && h.status == g.status)
    && (g.root !in g.Members() ==> h.root !in h.Members())
    && (forall x :: g.Pipe(x).writers == {} ==>
                      h.Pipe(x).writers == {} && h.Pipe(x).written == g.Pipe(x).written)
    && (forall x :: g.Pipe(x).written <= h.Pipe(x).written)
  }

  lemma StepAbsorbs(cap: nat, g: Group, a: Act)
    requires Sane(cap, g) && Can(cap, g, a)
    ensures Sane(cap, Do(g, a))
    ensures Absorbing(g, Do(g, a))
  {}

  /** A stretch of history in which the acts that are possible when their turn comes
      happen, and the others do not. */
  function Evolve(cap: nat, g: Group, acts: seq<Act>): Group
    decreases |acts|
  {
    if acts == [] then g
    else Evolve(cap, if Can(cap, g, acts[0]) then Do(g, acts[0]) else g, acts[1..])
  }

  lemma {:induction false} EvolveAbsorbs(cap: nat, g: Group, acts: seq<Act>)
    requires Sane(cap, g)
    ensures Sane(cap, Evolve(cap, g, acts))
    ensures Absorbing(g, Evolve(cap, g, acts))
    decreases |acts|
  {
    if acts == [] {
    } else {
      if Can(cap, g, acts[0]) {
        StepAbsorbs(cap, g, acts[0]);
      }
      EvolveAbsorbs(cap, if Can(cap, g, acts[0]) then Do(g, acts[0]) else g, acts[1..]);
    }
  }

  /** The two-call probe finds the tree alive exactly when the group has a member,
      be it a zombie. */
  lemma ProbeIsExact(g: Group)
    ensures TreeAlive(g) <==> g.Members() != {}
  {}

  lemma KillLeavesNobody(g: Group)
    ensures SignalGroup(g, Kill).live == {}
    ensures KillPg(g, Kill).0.live == {}
  {}
}
