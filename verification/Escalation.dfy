/** src/os/unix.rs `kill_escalating`, `tree_alive` and `reap_abandoned`, and the scope
    guard of src/task.rs that calls them.

    Between two calls of this thread the group may do anything the kernel allows
    (fork, exit, be reaped, be signalled by someone else) and the clock may advance by
    any amount: both are oracles, so a statement about the loop holds for every schedule. */
module Escalation {
  import opened Kernel

  const MILLISECOND := 1_000_000
  const POLL := 25 * MILLISECOND
  const KILL_GRACE := 5_000 * MILLISECOND

  /** ceil(grace / 25 ms) + 1 */
  function MaxProbes(grace: nat): (n: nat)
    ensures 0 < n
    ensures grace <= (n - 1) * POLL < grace + POLL
  {
    (grace + POLL - 1) / POLL + 1
  }

  /** The control state of one escalation: SIGTERM is due; `left` probes may still be
      made; SIGKILL is due; returned. */
  datatype Esc = ETerm(grace: nat) | EPoll(left: nat) | EKill | EDone

  /** What the thread just did: sent SIGTERM, probed with this answer, or sent SIGKILL. */
  datatype Call = CallTerm | CallProbe(alive: bool) | CallKill

  predicate CallFits(e: Esc, call: Call) {
    match e
    case ETerm(_) => call.CallTerm?
    case EPoll(_) => call.CallProbe?
    case EKill => call.CallKill?
    case EDone => false
  }

  /** `late` says that the deadline had passed at the clock reading after the probe. */
  function EscNext(e: Esc, call: Call, late: bool): Esc
    requires CallFits(e, call)
  {
    match e
    case ETerm(grace) => EPoll(MaxProbes(grace))
    case EPoll(left) =>
      if !call.alive then EDone
      else if late || left <= 1 then EKill
      else EPoll(left - 1)
    case EKill => EDone
  }

  /** One escalation step against a group, as the run protocol takes it. */
  function EscStep(g: Group, e: Esc, late: bool): (Group, Esc)
    requires !e.EDone?
  {
    match e
    case ETerm(_) => (SignalGroup(g, Term), EscNext(e, CallTerm, late))
    case EPoll(_) => (g, EscNext(e, CallProbe(TreeAlive(g)), late))
    case EKill => (SignalGroup(g, Kill), EscNext(e, CallKill, late))
  }

  /** `calls` drives the control state from `e0` to `e`. */
  ghost predicate Drives(e0: Esc, calls: seq<Call>, e: Esc)
    decreases |calls|
  {
    if calls == [] then e == e0
    else
      var last := calls[|calls| - 1];
      exists e1, late ::
        Drives(e0, calls[..|calls| - 1], e1) && CallFits(e1, last) && e == EscNext(e1, last, late)
  }

  function Probes(calls: seq<Call>): nat {
    if calls == [] then 0
    else Probes(calls[..|calls| - 1]) + (if calls[|calls| - 1].CallProbe? then 1 else 0)
  }

  /** The step automaton used by the run protocol allows exactly the bounded probing. */
  lemma {:induction false} DrivenProbesBounded(grace: nat, calls: seq<Call>, e: Esc)
    requires Drives(ETerm(grace), calls, e)
    ensures Probes(calls) <= MaxProbes(grace)
    ensures e.ETerm? ==> Probes(calls) == 0
    ensures e.EPoll? ==> Probes(calls) + e.left == MaxProbes(grace)
    ensures CallKill in calls ==> e.EDone? && CallProbe(false) !in calls
    ensures e.EKill? || e.EPoll? ==> CallProbe(false) !in calls
  {
    if calls == [] {
    } else {
      var last := calls[|calls| - 1];
      var pre := calls[..|calls| - 1];
      var e1, late :| Drives(ETerm(grace), pre, e1) && CallFits(e1, last) && e == EscNext(e1, last, late);
      DrivenProbesBounded(grace, pre, e1);
      assert calls == pre + [last];
    }
  }

  datatype KillResult = KillOk | KillFailed

  /** What the thread did, when it began to: a call, or a sleep of `ns`. */
  datatype Note = Made(call: Call, at: nat) | Slept(at: nat, ns: nat)

  function CallsOf(journal: seq<Note>): seq<Call> {
    if journal == [] then []
    else
      var last := journal[|journal| - 1];
      CallsOf(journal[..|journal| - 1]) + (if last.Made? then [last.call] else [])
  }

  lemma CallsSnoc(journal: seq<Note>, note: Note)
    ensures CallsOf(journal + [note])
            == if note.Made? then CallsOf(journal) + [note.call] else CallsOf(journal)
  {
    assert (journal + [note])[..|journal|] == journal;
  }

  /** What may follow what: a probe comes first after SIGTERM and after each sleep; after an alive
      probe comes a sleep for 25 ms or what is left of the grace window, or, once the window has
      passed, SIGKILL; after a dead probe or SIGKILL comes nothing. */
  predicate Next(prev: Note, next: Note, deadline: nat) {
    match prev
    case Slept(at, ns) => next.Made? && next.call.CallProbe? && at + ns <= next.at
    case Made(CallTerm, at) => next.Made? && next.call.CallProbe? && at <= next.at
    case Made(CallProbe(alive), at) =>
      && alive && at <= next.at
      && if next.Made? then next.call.CallKill? && deadline <= next.at
         else next.at < deadline
              && next.ns == if deadline - next.at < 25_000_000 then deadline - next.at else 25_000_000
    case Made(CallKill, _) => false
  }

  ghost predicate Orderly(journal: seq<Note>, deadline: nat) {
    && (journal != [] ==> journal[0].Made? && journal[0].call.CallTerm?)
    && (forall i | 0 < i < |journal| :: Next(journal[i - 1], journal[i], deadline))
  }

  lemma OrderlySnoc(journal: seq<Note>, note: Note, deadline: nat)
    requires journal != [] && Orderly(journal, deadline)
    requires Next(journal[|journal| - 1], note, deadline)
    ensures Orderly(journal + [note], deadline)
  {
    var all := journal + [note];
    forall i | 0 < i < |all|
      ensures Next(all[i - 1], all[i], deadline)
    {
      if i < |journal| {
        assert all[i - 1] == journal[i - 1] && all[i] == journal[i];
      }
    }
  }

  /** A system call the thread really made, and its answer. */
  datatype Raw = ToGroup(sig: Sig, res: Errno) | ToPid(sig: Sig, res: Errno)

  function SigOf(call: Call): Sig {
    match call
    case CallTerm => Term
    case CallProbe(_) => Null
    case CallKill => Kill
  }

  /** The system calls that make up one call: the group is asked first, and the pid exactly
      when the group answered ESRCH; a probe says dead exactly when both did. */
  predicate Attempt(call: Call, raw: seq<Raw>) {
    && 1 <= |raw| <= 2
    && raw[0].ToGroup? && raw[0].sig == SigOf(call)
    && (|raw| == 2 <==> raw[0].res.ESRCH?)
    && (|raw| == 2 ==> raw[1].ToPid? && raw[1].sig == SigOf(call))
    && (call.CallProbe? ==> (call.alive <==> !raw[|raw| - 1].res.ESRCH?))
  }

  /** `raw` is, call by call, what `calls` says. */
  ghost predicate Reflects(raw: seq<Raw>, calls: seq<Call>)
    decreases |calls|
  {
    if calls == [] then raw == []
    else exists n | 0 <= n <= |raw| ::
      Reflects(raw[..n], calls[..|calls| - 1]) && Attempt(calls[|calls| - 1], raw[n..])
  }

  lemma Recorded(was: seq<Raw>, raw: seq<Raw>, calls: seq<Call>, call: Call)
    requires Reflects(was, calls) && was <= raw && Attempt(call, raw[|was|..])
    ensures Reflects(raw, calls + [call])
  {
    var all := calls + [call];
    assert all[..|all| - 1] == calls && all[|all| - 1] == call;
    assert raw[..|was|] == was;
  }

  /** The operating system as this thread meets it. */
  class World {
    const cap: nat
    const others: (nat, Group) -> seq<Act>   // what the rest of the system does before call n
    const delay: nat -> nat                  // how far the clock moves before call n
    const denied: nat -> bool                // call n fails with EPERM instead
    var turn: nat
    var now: nat
    var group: Group
    var journal: seq<Note>
    var raw: seq<Raw>                        // the signals behind the calls in `journal`
    var refused: bool                        // some SIGTERM or SIGKILL failed with EPERM

    ghost predicate Valid()
      reads this
    {
      Sane(cap, group)
    }

    /** Time passes and the others move; what they did absorbs. */
    method Elapse()
      requires Valid()
      modifies this`turn, this`now, this`group
      ensures Valid() && old(now) <= now
      ensures Absorbing(old(group), group)
    {
      EvolveAbsorbs(cap, group, others(turn, group));
      group := Evolve(cap, group, others(turn, group));
      now := now + delay(turn);
      turn := turn + 1;
    }

    method KillPgCall(sig: Sig) returns (e: Errno)
      requires Valid()
      modifies this`turn, this`now, this`group, this`raw
      ensures Valid() && old(now) <= now
      ensures Absorbing(old(group), group)
      ensures raw == old(raw) + [ToGroup(sig, e)]
      ensures e.ESRCH? ==> group.Members() == {}
      ensures e.Success? && sig.Kill? ==> group.live == {}
      ensures !e.ESRCH? && sig.Null? ==> e.EPERM? || group.Members() != {}
    {
      Elapse();
      StepAbsorbs(cap, group, Signal(sig));
      if denied(turn) {
        e := EPERM;
      } else {
        var r := KillPg(group, sig);
        group, e := r.0, r.1;
      }
      raw := raw + [ToGroup(sig, e)];
    }

    method KillPidCall(sig: Sig) returns (e: Errno)
      requires Valid()
      modifies this`turn, this`now, this`group, this`raw
      ensures Valid() && old(now) <= now
      ensures Absorbing(old(group), group)
      ensures raw == old(raw) + [ToPid(sig, e)]
      ensures old(group).Members() == {} ==> group.Members() == {}
      ensures e.ESRCH? ==> group.root !in group.Members()
      ensures old(group).Members() == {} && !e.EPERM? ==> e.ESRCH?
    {
      Elapse();
      StepAbsorbs(cap, group, Signal(sig));
      if denied(turn) {
        e := EPERM;
      } else {
        var r := KillPid(group, sig);
        group, e := r.0, r.1;
      }
      raw := raw + [ToPid(sig, e)];
    }

    /** Two probes, not one atomic one: the pid is only asked once the group is gone,
        and a group that is gone stays gone. */
    method TreeAliveCall() returns (alive: bool)
      requires Valid()
      modifies this`turn, this`now, this`group, this`journal, this`raw
      ensures Valid() && old(now) <= now
      ensures group.root == old(group.root)
      ensures !alive ==> group.Members() == {}
      ensures journal == old(journal) + [Made(CallProbe(alive), old(now))]
      ensures old(raw) <= raw && Attempt(CallProbe(alive), raw[|old(raw)|..])
    {
      var begun := now;
      var e := KillPgCall(Null);
      if e.Success? {
        alive := true;
      } else if !e.ESRCH? {
        alive := true;
      } else {
        e := KillPidCall(Null);
        alive := e.Success? || !e.ESRCH?;
      }
      journal := journal + [Made(CallProbe(alive), begun)];
    }

    method Instant() returns (t: nat)
      requires Valid()
      modifies this`turn, this`now, this`group
      ensures Valid() && old(now) <= now == t
      ensures group.root == old(group.root)
    {
      Elapse();
      t := now;
    }

    /** A sleep lasts at least as long as asked. */
    method Sleep(ns: nat)
      requires Valid()
      modifies this`turn, this`now, this`group, this`journal
      ensures Valid() && old(now) + ns <= now
      ensures group.root == old(group.root)
      ensures journal == old(journal) + [Slept(old(now), ns)]
    {
      journal := journal + [Slept(now, ns)];
      now := now + ns;
      Elapse();
    }

    /** One signal of the escalation: the group, then the pid after ESRCH. */
    method Send(sig: Sig) returns (ok: bool)
      requires Valid() && !sig.Null?
      modifies this`turn, this`now, this`group, this`journal, this`raw, this`refused
      ensures Valid() && old(now) <= now
      ensures group.root == old(group.root)
      ensures journal == old(journal) + [Made(if sig.Term? then CallTerm else CallKill, old(now))]
      ensures old(raw) <= raw
      ensures Attempt(if sig.Term? then CallTerm else CallKill, raw[|old(raw)|..])
      ensures ok <==> !raw[|old(raw)|].res.EPERM?
      ensures refused <==> old(refused) || !ok
      ensures ok && sig.Kill? ==> group.live == {}
    {
      journal := journal + [Made(if sig.Term? then CallTerm else CallKill, now)];
      ok := true;
      var e := KillPgCall(sig);
      if !e.Success? {
        if e.ESRCH? {
          e := KillPidCall(sig);
        } else {
          refused := true;
          ok := false;
        }
      }
    }
  }

  /** The calls made so far take the automaton to `e`, are what was really sent, and no
      SIGKILL is among them. */
  ghost predicate Polite(grace: nat, raw: seq<Raw>, journal: seq<Note>, e: Esc) {
    var calls := CallsOf(journal);
    Drives(ETerm(grace), calls, e) && Reflects(raw, calls) && CallKill !in calls
  }

  lemma Probed(grace: nat, was: seq<Raw>, raw: seq<Raw>, journal: seq<Note>, e: Esc,
               alive: bool, at: nat, late: bool)
    requires Polite(grace, was, journal, e) && e.EPoll?
    requires was <= raw && Attempt(CallProbe(alive), raw[|was|..])
    ensures Polite(grace, raw, journal + [Made(CallProbe(alive), at)], EscNext(e, CallProbe(alive), late))
  {
    CallsSnoc(journal, Made(CallProbe(alive), at));
    Append(ETerm(grace), CallsOf(journal), e, CallProbe(alive), late);
    Recorded(was, raw, CallsOf(journal), CallProbe(alive));
  }

  lemma Rested(grace: nat, raw: seq<Raw>, journal: seq<Note>, e: Esc, at: nat, ns: nat)
    requires Polite(grace, raw, journal, e)
    ensures Polite(grace, raw, journal + [Slept(at, ns)], e)
  {
    CallsSnoc(journal, Slept(at, ns));
  }

  /** A signal was refused to the group, by anything but ESRCH. */
  predicate Refusal(raw: Raw) {
    raw.ToGroup? && !raw.sig.Null? && raw.res.EPERM?
  }

  /** No signal was refused, unless it was the last call of all. */
  ghost predicate RefusedLast(raw: seq<Raw>) {
    forall k | 0 <= k < |raw| && Refusal(raw[k]) :: k == |raw| - 1
  }

  lemma ProbeRefusesNothing(was: seq<Raw>, raw: seq<Raw>, alive: bool)
    requires (forall r | r in was :: !Refusal(r)) && was <= raw && Attempt(CallProbe(alive), raw[|was|..])
    ensures forall r | r in raw :: !Refusal(r)
  {
    assert raw == was + raw[|was|..];
  }

  lemma SignalRefusedLast(was: seq<Raw>, raw: seq<Raw>, call: Call)
    requires (forall r | r in was :: !Refusal(r)) && was <= raw && Attempt(call, raw[|was|..])
    ensures RefusedLast(raw)
    ensures !raw[|was|].res.EPERM? ==> forall r | r in raw :: !Refusal(r)
  {
    assert raw == was + raw[|was|..];
    forall k | 0 <= k < |raw|
      ensures Refusal(raw[k]) ==> k == |raw| - 1
    {
      if k < |was| {
        assert raw[k] == was[k];
      } else {
        assert raw[k] == raw[|was|..][k - |was|];
      }
    }
  }

  /** A probe is due. */
  predicate ProbeDue(journal: seq<Note>, now: nat) {
    && journal != []
    && match journal[|journal| - 1]
       case Made(call, at) => call.CallTerm? && at <= now
       case Slept(at, ns) => at + ns <= now
  }

  lemma DueProbe(journal: seq<Note>, now: nat, alive: bool, deadline: nat)
    requires ProbeDue(journal, now) && Orderly(journal, deadline)
    ensures Orderly(journal + [Made(CallProbe(alive), now)], deadline)
  {
    OrderlySnoc(journal, Made(CallProbe(alive), now), deadline);
  }

  predicate NoSleep(journal: seq<Note>) {
    forall note | note in journal :: note.Made?
  }

  /** The grace window (src/os/unix.rs:138-147): probe, give up at the deadline, sleep.
      It ends early only because a probe found nobody. */
  method AwaitDeath(w: World, grace: nat, until: nat) returns (dead: bool, ghost e: Esc)
    requires w.Valid() && !w.refused
    requires until - grace <= w.now && forall r | r in w.raw :: !Refusal(r)
    requires Polite(grace, w.raw, w.journal, EPoll(MaxProbes(grace)))
    requires Orderly(w.journal, until) && ProbeDue(w.journal, w.now) && NoSleep(w.journal)
    modifies w`turn, w`now, w`group, w`journal, w`raw
    ensures w.Valid() && w.group.root == old(w.group.root)
    ensures Polite(grace, w.raw, w.journal, e) && forall r | r in w.raw :: !Refusal(r)
    ensures Orderly(w.journal, until) && old(w.journal) < w.journal
    ensures var last := w.journal[|w.journal| - 1];
            && last == Made(CallProbe(!dead), last.at) && last.at <= w.now
    ensures if dead then e.EDone? && w.group.Members() == {} else e.EKill? && until <= w.now
    ensures grace == 0 ==> NoSleep(w.journal)
  {
    e := EPoll(MaxProbes(grace));
    hide Polite, Attempt, MaxProbes, Orderly, ProbeDue, Sane, Refusal;
    while true
      invariant w.Valid() && w.group.root == old(w.group.root)
      invariant Polite(grace, w.raw, w.journal, e) && e.EPoll? && 1 <= e.left <= MaxProbes(grace)
      invariant until <= w.now || until - grace + (MaxProbes(grace) - e.left) * POLL <= w.now
      invariant Orderly(w.journal, until) && ProbeDue(w.journal, w.now)
      invariant forall r | r in w.raw :: !Refusal(r)
      invariant old(w.journal) <= w.journal && (grace == 0 ==> NoSleep(w.journal))
      decreases e.left
    {
      ghost var before, made, begun := w.journal, w.raw, w.now;
      var alive := w.TreeAliveCall();
      DueProbe(before, begun, alive, until);
      ProbeRefusesNothing(made, w.raw, alive);
      if !alive {
        Probed(grace, made, w.raw, before, e, false, begun, false);
        return true, EDone;
      }
      var now := w.Instant();
      Probed(grace, made, w.raw, before, e, true, begun, now >= until);
      if now >= until {
        return false, EKill;
      }
      var ns := if POLL < until - now then POLL else until - now;
      OrderlySnoc(w.journal, Slept(now, ns), until);
      Rested(grace, w.raw, w.journal, EPoll(e.left - 1), now, ns);
      w.Sleep(ns);
      SleptDue(w.journal, w.now);
      e := EPoll(e.left - 1);
    }
  }

  lemma SleptDue(journal: seq<Note>, now: nat)
    requires journal != [] && journal[|journal| - 1].Slept?
    requires journal[|journal| - 1].at + journal[|journal| - 1].ns <= now
    ensures ProbeDue(journal, now)
  {}

  /** SIGKILL, if it was sent, came last, and not before `time`. */
  ghost predicate KillsLastAndAfter(journal: seq<Note>, time: nat) {
    forall i | 0 <= i < |journal| && journal[i].Made? && journal[i].call.CallKill? ::
      i == |journal| - 1 && time <= journal[i].at
  }

  lemma OrderlyKills(journal: seq<Note>, deadline: nat)
    requires Orderly(journal, deadline)
    ensures KillsLastAndAfter(journal, deadline)
  {
    forall i | 0 <= i < |journal|
      ensures journal[i].Made? && journal[i].call.CallKill? ==>
                i == |journal| - 1 && deadline <= journal[i].at
    {
      if i > 0 {
        OrderlyAt(journal, i, deadline);
      }
      if i + 1 < |journal| {
        OrderlyAt(journal, i + 1, deadline);
      }
    }
  }

  lemma OrderlyAt(journal: seq<Note>, i: nat, deadline: nat)
    requires Orderly(journal, deadline) && 0 < i < |journal|
    ensures Next(journal[i - 1], journal[i], deadline)
  {}

  /** The calls in the journal are those of the automaton, which is done if `done`, they are what
      was really sent, their number is bounded, and SIGKILL came after alive probes only. */
  ghost predicate Escalated(grace: nat, raw: seq<Raw>, journal: seq<Note>, done: bool) {
    var calls := CallsOf(journal);
    && (exists e :: Drives(ETerm(grace), calls, e) && (done ==> e.EDone?))
    && Reflects(raw, calls)
    && (CallKill in calls ==> CallProbe(false) !in calls)
    && Probes(calls) <= (grace + 24_999_999) / 25_000_000 + 1
  }

  /** The result is Ok only when nobody is left, and Err exactly when a signal was refused. The
      journal is SIGTERM, then probes with a sleep after each but the last, then perhaps SIGKILL:
      after an alive probe, and not before the grace window has passed. The number of probes is
      bounded whatever the clock does; the calls made are those of the step automaton of the run
      protocol, and those really sent. */
  method KillEscalating(w: World, grace: nat) returns (r: KillResult, ghost deadline: nat)
    requires w.Valid() && w.journal == [] && w.raw == [] && !w.refused
    modifies w
    ensures w.Valid() && w.group.root == old(w.group.root)
    ensures r.KillOk? ==> w.group.live == {}
    ensures r.KillFailed? <==> w.refused
    ensures RefusedLast(w.raw) && (r.KillFailed? <==> w.raw != [] && Refusal(w.raw[|w.raw| - 1]))
    ensures Orderly(w.journal, deadline) && w.journal != [] && old(w.now) + grace <= deadline
    ensures KillsLastAndAfter(w.journal, old(w.now) + grace)
    ensures Escalated(grace, w.raw, w.journal, r.KillOk?)
    ensures grace == 0 ==> NoSleep(w.journal)
  {
    hide Orderly, Polite, Escalated, ProbeDue, Sane, KillsLastAndAfter;
    ghost var begun := w.now;
    var ok := w.Send(Term);
    assert w.raw[0..] == w.raw;
    SignalRefusedLast([], w.raw, CallTerm);
    deadline := w.now + grace;
    Begun(grace, begun, deadline, w.raw);
    assert w.journal == [Made(CallTerm, begun)];
    if !ok {
      return KillFailed, deadline;
    }
    var now := w.Instant();
    var until := now + grace;
    deadline := until;
    Begun(grace, begun, until, w.raw);
    DueAfterTerm(begun, w.now);
    var dead;
    ghost var e;
    dead, e := AwaitDeath(w, grace, until);
    if dead {
      Spared(grace, until, begun + grace, w.raw, w.journal, e);
      return KillOk, deadline;
    }
    ghost var before, made := w.journal, w.raw;
    ghost var at := w.now;
    ok := w.Send(Kill);
    SignalRefusedLast(made, w.raw, CallKill);
    Slain(grace, until, begun + grace, before, at, made, w.raw, ok);
    r := if ok then KillOk else KillFailed;
  }

  /** What the journal says after SIGTERM ... */
  lemma Begun(grace: nat, at: nat, until: nat, raw: seq<Raw>)
    requires Attempt(CallTerm, raw)
    ensures var all := [Made(CallTerm, at)];
            && Polite(grace, raw, all, EPoll(MaxProbes(grace))) && Orderly(all, until)
            && (forall time :: KillsLastAndAfter(all, time)) && Escalated(grace, raw, all, false)
  {
    assert Drives(ETerm(grace), [], ETerm(grace));
    var all := [Made(CallTerm, at)];
    assert all[..0] == [];
    assert CallsOf(all) == [CallTerm] == [] + [CallTerm];
    Append(ETerm(grace), [], ETerm(grace), CallTerm, false);
    assert raw[0..] == raw;
    Recorded([], raw, [], CallTerm);
    DrivenProbesBounded(grace, CallsOf(all), EPoll(MaxProbes(grace)));
  }

  lemma DueAfterTerm(at: nat, now: nat)
    requires at <= now
    ensures ProbeDue([Made(CallTerm, at)], now)
  {}

  /** ... after a dead probe ... */
  lemma Spared(grace: nat, until: nat, time: nat, raw: seq<Raw>, journal: seq<Note>, e: Esc)
    requires Polite(grace, raw, journal, e) && e.EDone? && Orderly(journal, until) && time <= until
    ensures Escalated(grace, raw, journal, true) && KillsLastAndAfter(journal, time)
  {
    OrderlyKills(journal, until);
    DrivenProbesBounded(grace, CallsOf(journal), e);
    hide Orderly, Drives, Reflects;
  }

  /** ... and after SIGKILL. */
  lemma Slain(grace: nat, until: nat, time: nat, journal: seq<Note>, at: nat,
               was: seq<Raw>, raw: seq<Raw>, done: bool)
    requires Polite(grace, was, journal, EKill) && Orderly(journal, until) && time <= until <= at
    requires journal != [] && journal[|journal| - 1].Made? && journal[|journal| - 1].at <= at
    requires journal[|journal| - 1].call == CallProbe(true)
    requires was <= raw && Attempt(CallKill, raw[|was|..])
    ensures var all := journal + [Made(CallKill, at)];
            && Orderly(all, until) && KillsLastAndAfter(all, time) && Escalated(grace, raw, all, done)
  {
    CallsSnoc(journal, Made(CallKill, at));
    OrderlySnoc(journal, Made(CallKill, at), until);
    OrderlyKills(journal + [Made(CallKill, at)], until);
    Recorded(was, raw, CallsOf(journal), CallKill);
    Append(ETerm(grace), CallsOf(journal), EKill, CallKill, false);
    DrivenProbesBounded(grace, CallsOf(journal) + [CallKill], EDone);
    hide Orderly, Drives, Reflects;
  }

  lemma Append(e0: Esc, calls: seq<Call>, e: Esc, call: Call, late: bool)
    requires Drives(e0, calls, e) && CallFits(e, call)
    ensures Drives(e0, calls + [call], EscNext(e, call, late))
  {
    var all := calls + [call];
    assert all[..|all| - 1] == calls && all[|all| - 1] == call;
  }

  /** `waitpid` on the root: it blocks while the root lives; afterwards the root is reaped,
      by this call or by whoever made it answer ECHILD. */
  method ReapAbandoned(w: World) returns (returned: bool)
    requires w.Valid()
    modifies w`turn, w`now, w`group
    ensures w.Valid() && w.group.root == old(w.group.root)
    ensures old(w.group).live == {} ==> w.group.live == {}
    ensures returned <==> w.group.root !in w.group.live
    ensures returned ==> w.group.root !in w.group.Members()
  {
    w.Elapse();
    if w.group.root in w.group.live {
      returned := false;
    } else {
      if Can(w.cap, w.group, WaitRoot) {
        w.group := Do(w.group, WaitRoot);
      }
      returned := true;
    }
  }

  /** src/task.rs:22-52 */
  class KillOnDropGuard {
    var armed: bool

    constructor ()
      ensures armed
    {
      armed := true;
    }

    method Disarm()
      modifies this
      ensures !armed
    {
      armed := false;
    }

    /** Dropped while armed, the guard leaves nobody alive and no root zombie, provided
        neither signal was refused; dropped after `Disarm` it touches nothing. */
    method Drop(w: World) returns (returned: bool)
      requires w.Valid() && w.journal == [] && w.raw == [] && !w.refused
      modifies w
      ensures w.Valid() && w.group.root == old(w.group.root)
      ensures armed && !w.refused ==>
                returned && w.group.live == {} && w.group.root !in w.group.Members()
      ensures armed ==>
                Escalated(0, w.raw, w.journal, !w.refused) && NoSleep(w.journal)
                && Probes(CallsOf(w.journal)) <= 1
      ensures !armed ==> returned && unchanged(w)
    {
      returned := true;
      if armed {
        var r, deadline := KillEscalating(w, 0);
        returned := ReapAbandoned(w);
      }
    }
  }
}
