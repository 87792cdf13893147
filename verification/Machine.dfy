/** src/machine.rs: the run's own state machine. */
module Machine {

  datatype State = Created | Running | Exited

  predicate Legal(from: State, to: State) {
    (from.Created? && to.Running?) || (from.Running? && to.Exited?)
  }

  class StateMachine {
    var state: State

    constructor ()
      ensures state == Created
    {
      state := Created;
    }

    /** A refused transition reports the state it was refused in and changes nothing. */
    method Transition(next: State) returns (ok: bool)
      modifies this
      ensures ok <==> (old(state), next) in {(Created, Running), (Running, Exited)}
      ensures state == if ok then next else old(state)
    {
      ok := match (state, next) {
        case (Created, Running) => true
        case (Running, Exited) => true
        case _ => false
      };
      if ok {
        state := next;
      }
    }
  }

  /** The states visited by asking for `wanted` one after the other. */
  function Visit(s: State, wanted: seq<State>): State
    decreases |wanted|
  {
    if wanted == [] then s
    else Visit(if Legal(s, wanted[0]) then wanted[0] else s, wanted[1..])
  }

  function Rank(s: State): nat {
    match s
    case Created => 0
    case Running => 1
    case Exited => 2
  }

  /** Transitions are one-directional and `Exited` is terminal, whatever is asked for. */
  lemma {:induction false} NeverBack(s: State, wanted: seq<State>)
    ensures Rank(s) <= Rank(Visit(s, wanted))
    ensures s.Exited? ==> Visit(s, wanted) == Exited
    ensures Visit(s, wanted).Exited? && s.Created? ==> Running in wanted && Exited in wanted
    decreases |wanted|
  {
    if wanted == [] {
    } else {
      var s1 := if Legal(s, wanted[0]) then wanted[0] else s;
      NeverBack(s1, wanted[1..]);
      if Visit(s, wanted).Exited? && s1.Running? {
        ReachExited(s1, wanted[1..]);
      }
    }
  }

  lemma {:induction false} ReachExited(s: State, wanted: seq<State>)
    requires s.Running? && Visit(s, wanted).Exited?
    ensures Exited in wanted
    decreases |wanted|
  {
    if wanted[0].Exited? {
    } else {
      ReachExited(s, wanted[1..]);
    }
  }
}
