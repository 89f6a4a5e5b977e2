/** Finite runs: any sequence of calls and ticks. */
module Runs {
  import opened Model

  function RunFrom(v: Version, s: State, acts: seq<Action>): Outcome
    decreases |acts|
  {
    if acts == [] then Done(s, Ok(0))
    else
      match Step(v, s, acts[0])
      case Done(next, _) => RunFrom(v, next, acts[1..])
      case Exit => Exit
      case Crash => Crash
  }

  ghost predicate AllTicks(acts: seq<Action>) {
    forall i :: 0 <= i < |acts| ==> acts[i].Tick?
  }

  /** `p` holds in some state the run passes through. */
  ghost predicate Sometime(v: Version, s: State, acts: seq<Action>, p: State -> bool)
    decreases |acts|
  {
    p(s) || (acts != [] && match Step(v, s, acts[0])
                           case Done(next, _) => Sometime(v, next, acts[1..], p)
                           case _ => false)
  }

  /** `p` holds in every state up to the first one in which `q` holds, if there is one. */
  ghost predicate HoldsUntil(v: Version, s: State, acts: seq<Action>, p: State -> bool, q: State -> bool)
    decreases |acts|
  {
    q(s) || (p(s) && (acts == [] || match Step(v, s, acts[0])
                                    case Done(next, _) => HoldsUntil(v, next, acts[1..], p, q)
                                    case _ => true))
  }

  lemma {:induction false} RunConcat(v: Version, s: State, a: seq<Action>, b: seq<Action>)
    ensures RunFrom(v, s, a + b) ==
            match RunFrom(v, s, a)
            case Done(next, _) => RunFrom(v, next, b)
            case Exit => Exit
            case Crash => Crash
    decreases |a|
  {
    if a == [] {
      assert a + b == b;
    } else {
      assert (a + b)[1..] == a[1..] + b;
      match Step(v, s, a[0])
      case Done(next, _) => RunConcat(v, next, a[1..], b);
      case _ =>
    }
  }
}
