/** The invariant of each version with sleep calls included, and the steps that keep it. */
module Soundness {
  import opened Model
  import opened Runs
  import opened Invariant
  import opened Sleepers
  import Zombies

  /** Weak is the whole invariant of AsWritten; AsMeant keeps more. */
  ghost predicate Sound(v: Version, s: State) {
    Weak(s) && (v.AsMeant? ==> Inv(AsMeant, s))
  }

  ghost predicate SoundStep(v: Version, s: State, a: Action) {
    match v
    case AsWritten => Safe(s, a)
    case AsMeant => Plain(AsMeant, s, a)
  }

  ghost predicate SoundRun(v: Version, s: State, acts: seq<Action>)
    decreases |acts|
  {
    acts != [] ==>
      && SoundStep(v, s, acts[0])
      && (Step(v, s, acts[0]).Done? ==> SoundRun(v, Step(v, s, acts[0]).next, acts[1..]))
  }

  ghost predicate KeepsSound(v: Version, o: Outcome) {
    o.Done? ==> Sound(v, o.next)
  }

  /** Both versions, every call: no feasible step looks up a missing thread, and the steps that keep the invariant are
      exactly the sound ones. */
  lemma StepSoundExactly(v: Version, s: State, a: Action)
    requires Sound(v, s) && Feasible(s, a)
    ensures !Step(v, s, a).Crash?
    ensures Step(v, s, a).Done? ==> (Sound(v, Step(v, s, a).next) <==> SoundStep(v, s, a))
  {
    match v
    case AsWritten => StepWeakExactly(s, a);
    case AsMeant =>
      Zombies.StepInvExactly(v, s, a);
      if Step(v, s, a).Done? && SoundStep(v, s, a) {
        InvIsWeak(v, Step(v, s, a).next);
      }
  }

  lemma {:induction false} RunSound(v: Version, s: State, acts: seq<Action>)
    requires Sound(v, s) && SoundRun(v, s, acts)
    ensures !RunFrom(v, s, acts).Crash? && KeepsSound(v, RunFrom(v, s, acts))
    decreases |acts|
  {
    if acts == [] {
    } else {
      StepSoundExactly(v, s, acts[0]);
      if Step(v, s, acts[0]).Done? {
        RunSound(v, Step(v, s, acts[0]).next, acts[1..]);
      }
    }
  }

  /** AsWritten, sleep calls included: every sound run keeps clear of missing threads. The current thread is
      live, in the map and the only RUNNING one; every queue entry is a live thread that is READY or current; every
      other live READY thread is queued; every sleeper is live; main is queued once or current; and while a deletion
      is pending the current thread is not main and is in its first quantum. */
  lemma AsWrittenSafe(acts: seq<Action>)
    requires SoundRun(AsWritten, Init(), acts)
    ensures !RunFrom(AsWritten, Init(), acts).Crash?
    ensures RunFrom(AsWritten, Init(), acts).Done? ==>
              var s := RunFrom(AsWritten, Init(), acts).next;
              && Live(s, s.current)
              && (forall t :: t in s.threads ==> (s.threads[t].state == RUNNING <==> t == s.current))
              && (forall t :: t in s.queue ==> Live(s, t) && (t == s.current || s.threads[t].state == READY))
              && (forall t :: Live(s, t) && s.threads[t].state == READY ==> t in s.queue)
              && (forall t :: t in s.sleeping ==> Live(s, t))
              && AllRuns.MainSchedulable(s)
              && (s.pending != NO_PENDING ==>
                    s.pending in s.zombies && s.current != 0 && s.threads[s.current].quantums == 1)
  {
    assert Weak(Init());
    RunSound(AsWritten, Init(), acts);
    if RunFrom(AsWritten, Init(), acts).Done? {
      var s := RunFrom(AsWritten, Init(), acts).next;
      assert forall t :: t in s.threads && t != s.current ==> Parked(s, t);
    }
  }

  /** Plain runs are sound. */
  lemma {:induction false} PlainIsSound(v: Version, s: State, acts: seq<Action>)
    requires Inv(v, s) && PlainRun(v, s, acts)
    ensures Sound(v, s) && SoundRun(v, s, acts)
    decreases |acts|
  {
    InvIsWeak(v, s);
    if acts == [] {
    } else {
      StepInv(v, s, acts[0]);
      assert v.AsWritten? ==> s.current !in s.sleeping && s.current !in s.queue;
      if Step(v, s, acts[0]).Done? {
        PlainIsSound(v, Step(v, s, acts[0]).next, acts[1..]);
      }
    }
  }

  /** A self-termination, whether it leaves a trace or not. */
  lemma SelfTerminates(v: Version, s: State)
    requires Sound(v, s) && s.current != 0
    ensures Step(v, s, Terminate(s.current)) == Switched(Dispatch(MarkedForDeletion(s, s.current)))
    ensures Step(v, s, Terminate(s.current)).Done?
  {
    assert TidGuard(s, s.current).None?;
    match v
    case AsWritten => TerminateSelfWeak(s);
    case AsMeant => TerminateSelfInv(v, s);
  }
}
