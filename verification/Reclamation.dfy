/** Deferred deletion: when a thread that terminated itself leaves the map. */
module Reclamation {
  import opened Queues
  import opened Model
  import opened Runs
  import opened Invariant
  import opened Safety
  import opened Sleepers
  import opened Soundness
  import opened Waiting

  /** Another thread terminates itself while the deletion of `z` is pending, and none terminates `z` after that. */
  ghost predicate Overtaken(v: Version, s: State, acts: seq<Action>, z: int)
    decreases |acts|
  {
    && acts != [] && s.pending == z
    && (if SelfTermination(s, acts[0]) then Terminate(z) !in acts[1..]
        else Step(v, s, acts[0]).Done? && Overtaken(v, Step(v, s, acts[0]).next, acts[1..], z))
  }

  /** A zombie whose pending mark has been overwritten stays in the map through every sound run, unless and until
      another thread terminates it. */
  lemma {:induction false} LeakedForever(v: Version, s: State, acts: seq<Action>, z: int)
    requires Sound(v, s) && SoundRun(v, s, acts) && z in s.zombies && z != s.pending
    ensures Terminate(z) !in acts ==> !Sometime(v, s, acts, (x: State) => z !in x.threads)
    ensures RunFrom(v, s, acts).Done? && Terminate(z) in acts ==> Sometime(v, s, acts, (x: State) => z !in x.threads)
    decreases |acts|
  {
    if acts != [] && Step(v, s, acts[0]).Done? {
      ZombieFate(v, s, acts[0], z);
      if acts[0] != Terminate(z) {
        LeakedForever(v, Step(v, s, acts[0]).next, acts[1..], z);
      }
    }
  }

  /** Bounded reclamation, with its exact condition, sleep calls included. In any sound run that ends with main current,
      or is more switches long than main's position in the queue, a thread whose deletion is pending at the start leaves
      the map if and only if no other thread terminates itself first, or one terminates the leaked thread afterwards. */
  lemma {:induction false} ReclaimedUnlessOvertaken(v: Version, s: State, acts: seq<Action>, z: int)
    requires Sound(v, s) && SoundRun(v, s, acts) && RunFrom(v, s, acts).Done?
    requires s.pending == z != NO_PENDING
    requires 0 in s.queue
    requires || RunFrom(v, s, acts).next.current == 0
             || RunFrom(v, s, acts).next.total > s.total + Pos(s.queue, 0)
    ensures Sometime(v, s, acts, (x: State) => z !in x.threads) <==> !Overtaken(v, s, acts, z)
    decreases |acts|
  {
    var n := Step(v, s, acts[0]).next;
    ZombieFate(v, s, acts[0], z);
    if SelfTermination(s, acts[0]) {
      LeakedForever(v, n, acts[1..], z);
    } else {
      StepCloser(v, s, acts[0], 0);
      if n.pending == z {
        ReclaimedUnlessOvertaken(v, n, acts[1..], z);
      }
    }
  }

  /** The precondition above on main's position is met whenever a deletion is pending; where no thread is queued twice,
      it is below 99. */
  lemma MainWaitsWhilePending(v: Version, s: State)
    requires Weak(s) && s.pending != NO_PENDING
    ensures 0 in s.queue
    ensures Inv(v, s) ==> Pos(s.queue, 0) < 99
  {
    MainQueuedWeak(s);
    if Inv(v, s) {
      QueueBound(v, s, 0);
    }
  }
}
