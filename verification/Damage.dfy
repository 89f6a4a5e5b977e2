/** What the steps outside Soundness.SoundStep lead to, by ticks, spawn calls and sleep calls alone: the lookup of a
    missing thread or, for resuming a zombie whose deletion is not pending, a terminated thread that runs again. Both
    versions. */
module Damage {
  import opened Queues
  import opened Model
  import opened Runs
  import opened Invariant
  import opened Waiting
  import opened Sleepers
  import opened Soundness
  import opened ShortSleep
  import opened Safety

  ghost predicate FeasibleRun(v: Version, s: State, acts: seq<Action>)
    decreases |acts|
  {
    acts != [] ==>
      && Feasible(s, acts[0])
      && (Step(v, s, acts[0]).Done? ==> FeasibleRun(v, Step(v, s, acts[0]).next, acts[1..]))
  }

  ghost predicate Crashes(v: Version, s: State, acts: seq<Action>) {
    FeasibleRun(v, s, acts) && RunFrom(v, s, acts).Crash?
  }

  /** Ticks, spawn calls, and sleep calls for one quantum. */
  ghost predicate Idle(acts: seq<Action>) {
    forall i :: 0 <= i < |acts| ==> acts[i].Tick? || acts[i] == Spawn(true) || acts[i] == Sleep(1)
  }

  lemma CrashAfter(v: Version, s: State, a: Action, rest: seq<Action>)
    requires Feasible(s, a)
    requires Step(v, s, a).Crash? || (Step(v, s, a).Done? && Crashes(v, Step(v, s, a).next, rest))
    ensures Crashes(v, s, [a] + rest)
  {
    assert ([a] + rest)[1..] == rest;
  }

  ghost predicate Bounded(s: State) {
    && (forall t :: t in s.threads ==> 0 <= t < MAX_THREAD_NUM)
    && (forall t :: t in s.sleeping ==> 0 <= t < MAX_THREAD_NUM)
  }

  /** The tick that visits the sleepers in the order of their tids. */
  function OrderedTick(s: State): (a: Action)
    ensures a.Tick?
    ensures Bounded(s) ==> Feasible(s, a)
  {
    Tick(OrderBelow(s.sleeping, MAX_THREAD_NUM))
  }

  // ---------------------------------------------------------------- what is left of a deleted thread

  /** The wake loop changes statuses, appends to the queue and erases entries; it passes over no due entry whose
      thread is missing. */
  ghost predicate Woken(s: State, w: State) {
    && w.threads.Keys == s.threads.Keys && w.sleeping.Keys <= s.sleeping.Keys
    && (forall t :: t in s.threads ==> w.threads[t].quantums == s.threads[t].quantums)
    && (forall t :: t in w.sleeping ==> w.sleeping[t] == s.sleeping[t])
    && (forall t :: t in s.sleeping && t !in s.threads ==> t in w.sleeping)
    && w.current == s.current && w.pending == s.pending && w.total == s.total
  }

  lemma WakeOneWoken(s: State, w: State, t: int)
    requires Woken(s, w) && WakeOne(w, t).Some?
    ensures Woken(s, WakeOne(w, t).value)
    ensures Expired(s, t) ==> t in s.threads
  {
    var n := WakeOne(w, t).value;
    assert forall u :: u in w.threads.Keys <==> u in s.threads.Keys;
    assert n.threads.Keys == s.threads.Keys;
    assert forall u :: u in n.sleeping.Keys ==> u in w.sleeping.Keys;
  }

  lemma {:induction false} WakeWoken(s: State, order: seq<int>, t: int)
    requires WakeAll(s, order).Some?
    ensures Woken(s, WakeAll(s, order).value)
    ensures t in order && Expired(s, t) ==> t in s.threads
  {
    if order == [] {
    } else {
      var init, last := order[..|order| - 1], order[|order| - 1];
      assert order == init + [last];
      WakeWoken(s, init, t);
      WakeOneWoken(s, WakeAll(s, init).value, last);
    }
  }

  lemma SwitchKeys(v: Version, w: State)
    requires Switch(v, w).Some?
    ensures var n := Switch(v, w).value;
            && n.threads.Keys <= w.threads.Keys && n.sleeping == w.sleeping && n.current in w.threads
  {
    SwitchTime(v, w);
    assert Requeue(v, w).threads.Keys == w.threads.Keys;
    DispatchKeys(Requeue(v, w));
  }

  lemma DispatchKeys(s: State)
    requires Dispatch(s).Some?
    ensures Dispatch(s).value.threads.Keys <= s.threads.Keys && Dispatch(s).value.current == Next(s)
  {
    assert Started(s).threads.Keys == s.threads.Keys;
  }

  /** The thread `c` is gone while its entry is still in the queue or among the sleepers, or it is still running. */
  ghost predicate Doomed(s: State, c: int) {
    Bounded(s) && c !in s.threads && (c == s.current || c in s.queue || c in s.sleeping)
  }

  lemma GhostTick(v: Version, s: State, c: int)
    requires Bounded(s) && c !in s.threads && Step(v, s, OrderedTick(s)).Done?
    ensures var n := Step(v, s, OrderedTick(s)).next;
            && Bounded(n) && c !in n.threads && n.current != c && s.current in s.threads && n.total == s.total + 1
            && (c in s.sleeping ==> c in n.sleeping && n.sleeping[c] == s.sleeping[c] > s.total)
  {
    var order := OrderedTick(s).order;
    WakeWoken(s, order, c);
    var w := WakeAll(s, order).value;
    SwitchKeys(v, w);
    SwitchTime(v, w);
    assert forall t :: t in s.threads.Keys <==> t in w.threads.Keys;
    assert forall t :: t in w.sleeping.Keys ==> t in s.sleeping.Keys;
  }

  lemma {:induction false} QueuedGhost(v: Version, s: State, c: int) returns (acts: seq<Action>)
    requires Bounded(s) && c !in s.threads && c in s.queue
    ensures Crashes(v, s, acts) && AllTicks(acts)
    decreases Pos(s.queue, c)
  {
    var a, rest := OrderedTick(s), [];
    if Step(v, s, a).Done? {
      var n := Step(v, s, a).next;
      GhostTick(v, s, c);
      StepCloser(v, s, a, c);
      rest := QueuedGhost(v, n, c);
    }
    CrashAfter(v, s, a, rest);
    acts := [a] + rest;
  }

  lemma {:induction false} SleepingGhost(v: Version, s: State, c: int) returns (acts: seq<Action>)
    requires Bounded(s) && c !in s.threads && c in s.sleeping
    ensures Crashes(v, s, acts) && AllTicks(acts)
    decreases s.sleeping[c] - s.total
  {
    var a, rest := OrderedTick(s), [];
    if Step(v, s, a).Done? {
      GhostTick(v, s, c);
      rest := SleepingGhost(v, Step(v, s, a).next, c);
    }
    CrashAfter(v, s, a, rest);
    acts := [a] + rest;
  }

  /** Once a thread is gone, what is left of it is found by ticks alone. */
  lemma DoomedCrashes(v: Version, s: State, c: int) returns (acts: seq<Action>)
    requires Doomed(s, c)
    ensures Crashes(v, s, acts) && AllTicks(acts)
  {
    if c in s.queue {
      acts := QueuedGhost(v, s, c);
    } else if c in s.sleeping {
      acts := SleepingGhost(v, s, c);
    } else {
      acts := [OrderedTick(s)];
      if Step(v, s, acts[0]).Done? {
        GhostTick(v, s, c);
      }
      CrashAfter(v, s, acts[0], []);
      assert acts == acts + [];
    }
  }

  // ---------------------------------------------------------------- a thread about to be deleted

  /** `c` has an entry that will outlive it. An entry in the queue is not served before the deletion, either because
      main stands in front of it or because serving it is a switch to a thread that has run before. */
  ghost predicate Traced(s: State, c: int)
    requires c in s.threads
  {
    c in s.sleeping || (c in s.queue && (s.threads[c].quantums != 0 || BehindMain(s.queue, c)))
  }

  /** The deletion of `c` is pending, and main's turn, at which it happens at the latest, is still to come. */
  ghost predicate Marked(s: State, c: int) {
    && Bounded(s) && c in s.threads && c != NO_PENDING && s.pending == c && s.current in s.threads && s.current != 0
    && 0 in s.threads && s.threads[0].quantums != 0 && 0 in s.queue && Traced(s, c)
  }

  lemma BehindMainTail(q: seq<int>, r: seq<int>, t: int)
    requires BehindMain(q, t) && q[0] != 0
    ensures BehindMain(q[1..] + r, t)
  {
    BehindMainAppend(q[1..], r, t);
  }

  /** A fresh thread is dispatched: nothing is reclaimed and main moves up. */
  lemma FreshDispatch(s: State, c: int, n: State)
    requires Marked(s, c) && s.queue[0] in s.threads && s.threads[s.queue[0]].quantums == 0 && n == Started(s)
    ensures Marked(n, c) && Pos(n.queue, 0) == Pos(s.queue, 0) - 1
  {
    assert n.threads.Keys == s.threads.Keys;
    if BehindMain(s.queue, c) {
      BehindMainTail(s.queue, [], c);
      assert s.queue[1..] + [] == s.queue[1..];
    }
  }

  /** Any other dispatch deletes `c`, whose entry stays. */
  lemma ReclaimDooms(s: State, c: int, n: State)
    requires Marked(s, c) && s.queue[0] in s.threads && n == Reclaim(Started(s))
    ensures Doomed(n, c)
  {
    assert Started(s).threads.Keys == s.threads.Keys;
    assert c in s.queue ==> c == s.queue[0] || c in s.queue[1..];
  }

  ghost predicate CloserToDoom(s: State, n: State, c: int) {
    || Doomed(n, c)
    || (Marked(n, c) && 0 in s.queue && Pos(n.queue, 0) < Pos(s.queue, 0) && n.total == s.total + 1 &&
        (c in n.sleeping ==> c in s.sleeping))
  }

  lemma RequeueMarked(v: Version, s: State, c: int)
    requires Marked(s, c)
    ensures Marked(Requeue(v, s), c) && Pos(Requeue(v, s).queue, 0) == Pos(s.queue, 0)
  {
    assert Requeue(v, s).threads.Keys == s.threads.Keys;
    PosAppend(s.queue, [s.current], 0);
    if BehindMain(s.queue, c) {
      BehindMainAppend(s.queue, [s.current], c);
    }
  }

  lemma SwitchMarked(v: Version, s: State, c: int)
    requires Marked(s, c) && Switch(v, s).Some?
    ensures CloserToDoom(s, Switch(v, s).value, c)
  {
    var r := Requeue(v, s);
    RequeueMarked(v, s, c);
    SwitchTime(v, s);
    if r.threads[r.queue[0]].quantums == 0 {
      FreshDispatch(r, c, Switch(v, s).value);
    } else {
      ReclaimDooms(r, c, Switch(v, s).value);
    }
  }

  lemma WokenMarked(s: State, order: seq<int>, c: int)
    requires Marked(s, c) && c !in s.sleeping && WakeAll(s, order).Some?
    ensures Marked(WakeAll(s, order).value, c) && c !in WakeAll(s, order).value.sleeping
    ensures 0 in WakeAll(s, order).value.queue && Pos(WakeAll(s, order).value.queue, 0) == Pos(s.queue, 0)
    ensures WakeAll(s, order).value.total == s.total
  {
    WakeWoken(s, order, c);
    var e := WakeAppends(s, order);
    var w := WakeAll(s, order).value;
    assert forall t :: t in s.threads.Keys <==> t in w.threads.Keys;
    assert forall t :: t in w.sleeping.Keys ==> t in s.sleeping.Keys;
    PosAppend(s.queue, e, 0);
    if BehindMain(s.queue, c) {
      BehindMainAppend(s.queue, e, c);
    }
  }

  /** Until the deletion happens: ticks if `c` is not asleep, and otherwise sleep calls, so that no tick erases its
      entry in time. */
  function Onwards(s: State, c: int): Action {
    if c in s.sleeping then Sleep(1) else OrderedTick(s)
  }

  lemma OnwardsMarked(v: Version, s: State, c: int)
    requires Marked(s, c) && (c in s.sleeping ==> s.total < INT_MAX)
    ensures Feasible(s, Onwards(s, c)) && !Step(v, s, Onwards(s, c)).Exit?
    ensures Step(v, s, Onwards(s, c)).Done? ==> CloserToDoom(s, Step(v, s, Onwards(s, c)).next, c)
  {
    if c in s.sleeping {
      var b := FallenAsleep(s, 1);
      assert b.threads.Keys == s.threads.Keys;
      assert Marked(b, c);
      if Switch(v, b).Some? {
        SwitchMarked(v, b, c);
      }
    } else {
      var order := OrderedTick(s).order;
      if Step(v, s, Tick(order)).Done? {
        WokenMarked(s, order, c);
        SwitchMarked(v, WakeAll(s, order).value, c);
        SwitchKeys(v, WakeAll(s, order).value);
      }
    }
  }

  lemma {:induction false} MarkedCrashes(v: Version, s: State, c: int) returns (acts: seq<Action>)
    requires Marked(s, c) && (c in s.sleeping ==> s.total + Pos(s.queue, 0) < INT_MAX)
    ensures Crashes(v, s, acts) && Idle(acts)
    decreases Pos(s.queue, 0)
  {
    var a, rest := Onwards(s, c), [];
    OnwardsMarked(v, s, c);
    if Step(v, s, a).Done? {
      var n := Step(v, s, a).next;
      if Doomed(n, c) {
        rest := DoomedCrashes(v, n, c);
      } else {
        rest := MarkedCrashes(v, n, c);
      }
    }
    CrashAfter(v, s, a, rest);
    acts := [a] + rest;
  }

  // ---------------------------------------------------------------- terminating the pending thread again

  /** The pending thread has been erased ahead of its deletion and its tid can be reused. */
  ghost predicate Reusable(s: State, z: int) {
    && Bounded(s) && z !in s.threads && 0 < z < MAX_THREAD_NUM && s.pending == z && z !in s.queue && z !in s.sleeping
    && s.current in s.threads && s.current != 0 && 0 in s.threads && s.threads[0].quantums != 0 && 0 in s.queue
  }

  function Spawned(s: State, t: int): State {
    s.(threads := s.threads[t := Record(READY, 0, false)], queue := s.queue + [t])
  }

  lemma SpawnedMarked(s: State, z: int)
    requires Reusable(s, z)
    ensures Marked(Spawned(s, z), z)
  {
    PosAppend(s.queue, [z], 0);
    BehindMainAppend(s.queue, [z], z);
    var q := s.queue + [z];
    assert q[|s.queue|] == z;
  }

  lemma SpawnedReusable(s: State, z: int, t: int)
    requires Reusable(s, z) && 0 < t < MAX_THREAD_NUM && t != z
    ensures Reusable(Spawned(s, t), z)
  {
    PosAppend(s.queue, [t], 0);
  }

  lemma NextFreeTid(threads: map<int, Record>, from: nat, z: int, r: Record)
    requires from <= z < MAX_THREAD_NUM && z !in threads
    ensures var t := FreeTid(threads, from);
            from <= t <= z && (t != z ==> t < FreeTid(threads[t := r], from) <= z)
  {
    var t := FreeTid(threads, from);
    if t != z {
      var m := threads[t := r];
      var u := FreeTid(m, from);
      assert z in threads <==> z in m;
      assert from <= u <= z;
      assert u < t ==> u in threads;
      assert u != t && (u < t ==> u in m);
    }
  }

  lemma SpawnReuses(v: Version, s: State, z: int)
    requires Reusable(s, z)
    ensures var t := FreeTid(s.threads, 0);
            && 0 < t <= z && Step(v, s, Spawn(true)) == Done(Spawned(s, t), Ok(t))
            && (if t == z then Marked(Spawned(s, t), z)
                else Reusable(Spawned(s, t), z) && t < FreeTid(Spawned(s, t).threads, 0) <= z)
  {
    var t := FreeTid(s.threads, 0);
    NextFreeTid(s.threads, 0, z, Record(READY, 0, false));
    if t == z {
      SpawnedMarked(s, z);
    } else {
      SpawnedReusable(s, z, t);
    }
  }

  lemma {:induction false} ReusedCrashes(v: Version, s: State, z: int) returns (acts: seq<Action>)
    requires Reusable(s, z)
    ensures Crashes(v, s, acts) && Idle(acts)
    decreases z - FreeTid(s.threads, 0)
  {
    SpawnReuses(v, s, z);
    var t := FreeTid(s.threads, 0);
    var n, rest := Spawned(s, t), [];
    if t == z {
      rest := MarkedCrashes(v, n, z);
    } else {
      rest := ReusedCrashes(v, n, z);
    }
    CrashAfter(v, s, Spawn(true), rest);
    acts := [Spawn(true)] + rest;
  }

  // ---------------------------------------------------------------- the three kinds of step

  lemma WeakIsBounded(s: State)
    requires Weak(s)
    ensures Bounded(s)
  {
    forall t | t in s.sleeping ensures 0 <= t < MAX_THREAD_NUM {
      assert Live(s, t);
    }
  }

  lemma PendingTerminated(v: Version, s: State, z: int) returns (rest: seq<Action>)
    requires Sound(v, s) && z in s.zombies && z == s.pending
    ensures Crashes(v, s, [Terminate(z)] + rest) && Idle(rest)
  {
    WeakIsBounded(s);
    MainQueuedWeak(s);
    assert TidGuard(s, z).None? && z != s.current && !Live(s, z);
    var n := Step(v, s, Terminate(z)).next;
    WithoutMembers(s.queue, z);
    assert Reusable(n, z);
    rest := ReusedCrashes(v, n, z);
    CrashAfter(v, s, Terminate(z), rest);
  }

  lemma PendingResumed(v: Version, s: State, z: int) returns (rest: seq<Action>)
    requires Sound(v, s) && z in s.zombies && z == s.pending && s.threads[z].state == BLOCKED
    ensures Crashes(v, s, [Resume(z)] + rest) && Idle(rest)
  {
    WeakIsBounded(s);
    MainQueuedWeak(s);
    assert TidGuard(s, z).None? && z != s.current && !Live(s, z);
    var n := Step(v, s, Resume(z)).next;
    assert n.queue == s.queue + [z] && n.queue[|s.queue|] == z;
    PosAppend(s.queue, [z], 0);
    BehindMainAppend(s.queue, [z], z);
    assert n.threads.Keys == s.threads.Keys;
    rest := MarkedCrashes(v, n, z);
    CrashAfter(v, s, Resume(z), rest);
  }

  lemma TraceLeft(s: State) returns (rest: seq<Action>)
    requires Weak(s) && s.current != 0 && (s.current in s.sleeping || s.current in s.queue)
    requires s.current in s.sleeping ==> s.total + |s.queue| < INT_MAX
    ensures Crashes(AsWritten, s, [Terminate(s.current)] + rest) && Idle(rest)
  {
    WeakIsBounded(s);
    MainQueuedWeak(s);
    SelfTerminates(AsWritten, s);
    var c, m := s.current, MarkedForDeletion(s, s.current);
    assert m.threads.Keys == s.threads.Keys;
    assert Marked(m, c);
    SwitchMarked(AsWritten, m, c);
    var n := Switch(AsWritten, m).value;
    if Doomed(n, c) {
      rest := DoomedCrashes(AsWritten, n, c);
    } else {
      rest := MarkedCrashes(AsWritten, n, c);
    }
    CrashAfter(AsWritten, s, Terminate(c), rest);
  }

  // ---------------------------------------------------------------- a terminated thread that runs again

  /** `r` is `e`, except that it counts `z` as terminated. */
  ghost predicate Returned(v: Version, r: State, e: State, z: int) {
    && Sound(v, e) && AllRuns.Erase(r) == AllRuns.Erase(e)
    && z in e.queue && z in r.zombies && z != r.pending && z != NO_PENDING
  }

  lemma TickKeepsZombie(v: Version, s: State, order: seq<int>, z: int)
    requires z in s.zombies && z != s.pending && z != NO_PENDING && TimerTick(v, s, order).Done?
    ensures var n := TimerTick(v, s, order).next; z in n.zombies && z != n.pending
  {
    WakeZombies(s, order);
    DispatchZombies(Requeue(v, WakeAll(s, order).value));
  }

  lemma ReturnedTick(v: Version, r: State, e: State, z: int) returns (n: State, m: State)
    requires Returned(v, r, e, z)
    ensures Feasible(r, OrderedTick(r)) && Step(v, r, OrderedTick(r)) == Done(n, Ok(0))
    ensures z in n.zombies && (n.current == z || (Returned(v, n, m, z) && Pos(m.queue, z) < Pos(e.queue, z)))
  {
    WeakIsBounded(e);
    var a := OrderedTick(r);
    StepSoundExactly(v, e, a);
    AllRuns.StepInert(v, r, a);
    AllRuns.StepInert(v, e, a);
    n, m := Step(v, r, a).next, Step(v, e, a).next;
    TickKeepsZombie(v, r, a.order, z);
    StepTime(v, e, a);
    StepCloser(v, e, a, z);
  }

  lemma {:induction false} ReturnedRuns(v: Version, r: State, e: State, z: int) returns (acts: seq<Action>)
    requires Returned(v, r, e, z)
    ensures AllTicks(acts) && FeasibleRun(v, r, acts) && RunFrom(v, r, acts).Done?
    ensures RunFrom(v, r, acts).next.current == z && z in RunFrom(v, r, acts).next.zombies
    decreases Pos(e.queue, z)
  {
    var a := OrderedTick(r);
    var n, m := ReturnedTick(v, r, e, z);
    var rest := [];
    if n.current != z {
      rest := ReturnedRuns(v, n, m, z);
    }
    acts := [a] + rest;
    assert acts[1..] == rest;
  }

  lemma RevivedWeak(s: State, z: int, flag: bool, e: State)
    requires WeakCore(s) && z in s.zombies && z != s.pending
    requires e == s.(threads := s.threads[z := s.threads[z].(state := READY, userBlocked := flag)],
                     queue := s.queue + [z], zombies := s.zombies - {z})
    ensures WeakCore(e)
  {
    assert forall u :: Live(e, u) <==> Live(s, u) || u == z;
    forall u | u in e.threads && u != e.current ensures Parked(e, u) {
      assert Parked(s, u);
    }
  }

  lemma RevivedInv(s: State, z: int, e: State)
    requires Inv(AsMeant, s) && z in s.zombies && z != s.pending
    requires e == s.(threads := s.threads[z := s.threads[z].(state := READY, userBlocked := false)],
                     queue := s.queue + [z], zombies := s.zombies - {z})
    ensures Inv(AsMeant, e)
  {
    assert forall u :: Live(e, u) <==> Live(s, u) || u == z;
    assert z !in s.queue && z !in s.sleeping;
    NoDupAppend(s.queue, [z]);
  }

  lemma ZombieResumed(v: Version, s: State, z: int) returns (rest: seq<Action>)
    requires Sound(v, s) && z in s.zombies && z != s.pending && s.threads[z].state == BLOCKED
    ensures AllTicks(rest) && FeasibleRun(v, s, [Resume(z)] + rest) && RunFrom(v, s, [Resume(z)] + rest).Done?
    ensures var n := RunFrom(v, s, [Resume(z)] + rest).next; n.current == z && z in n.zombies
  {
    assert TidGuard(s, z).None? && z !in s.sleeping;
    var n := Step(v, s, Resume(z)).next;
    var e := n.(zombies := n.zombies - {z});
    AllRuns.StepKeepsMain(v, s, Resume(z));
    RevivedWeak(s, z, n.threads[z].userBlocked, e);
    if v.AsMeant? {
      RevivedInv(s, z, e);
    }
    assert e.queue[|s.queue|] == z;
    rest := ReturnedRuns(v, n, e, z);
    assert ([Resume(z)] + rest)[1..] == rest;
  }

  /** Every feasible step that is not sound does damage without any further unsound call: ticks, spawn calls and sleep
      calls alone lead on to the lookup of a missing thread or, after the resumption of a zombie that is not pending, to
      a state in which that terminated thread is the running one. (Where a sleeper terminates itself, the total must be
      so far from the largest integer that sleep calls can still be made.) */
  lemma UnsoundStepHarms(v: Version, s: State, a: Action) returns (rest: seq<Action>)
    requires Sound(v, s) && Feasible(s, a) && !SoundStep(v, s, a)
    requires SelfTermination(s, a) && s.current in s.sleeping ==> s.total + |s.queue| < INT_MAX
    ensures Idle(rest) && FeasibleRun(v, s, [a] + rest)
    ensures var o := RunFrom(v, s, [a] + rest);
            if a.Resume? && a.tid != s.pending then o.Done? && o.next.current == a.tid && a.tid in o.next.zombies
            else o.Crash?
  {
    match a
    case Terminate(t) =>
      if HarmsZombie(s, a) {
        rest := PendingTerminated(v, s, t);
      } else {
        rest := TraceLeft(s);
      }
    case Resume(t) =>
      if t == s.pending {
        rest := PendingResumed(v, s, t);
      } else {
        rest := ZombieResumed(v, s, t);
      }
  }

  // ---------------------------------------------------------------- exactly the sound steps do no damage

  /** No call that could be unsound: only terminations and resumptions can. */
  ghost predicate Innocent(acts: seq<Action>) {
    forall i :: 0 <= i < |acts| ==> !acts[i].Terminate? && !acts[i].Resume?
  }

  /** A missing thread has been looked up, or a terminated thread is running. */
  predicate Harmed(o: Outcome) {
    o.Crash? || (o.Done? && o.next.current in o.next.zombies)
  }

  lemma {:induction false} InnocentIsSound(v: Version, s: State, acts: seq<Action>)
    requires Sound(v, s) && Innocent(acts) && FeasibleRun(v, s, acts)
    ensures SoundRun(v, s, acts)
    decreases |acts|
  {
    if acts == [] {
    } else {
      StepSoundExactly(v, s, acts[0]);
      if Step(v, s, acts[0]).Done? {
        InnocentIsSound(v, Step(v, s, acts[0]).next, acts[1..]);
      }
    }
  }

  lemma SoundUnharmed(v: Version, s: State, acts: seq<Action>)
    requires Sound(v, s) && Innocent(acts) && FeasibleRun(v, s, acts)
    ensures !Harmed(RunFrom(v, s, acts))
  {
    InnocentIsSound(v, s, acts);
    RunSound(v, s, acts);
    if RunFrom(v, s, acts).Done? {
      var n := RunFrom(v, s, acts).next;
      assert Live(n, n.current);
    }
  }

  lemma HarmFollows(v: Version, s: State, a: Action) returns (rest: seq<Action>)
    requires Sound(v, s) && Feasible(s, a) && !SoundStep(v, s, a) && Step(v, s, a).Done?
    requires SelfTermination(s, a) && s.current in s.sleeping ==> s.total + |s.queue| < INT_MAX
    ensures Innocent(rest) && FeasibleRun(v, Step(v, s, a).next, rest)
    ensures Harmed(RunFrom(v, Step(v, s, a).next, rest))
  {
    rest := UnsoundStepHarms(v, s, a);
    assert ([a] + rest)[1..] == rest;
  }

  /** The steps that are sound are exactly those after which no feasible run of ticks, spawn, block and sleep calls ever
      looks up a missing thread or gets a terminated thread to run. */
  lemma SoundExactlyHarmless(v: Version, s: State, a: Action)
    requires Sound(v, s) && Feasible(s, a) && Step(v, s, a).Done?
    requires SelfTermination(s, a) && s.current in s.sleeping ==> s.total + |s.queue| < INT_MAX
    ensures SoundStep(v, s, a) <==>
            forall rest :: Innocent(rest) && FeasibleRun(v, Step(v, s, a).next, rest) ==>
              !Harmed(RunFrom(v, Step(v, s, a).next, rest))
  {
    var n := Step(v, s, a).next;
    StepSoundExactly(v, s, a);
    if SoundStep(v, s, a) {
      forall rest | Innocent(rest) && FeasibleRun(v, n, rest) ensures !Harmed(RunFrom(v, n, rest)) {
        SoundUnharmed(v, n, rest);
      }
    } else {
      var rest := HarmFollows(v, s, a);
    }
  }
}
