/** The invariant of plain runs, for both versions, and the wake loop. */
module Invariant {
  import opened Maps
  import opened Queues
  import opened Model
  import opened Runs
  import AllRuns

  predicate Live(s: State, t: int) {
    t in s.threads && t !in s.zombies
  }

  /** Everything the structures must agree on apart from which thread is running. */
  ghost predicate Shape(s: State) {
    && 0 in s.threads && 0 !in s.zombies && s.threads[0].state != BLOCKED && s.threads[0].quantums >= 1
    && s.zombies <= s.threads.Keys
    && (s.pending == NO_PENDING || s.pending in s.zombies)
    && (forall t :: t in s.threads ==> 0 <= t < MAX_THREAD_NUM && s.threads[t].quantums >= 0)
    && NoDup(s.queue)
    && (forall t :: t in s.queue <==> Live(s, t) && s.threads[t].state == READY)
    && (forall t :: t in s.sleeping ==> Live(s, t) && t != 0)
  }

  /** The queue is duplicate-free and holds exactly the READY non-zombies, the current thread is a non-zombie and the
      one RUNNING thread, and while a deletion is pending it is not main and is in its first quantum. */
  ghost predicate Core(s: State) {
    && Shape(s)
    && Live(s, s.current) && s.threads[s.current].quantums >= 1
    && (forall t :: t in s.threads ==> (s.threads[t].state == RUNNING <==> t == s.current))
    && (s.pending != NO_PENDING ==> s.current != 0 && s.threads[s.current].quantums == 1)
  }

  /** What BLOCKED means. In AsWritten this is for states without sleepers; see Sleepers for the others. */
  ghost predicate BlocksAgree(v: Version, s: State) {
    match v
    case AsWritten =>
      s.sleeping == map[] && forall t :: t in s.threads && s.threads[t].state == BLOCKED ==> s.threads[t].userBlocked
    case AsMeant =>
      forall t :: t in s.threads ==> (s.threads[t].state == BLOCKED <==> s.threads[t].userBlocked || t in s.sleeping)
  }

  ghost predicate Inv(v: Version, s: State) {
    Core(s) && BlocksAgree(v, s)
  }

  ghost predicate IsOrder(s: State, order: seq<int>) {
    NoDup(order) && forall t :: t in order <==> t in s.sleeping
  }

  /** The two calls naming a thread that has terminated itself which do harm: terminating it while its deletion is
      pending, and resuming it after it has been blocked. */
  predicate HarmsZombie(s: State, a: Action) {
    match a
    case Terminate(t) => t in s.zombies && t == s.pending
    case Resume(t) => t in s.zombies && t in s.threads && s.threads[t].state == BLOCKED
    case _ => false
  }

  predicate SelfTermination(s: State, a: Action) {
    a == Terminate(s.current) && s.current != 0
  }

  /** A sleep call that gets past its guards. */
  predicate Sleeps(s: State, a: Action) {
    a.Sleep? && a.numQuantums > 0 && s.current != 0
  }

  /** What the environment guarantees: a tick visits the sleepers in some order, and no deadline overflows. */
  ghost predicate Feasible(s: State, a: Action) {
    (a.Tick? ==> IsOrder(s, a.order)) && (Sleeps(s, a) ==> s.total + a.numQuantums <= INT_MAX)
  }

  /** A step of a plain run. By Zombies.StepInvExactly these are just the feasible steps that keep the invariant. */
  ghost predicate Plain(v: Version, s: State, a: Action) {
    Feasible(s, a) && !HarmsZombie(s, a) && (v.AsWritten? ==> !Sleeps(s, a))
  }

  ghost predicate PlainRun(v: Version, s: State, acts: seq<Action>)
    decreases |acts|
  {
    acts != [] ==>
      Plain(v, s, acts[0]) && (Step(v, s, acts[0]).Done? ==> PlainRun(v, Step(v, s, acts[0]).next, acts[1..]))
  }

  // ---------------------------------------------------------------- switching

  /** No thread is running: the outgoing one has been queued, blocked or marked, and another one can be dispatched. */
  ghost predicate Vacated(s: State) {
    Shape(s) && s.queue != [] && forall t :: t in s.threads ==> s.threads[t].state != RUNNING
  }

  lemma TailMembers(q: seq<int>)
    requires NoDup(q) && q != []
    ensures NoDup(q[1..]) && forall t :: t in q[1..] <==> t in q && t != q[0]
  {
    assert q == [q[0]] + q[1..];
  }

  lemma ReclaimCore(s: State)
    requires Shape(s) && Live(s, s.current) && s.threads[s.current].quantums >= 1
    requires forall t :: t in s.threads ==> (s.threads[t].state == RUNNING <==> t == s.current)
    ensures Core(Reclaim(s))
  {
  }

  lemma StartedShape(s: State)
    requires Vacated(s)
    ensures Live(s, s.queue[0]) && Shape(Started(s)) && Live(Started(s), s.queue[0])
    ensures forall t :: t in Started(s).threads ==> (Started(s).threads[t].state == RUNNING <==> t == s.queue[0])
  {
    var next := s.queue[0];
    assert next in s.queue;
    TailMembers(s.queue);
    var s' := Started(s);
    assert forall t :: Live(s', t) <==> Live(s, t);
  }

  lemma DispatchCore(s: State)
    requires Vacated(s)
    ensures Dispatch(s).Some? && Core(Dispatch(s).value)
    ensures Dispatch(s).value.current == s.queue[0] && Live(s, s.queue[0])
  {
    var next := s.queue[0];
    assert next in s.queue;
    TailMembers(s.queue);
    var s' := Started(s);
    StartedShape(s);
    if s.threads[next].quantums != 0 {
      ReclaimCore(s');
    }
  }

  lemma DispatchBlocks(v: Version, s: State)
    requires Vacated(s) && BlocksAgree(v, s)
    ensures Dispatch(s).Some? && BlocksAgree(v, Dispatch(s).value)
  {
    DispatchCore(s);
  }

  /** A lone main thread is not requeued; it gets the next quantum itself. */
  lemma LoneMain(v: Version, s: State)
    requires Core(s) && !Requeues(v, s)
    ensures s.threads.Keys == {0} && s.current == 0 && s.queue == [] && s.pending == NO_PENDING && s.sleeping == map[]
    ensures Switch(v, s) == Some(s.(threads := s.threads[0 := s.threads[0].(quantums := s.threads[0].quantums + 1)],
                                    total := s.total + 1))
  {
    assert s.current in s.threads;
    AllRuns.OnlyMain(s.threads);
    assert forall t :: t in s.threads.Keys ==> t == 0;
    assert s.current == 0;
    forall t ensures t !in s.queue {
      assert t in s.queue ==> Live(s, t) && t in s.threads.Keys;
    }
    HeadMember(s.queue);
    forall t ensures t !in s.sleeping {
      assert t in s.sleeping ==> Live(s, t) && t in s.threads.Keys;
    }
  }

  lemma RequeueVacates(v: Version, s: State)
    requires Core(s) && Requeues(v, s)
    ensures Vacated(Requeue(v, s))
    ensures BlocksAgree(v, s) ==> BlocksAgree(v, Requeue(v, s))
  {
    var s' := Requeue(v, s);
    assert forall t :: Live(s', t) <==> Live(s, t);
    assert s.current !in s.queue;
  }

  lemma SwitchCore(v: Version, s: State)
    requires Core(s)
    ensures Switch(v, s).Some? && Core(Switch(v, s).value)
  {
    if Requeues(v, s) {
      RequeueVacates(v, s);
      DispatchCore(Requeue(v, s));
    } else {
      LoneMain(v, s);
    }
  }

  /** The switch half of a tick keeps the invariant. */
  lemma SwitchInv(v: Version, s: State)
    requires Inv(v, s)
    ensures Switch(v, s).Some? && Inv(v, Switch(v, s).value)
  {
    SwitchCore(v, s);
    if Requeues(v, s) {
      RequeueVacates(v, s);
      DispatchBlocks(v, Requeue(v, s));
    } else {
      LoneMain(v, s);
    }
  }

  lemma VacatedSwitch(v: Version, s: State)
    requires s.current in s.threads
    requires Vacated(Requeue(v, s)) && BlocksAgree(v, Requeue(v, s))
    ensures Switch(v, s).Some? && Inv(v, Switch(v, s).value)
  {
    DispatchCore(Requeue(v, s));
    DispatchBlocks(v, Requeue(v, s));
  }

  lemma MainQueued(s: State)
    requires Core(s) && s.current != 0
    ensures 0 in s.queue && s.queue != [] && |s.threads| > 1
  {
    assert Live(s, 0);
    if |s.threads| <= 1 {
      AllRuns.OnlyMain(s.threads);
    }
  }

  // ---------------------------------------------------------------- the wake loop

  /** The sleepers that the loop makes READY, in visiting order. */
  function WokenBy(s: State, order: seq<int>): seq<int> {
    if order == [] then []
    else
      var t := order[|order| - 1];
      WokenBy(s, order[..|order| - 1]) +
      (if Expired(s, t) && t in s.threads && !s.threads[t].userBlocked then [t] else [])
  }

  ghost predicate Awake(s: State, order: seq<int>, n: State) {
    && n.queue == s.queue + WokenBy(s, order)
    && (forall t :: t in n.sleeping <==> t in s.sleeping && !(t in order && Expired(s, t)))
    && (forall t :: t in n.sleeping ==> n.sleeping[t] == s.sleeping[t])
    && n.threads.Keys == s.threads.Keys
    && (forall t :: t in s.threads ==>
          n.threads[t] == if t in WokenBy(s, order) then s.threads[t].(state := READY) else s.threads[t])
    && n == s.(threads := n.threads, queue := n.queue, sleeping := n.sleeping)
  }

  lemma {:induction false} WokenMembers(s: State, order: seq<int>)
    ensures forall t :: t in WokenBy(s, order) <==>
              t in order && Expired(s, t) && t in s.threads && !s.threads[t].userBlocked
    ensures NoDup(order) ==> NoDup(WokenBy(s, order))
  {
    if order == [] {
    } else {
      var init, last := order[..|order| - 1], order[|order| - 1];
      WokenMembers(s, init);
      assert order == init + [last];
      if NoDup(order) {
        assert last !in init;
        assert last !in WokenBy(s, init);
      }
    }
  }

  lemma WokenByLast(s: State, init: seq<int>, last: int)
    ensures WokenBy(s, init + [last]) ==
            WokenBy(s, init) +
            (if Expired(s, last) && last in s.threads && !s.threads[last].userBlocked then [last] else [])
  {
    assert (init + [last])[..|init + [last]| - 1] == init;
  }

  lemma AwakeOne(s: State, init: seq<int>, last: int, m: State)
    requires last !in init && Awake(s, init, m) && forall t :: t in s.sleeping ==> t in s.threads
    ensures WakeOne(m, last).Some? && Awake(s, init + [last], WakeOne(m, last).value)
  {
    WokenMembers(s, init);
    WokenByLast(s, init, last);
    assert last !in WokenBy(s, init);
    assert Expired(m, last) <==> Expired(s, last);
    assert last in m.threads.Keys <==> last in s.threads.Keys;
  }

  /** The wake loop, whatever the visiting order, in any state whose sleepers are in the map. */
  lemma {:induction false} WakeEffect(s: State, order: seq<int>)
    requires NoDup(order)
    requires forall t :: t in s.sleeping ==> t in s.threads
    ensures WakeAll(s, order).Some? && Awake(s, order, WakeAll(s, order).value)
  {
    if order == [] {
    } else {
      var init, last := order[..|order| - 1], order[|order| - 1];
      assert order == init + [last];
      WakeEffect(s, init);
      AwakeOne(s, init, last, WakeAll(s, init).value);
    }
  }

  lemma AwakeQueue(s: State, order: seq<int>, n: State)
    requires Inv(AsMeant, s) && NoDup(order) && Awake(s, order, n)
    ensures NoDup(n.queue)
    ensures forall t :: t in n.queue <==> t in s.queue || t in WokenBy(s, order)
  {
    WokenMembers(s, order);
    assert forall t :: t in WokenBy(s, order) ==> t in s.sleeping && Live(s, t) && s.threads[t].state == BLOCKED;
    NoDupAppend(s.queue, WokenBy(s, order));
  }

  lemma AwakeInv(s: State, order: seq<int>, n: State)
    requires Inv(AsMeant, s) && IsOrder(s, order) && Awake(s, order, n)
    ensures Inv(AsMeant, n)
  {
    WokenMembers(s, order);
    AwakeQueue(s, order, n);
    assert forall t :: Live(s, t) <==> Live(n, t);
    assert forall t :: t in WokenBy(s, order) ==> t in s.sleeping && Live(s, t) && s.threads[t].state == BLOCKED;
    assert Shape(n);
  }

  /** The wake half of a tick, for every visiting order and in any state whose sleepers are in the map: exactly the
      entries with a deadline above the total stay; every expired sleeper that is not user-blocked is appended exactly
      once behind an unchanged queue; and in AsMeant the invariant holds again before the switch. (For AsWritten see
      Sleepers.WakeWeak.) */
  lemma WakeLoop(s: State, order: seq<int>)
    requires IsOrder(s, order) && forall t :: t in s.sleeping ==> t in s.threads
    ensures WakeAll(s, order).Some?
    ensures Inv(AsMeant, s) ==> Inv(AsMeant, WakeAll(s, order).value)
    ensures var n := WakeAll(s, order).value;
      && n.sleeping == (map t | t in s.sleeping && s.sleeping[t] > s.total :: s.sleeping[t])
      && |s.queue| <= |n.queue| && n.queue[..|s.queue|] == s.queue
      && NoDup(n.queue[|s.queue|..])
      && (forall t :: t in n.queue[|s.queue|..] <==>
            t in s.sleeping && s.sleeping[t] <= s.total && !s.threads[t].userBlocked)
      && n.threads.Keys == s.threads.Keys
      && (forall t :: t in s.threads ==>
            n.threads[t] == if t in n.queue[|s.queue|..] then s.threads[t].(state := READY) else s.threads[t])
      && n == s.(threads := n.threads, queue := n.queue, sleeping := n.sleeping)
  {
    WakeEffect(s, order);
    var n := WakeAll(s, order).value;
    if Inv(AsMeant, s) {
      AwakeInv(s, order, n);
    }
    WokenMembers(s, order);
    assert n.queue[|s.queue|..] == WokenBy(s, order);
    KeptEntries(s, order, n);
  }

  lemma KeptEntries(s: State, order: seq<int>, n: State)
    requires IsOrder(s, order) && Awake(s, order, n)
    ensures n.sleeping == (map t | t in s.sleeping && s.sleeping[t] > s.total :: s.sleeping[t])
  {
    var kept := map t | t in s.sleeping && s.sleeping[t] > s.total :: s.sleeping[t];
    forall t ensures t in n.sleeping <==> t in kept {}
    forall t | t in n.sleeping ensures n.sleeping[t] == kept[t] {}
    SameMap(n.sleeping, kept);
  }

  lemma {:induction false} NoneExpired(s: State, order: seq<int>)
    requires forall t :: t in s.sleeping ==> s.sleeping[t] > s.total
    ensures WakeAll(s, order) == Some(s)
  {
    if order == [] {
    } else {
      NoneExpired(s, order[..|order| - 1]);
    }
  }

  lemma WakeInv(v: Version, s: State, order: seq<int>)
    requires Inv(v, s) && IsOrder(s, order)
    ensures WakeAll(s, order).Some? && Inv(v, WakeAll(s, order).value)
  {
    match v
    case AsWritten => NoneExpired(s, order);
    case AsMeant => WakeLoop(s, order);
  }

  // ---------------------------------------------------------------- one step

  ghost predicate KeepsInv(v: Version, o: Outcome) {
    o.Done? ==> Inv(v, o.next)
  }

  lemma SpawnInv(v: Version, s: State)
    requires Inv(v, s)
    ensures SpawnThread(s).Done? && KeepsInv(v, SpawnThread(s))
  {
    var t := FreeTid(s.threads, 0);
    if t != -1 {
      var n := SpawnThread(s).next;
      assert !Live(s, t);
      assert t !in s.queue && t !in s.sleeping && t !in s.zombies;
      assert forall u :: Live(n, u) <==> Live(s, u) || u == t;
    }
  }

  lemma LeftQueue(s: State, t: int)
    requires Core(s) && t in s.threads
    ensures NoDup(LeaveQueue(s, t).queue)
    ensures forall u :: u in LeaveQueue(s, t).queue <==> u in s.queue && u != t
  {
    WithoutMembers(s.queue, t);
    WithoutNoDup(s.queue, t);
  }

  lemma DeletedInv(v: Version, s: State, t: int, n: State)
    requires Inv(v, s) && t in s.threads && t != 0 && t != s.current && t != s.pending
    requires NoDup(n.queue) && forall u :: u in n.queue <==> u in s.queue && u != t
    requires n == s.(threads := s.threads - {t}, queue := n.queue, sleeping := s.sleeping - {t},
                     zombies := s.zombies - {t}, retired := n.retired)
    ensures Inv(v, n)
  {
    assert forall u :: Live(n, u) <==> Live(s, u) && u != t;
  }

  lemma TerminateOtherInv(v: Version, s: State, t: int)
    requires Inv(v, s) && t in s.threads && t != 0 && t != s.current && t != s.pending
    ensures TerminateThread(v, s, t).Done? && KeepsInv(v, TerminateThread(v, s, t))
  {
    LeftQueue(s, t);
    DeletedInv(v, s, t, TerminateThread(v, s, t).next);
  }

  lemma TerminateSelfInv(v: Version, s: State)
    requires Inv(v, s) && s.current != 0
    ensures TerminateThread(v, s, s.current) == Switched(Dispatch(MarkedForDeletion(s, s.current)))
    ensures TerminateThread(v, s, s.current).Done? && KeepsInv(v, TerminateThread(v, s, s.current))
  {
    MainQueued(s);
    var m := MarkedForDeletion(s, s.current);
    assert Requeue(v, m) == m;
    assert forall u :: Live(m, u) <==> Live(s, u) && u != s.current;
    assert s.current !in s.sleeping by {
      if v.AsMeant? {
        assert Live(s, s.current);
      }
    }
    VacatedSwitch(v, m);
  }

  lemma BlockSelfInv(v: Version, s: State)
    requires Inv(v, s) && s.current != 0
    ensures Switch(v, UserBlocked(s, s.current)).Some? && Inv(v, Switch(v, UserBlocked(s, s.current)).value)
  {
    MainQueued(s);
    var b := UserBlocked(s, s.current);
    assert b.threads.Keys == s.threads.Keys;
    var m := Requeue(v, b);
    assert forall u :: Live(m, u) <==> Live(s, u);
    assert s.current !in s.queue;
    VacatedSwitch(v, b);
  }

  lemma BlockOtherInv(v: Version, s: State, t: int)
    requires Inv(v, s) && t in s.threads && t != 0 && t != s.current
    ensures Inv(v, UserBlocked(LeaveQueue(s, t), t))
  {
    LeftQueue(s, t);
    var n := UserBlocked(LeaveQueue(s, t), t);
    assert forall u :: Live(n, u) <==> Live(s, u);
    assert n.threads == s.threads[t := n.threads[t]];
  }

  lemma BlockInv(v: Version, s: State, t: int)
    requires Inv(v, s) && t in s.threads && t != 0
    ensures BlockThread(v, s, t).Done? && KeepsInv(v, BlockThread(v, s, t))
  {
    if t == s.current {
      MainQueued(s);
      BlockSelfInv(v, s);
    } else {
      BlockOtherInv(v, s, t);
    }
  }

  lemma ResumeInv(v: Version, s: State, t: int)
    requires Inv(v, s) && t in s.threads && (t in s.zombies ==> s.threads[t].state != BLOCKED)
    ensures ResumeThread(v, s, t).Done? && KeepsInv(v, ResumeThread(v, s, t))
  {
    var n := ResumeThread(v, s, t).next;
    assert forall u :: Live(n, u) <==> Live(s, u);
    if s.threads[t].state == BLOCKED && t !in s.sleeping {
      assert t !in s.queue;
      NoDupAppend(s.queue, [t]);
      assert n.threads == s.threads[t := n.threads[t]];
    }
  }

  lemma SleepInv(s: State, n: int)
    requires Inv(AsMeant, s) && s.current != 0 && s.total + n <= INT_MAX
    ensures SleepThread(AsMeant, s, n) == Switched(Dispatch(FallenAsleep(s, n)))
    ensures SleepThread(AsMeant, s, n).Done? && KeepsInv(AsMeant, SleepThread(AsMeant, s, n))
  {
    MainQueued(s);
    var b := FallenAsleep(s, n);
    assert Requeue(AsMeant, b) == b;
    assert forall u :: Live(b, u) <==> Live(s, u);
    VacatedSwitch(AsMeant, b);
  }

  lemma TickInv(v: Version, s: State, order: seq<int>)
    requires Inv(v, s) && IsOrder(s, order)
    ensures TimerTick(v, s, order).Done? && KeepsInv(v, TimerTick(v, s, order))
  {
    WakeInv(v, s, order);
    SwitchInv(v, WakeAll(s, order).value);
  }

  /** One plain step keeps the invariant and never looks up a missing thread. */
  lemma StepInv(v: Version, s: State, a: Action)
    requires Inv(v, s) && Plain(v, s, a)
    ensures KeepsInv(v, Step(v, s, a)) && !Step(v, s, a).Crash?
  {
    match a
    case Spawn(_) => SpawnInv(v, s);
    case Terminate(t) =>
      if TidGuard(s, t).None? && t != 0 {
        if t == s.current { TerminateSelfInv(v, s); } else { TerminateOtherInv(v, s, t); }
      }
    case Block(t) => if BlockGuard(s, t).None? { BlockInv(v, s, t); }
    case Resume(t) => if TidGuard(s, t).None? { ResumeInv(v, s, t); }
    case Sleep(n) => if n > 0 && s.current != 0 { SleepInv(s, n); }
    case Tick(order) => TickInv(v, s, order);
  }

  lemma {:induction false} RunInv(v: Version, s: State, acts: seq<Action>)
    requires Inv(v, s) && PlainRun(v, s, acts)
    ensures KeepsInv(v, RunFrom(v, s, acts)) && !RunFrom(v, s, acts).Crash?
    decreases |acts|
  {
    if acts == [] {
    } else {
      StepInv(v, s, acts[0]);
      if Step(v, s, acts[0]).Done? {
        RunInv(v, Step(v, s, acts[0]).next, acts[1..]);
      }
    }
  }
}
