/** AsWritten with sleepers: what survives when a sleeping thread stays in the queue, and the calls that destroy it. */
module Sleepers {
  import opened Queues
  import opened Model
  import opened Invariant

  /** What holds of the structures whoever is running: queued and sleeping threads are live, and a BLOCKED thread is
      user-blocked or asleep. A sleeper may be in the queue, and an entry may be queued twice. */
  ghost predicate WeakShape(s: State) {
    && 0 in s.threads && 0 !in s.zombies && s.threads[0].quantums >= 1
    && s.zombies <= s.threads.Keys
    && (s.pending == NO_PENDING || s.pending in s.zombies)
    && (forall t :: t in s.threads ==> 0 <= t < MAX_THREAD_NUM && s.threads[t].quantums >= 0)
    && (forall t :: t in s.queue ==> Live(s, t))
    && (forall t :: t in s.sleeping ==> Live(s, t) && t != 0)
    && (forall t :: t in s.threads && s.threads[t].state == BLOCKED ==> s.threads[t].userBlocked || t in s.sleeping)
  }

  /** Thread `t` is not running, and it is queued exactly if it is READY and live. */
  ghost predicate Parked(s: State, t: int)
    requires t in s.threads
  {
    s.threads[t].state != RUNNING && (t in s.queue <==> Live(s, t) && s.threads[t].state == READY)
  }

  ghost predicate WeakCore(s: State) {
    && WeakShape(s)
    && Live(s, s.current) && s.threads[s.current].state == RUNNING && s.threads[s.current].quantums >= 1
    && (forall t :: t in s.threads && t != s.current ==> Parked(s, t))
    && (s.pending != NO_PENDING ==> s.current != 0 && s.threads[s.current].quantums == 1)
  }

  /** The invariant of AsWritten runs that contain sleep calls. */
  ghost predicate Weak(s: State) {
    WeakCore(s) && AllRuns.MainSchedulable(s)
  }

  // ---------------------------------------------------------------- switching

  ghost predicate WeakVacated(s: State) {
    WeakShape(s) && s.queue != [] && forall t :: t in s.threads ==> Parked(s, t)
  }

  /** The current thread is live, whatever its status; AsWritten requeues it all the same. */
  ghost predicate AboutToSwitch(s: State) {
    && WeakShape(s) && AllRuns.MainSchedulable(s) && Live(s, s.current)
    && (forall t :: t in s.threads && t != s.current ==> Parked(s, t))
  }

  lemma HeadOrTail(q: seq<int>)
    requires q != []
    ensures q[0] in q && forall t :: t != q[0] ==> (t in q <==> t in q[1..])
    ensures forall t :: t in q[1..] ==> t in q
  {
    assert q == [q[0]] + q[1..];
  }

  lemma StartedWeak(s: State)
    requires WeakVacated(s)
    ensures Live(s, s.queue[0]) && WeakShape(Started(s)) && Live(Started(s), s.queue[0])
    ensures forall t :: t in Started(s).threads && t != s.queue[0] ==> Parked(Started(s), t)
  {
    HeadOrTail(s.queue);
    assert forall t :: Live(Started(s), t) <==> Live(s, t);
  }

  lemma ReclaimWeak(s: State)
    requires WeakShape(s) && Live(s, s.current) && s.threads[s.current].state == RUNNING
    requires s.threads[s.current].quantums >= 1
    requires forall t :: t in s.threads && t != s.current ==> Parked(s, t)
    ensures WeakCore(Reclaim(s))
  {
    assert forall t :: Live(Reclaim(s), t) <==> Live(s, t);
  }

  lemma DispatchWeak(s: State)
    requires WeakVacated(s)
    ensures Dispatch(s).Some? && WeakCore(Dispatch(s).value)
  {
    StartedWeak(s);
    if s.threads[s.queue[0]].quantums != 0 {
      ReclaimWeak(Started(s));
    }
  }

  lemma WeakLoneMain(s: State)
    requires AboutToSwitch(s) && |s.threads| <= 1
    ensures s.current == 0 && s.queue == [] && s.pending == NO_PENDING
    ensures Switch(AsWritten, s).Some? && WeakCore(Switch(AsWritten, s).value)
  {
    AllRuns.OnlyMain(s.threads);
    assert s.current in s.threads.Keys;
    forall t ensures t !in s.queue {
      assert t in s.queue ==> Live(s, t) && t in s.threads.Keys;
    }
    HeadMember(s.queue);
    assert Requeue(AsWritten, s) == s;
  }

  lemma RequeueWeak(s: State)
    requires AboutToSwitch(s) && |s.threads| > 1
    ensures WeakVacated(Requeue(AsWritten, s))
  {
    var r := Requeue(AsWritten, s);
    assert forall t :: Live(r, t) <==> Live(s, t);
    assert forall t :: t in r.queue <==> t in s.queue || t == s.current;
  }

  /** Any switch of AsWritten out of a live thread restores the invariant. */
  lemma SwitchWeak(s: State)
    requires AboutToSwitch(s)
    ensures Switch(AsWritten, s).Some? && Weak(Switch(AsWritten, s).value)
  {
    if |s.threads| <= 1 {
      WeakLoneMain(s);
    } else {
      RequeueWeak(s);
      DispatchWeak(Requeue(AsWritten, s));
    }
    AllRuns.SwitchKeepsMain(AsWritten, s);
  }

  // ---------------------------------------------------------------- one step

  ghost predicate KeepsWeak(o: Outcome) {
    o.Done? ==> Weak(o.next)
  }

  lemma AwakeThread(s: State, order: seq<int>, n: State, t: int)
    requires AboutToSwitch(s) && IsOrder(s, order) && Awake(s, order, n) && t in s.threads
    ensures Live(n, t) <==> Live(s, t)
    ensures n.threads[t].state == BLOCKED ==> n.threads[t].userBlocked || t in n.sleeping
    ensures t != s.current ==> Parked(n, t)
  {
    WokenMembers(s, order);
    assert t in n.queue <==> t in s.queue || t in WokenBy(s, order);
    if t !in WokenBy(s, order) {
      assert n.threads[t] == s.threads[t];
    }
    if t != s.current {
      assert Parked(s, t);
    }
  }

  lemma AwakeAboutToSwitch(s: State, order: seq<int>, n: State)
    requires AboutToSwitch(s) && IsOrder(s, order) && Awake(s, order, n) && AllRuns.MainSchedulable(n)
    ensures AboutToSwitch(n)
  {
    WokenMembers(s, order);
    forall t | t in s.threads
      ensures Live(n, t) <==> Live(s, t)
      ensures n.threads[t].state == BLOCKED ==> n.threads[t].userBlocked || t in n.sleeping
      ensures t != s.current ==> Parked(n, t)
    {
      AwakeThread(s, order, n, t);
    }
    forall t | t in n.queue ensures Live(n, t) {
      assert t in s.queue || t in WokenBy(s, order);
    }
  }

  /** The wake half of a tick, nested or not. A thread may be queued a second time by it, and the current thread may
      become READY. */
  lemma WakeWeak(s: State, order: seq<int>)
    requires AboutToSwitch(s) && IsOrder(s, order)
    ensures WakeAll(s, order).Some? && AboutToSwitch(WakeAll(s, order).value)
  {
    WakeEffect(s, order);
    AllRuns.WakeKeepsMain(s, order);
    AwakeAboutToSwitch(s, order, WakeAll(s, order).value);
  }

  lemma TickWeak(s: State, order: seq<int>)
    requires AboutToSwitch(s) && IsOrder(s, order)
    ensures TimerTick(AsWritten, s, order).Done? && KeepsWeak(TimerTick(AsWritten, s, order))
  {
    WakeWeak(s, order);
    SwitchWeak(WakeAll(s, order).value);
  }

  lemma SpawnWeak(s: State)
    requires Weak(s)
    ensures SpawnThread(s).Done? && KeepsWeak(SpawnThread(s))
  {
    AllRuns.StepKeepsMain(AsWritten, s, Spawn(true));
    var t := FreeTid(s.threads, 0);
    if t != -1 {
      var n := SpawnThread(s).next;
      assert !Live(s, t) && t !in s.queue && t !in s.sleeping && t !in s.zombies;
      assert forall u :: Live(n, u) <==> Live(s, u) || u == t;
      assert forall u :: u in n.queue <==> u in s.queue || u == t;
    }
  }

  lemma LeftWeak(s: State, t: int)
    requires Weak(s) && t in s.threads && t != s.current
    ensures forall u :: u in LeaveQueue(s, t).queue <==> u in s.queue && u != t
  {
    WithoutMembers(s.queue, t);
    assert Parked(s, t);
  }

  lemma DeletedWeak(s: State, t: int, n: State)
    requires WeakCore(s) && t in s.threads && t != 0 && t != s.current && t != s.pending
    requires forall u :: u in n.queue <==> u in s.queue && u != t
    requires n == s.(threads := s.threads - {t}, queue := n.queue, sleeping := s.sleeping - {t},
                     zombies := s.zombies - {t}, retired := n.retired)
    ensures WeakCore(n)
  {
    assert forall u :: Live(n, u) <==> Live(s, u) && u != t;
    forall u | u in n.threads && u != n.current ensures Parked(n, u) {
      assert Parked(s, u);
    }
  }

  lemma TerminateOtherWeak(s: State, t: int)
    requires Weak(s) && t in s.threads && t != 0 && t != s.current && t != s.pending
    ensures TerminateThread(AsWritten, s, t).Done? && KeepsWeak(TerminateThread(AsWritten, s, t))
  {
    AllRuns.TerminateKeepsMain(AsWritten, s, t);
    LeftWeak(s, t);
    DeletedWeak(s, t, TerminateThread(AsWritten, s, t).next);
  }

  lemma BlockedWeak(s: State, t: int, n: State)
    requires WeakCore(s) && t in s.threads && t != 0 && t != s.current
    requires forall u :: u in n.queue <==> u in s.queue && u != t
    requires n == s.(threads := s.threads[t := s.threads[t].(state := BLOCKED, userBlocked := true)], queue := n.queue)
    ensures WeakCore(n)
  {
    assert forall u :: Live(n, u) <==> Live(s, u);
    forall u | u in n.threads && u != n.current ensures Parked(n, u) {
      assert Parked(s, u);
    }
  }

  lemma BlockOtherWeak(s: State, t: int)
    requires Weak(s) && t in s.threads && t != 0 && t != s.current && !s.threads[t].userBlocked
    ensures BlockThread(AsWritten, s, t).Done? && KeepsWeak(BlockThread(AsWritten, s, t))
    ensures var n := BlockThread(AsWritten, s, t).next; t in n.threads && n.threads[t].state == BLOCKED
  {
    AllRuns.BlockKeepsMain(AsWritten, s, t);
    LeftWeak(s, t);
    assert Parked(s, t);
    var n := BlockThread(AsWritten, s, t).next;
    assert n == UserBlocked(LeaveQueue(s, t), t);
    BlockedWeak(s, t, n);
  }

  lemma MainQueuedWeak(s: State)
    requires Weak(s) && s.current != 0
    ensures s.queue != [] && 0 in s.queue
  {
    assert multiset(s.queue)[0] == 1;
    assert 0 in multiset(s.queue);
  }

  lemma BlockSelfWeak(s: State)
    requires Weak(s) && s.current != 0
    ensures BlockThread(AsWritten, s, s.current).Done? && KeepsWeak(BlockThread(AsWritten, s, s.current))
    ensures !s.threads[s.current].userBlocked ==>
              Switch(AsWritten, UserBlocked(s, s.current)).Some? &&
              BlockThread(AsWritten, s, s.current).next == Switch(AsWritten, UserBlocked(s, s.current)).value
  {
    MainQueuedWeak(s);
    var b := UserBlocked(s, s.current);
    assert forall u :: Live(b, u) <==> Live(s, u);
    assert forall u :: u in b.threads && u != b.current ==> Parked(s, u);
    SwitchWeak(b);
  }

  lemma WokenWeak(s: State, t: int, n: State)
    requires WeakCore(s) && Live(s, t) && t != 0 && t != s.current && t !in s.sleeping
    requires n == s.(threads := s.threads[t := s.threads[t].(state := READY)], queue := s.queue + [t])
    ensures WeakCore(n)
  {
    assert forall u :: Live(n, u) <==> Live(s, u);
    forall u | u in n.threads && u != n.current ensures Parked(n, u) {
      assert Parked(s, u);
    }
  }

  lemma UnflaggedWeak(s: State, t: int, n: State)
    requires WeakCore(s) && t in s.threads && t in s.sleeping
    requires n == s.(threads := s.threads[t := s.threads[t].(userBlocked := false)])
    ensures WeakCore(n)
  {
    forall u | u in n.threads && u != n.current ensures Parked(n, u) {
      assert Parked(s, u);
    }
  }

  lemma ResumeWeak(s: State, t: int)
    requires Weak(s) && t in s.threads && (t in s.zombies ==> s.threads[t].state != BLOCKED)
    ensures ResumeThread(AsWritten, s, t).Done? && KeepsWeak(ResumeThread(AsWritten, s, t))
  {
    var n := ResumeThread(AsWritten, s, t).next;
    AllRuns.StepKeepsMain(AsWritten, s, Resume(t));
    assert TidGuard(s, t).None?;
    if s.threads[t].state == BLOCKED {
      assert t != 0 && t != s.current && Live(s, t);
      if t in s.sleeping {
        UnflaggedWeak(s, t, n);
      } else {
        WokenWeak(s, t, n);
      }
    }
  }

  lemma SleepWeak(s: State, n: int)
    requires Weak(s) && s.current != 0 && s.total + n <= INT_MAX
    ensures SleepThread(AsWritten, s, n) == Switched(Switch(AsWritten, FallenAsleep(s, n)))
    ensures SleepThread(AsWritten, s, n).Done? && KeepsWeak(SleepThread(AsWritten, s, n))
  {
    MainQueuedWeak(s);
    var b := FallenAsleep(s, n);
    assert forall u :: Live(b, u) <==> Live(s, u);
    assert forall u :: u in b.threads && u != b.current ==> Parked(s, u);
    SwitchWeak(b);
  }

  /** The current thread terminates itself while it is asleep or still has an entry in the queue. */
  predicate LeavesTrace(s: State, a: Action) {
    SelfTermination(s, a) && (s.current in s.sleeping || s.current in s.queue)
  }

  lemma SelfTerminationDispatches(s: State)
    requires Weak(s) && s.current != 0
    ensures var o := TerminateThread(AsWritten, s, s.current);
            o == Switched(Dispatch(MarkedForDeletion(s, s.current))) && o.Done?
  {
    MainQueuedWeak(s);
    var m := MarkedForDeletion(s, s.current);
    assert Requeue(AsWritten, m) == m;
    HeadMember(s.queue);
    assert Live(s, s.queue[0]);
  }

  lemma MarkedVacates(s: State)
    requires Weak(s) && s.current != 0 && s.current !in s.sleeping && s.current !in s.queue
    ensures WeakVacated(MarkedForDeletion(s, s.current))
  {
    MainQueuedWeak(s);
    var m := MarkedForDeletion(s, s.current);
    forall u ensures Live(m, u) <==> Live(s, u) && u != s.current {}
    forall u | u in m.threads ensures Parked(m, u) {
      assert u != s.current ==> Parked(s, u);
    }
  }

  lemma TerminateSelfWeak(s: State)
    requires Weak(s) && s.current != 0
    ensures var o := TerminateThread(AsWritten, s, s.current);
            o == Switched(Dispatch(MarkedForDeletion(s, s.current))) && o.Done?
    ensures s.current !in s.sleeping && s.current !in s.queue ==> KeepsWeak(TerminateThread(AsWritten, s, s.current))
  {
    SelfTerminationDispatches(s);
    AllRuns.TerminateKeepsMain(AsWritten, s, s.current);
    if s.current !in s.sleeping && s.current !in s.queue {
      MarkedVacates(s);
      DispatchWeak(MarkedForDeletion(s, s.current));
    }
  }

  /** The trace left behind breaks the invariant. */
  lemma TraceBreaks(s: State)
    requires Weak(s) && s.current != 0 && (s.current in s.sleeping || s.current in s.queue)
    ensures TerminateThread(AsWritten, s, s.current).Done? && !Weak(TerminateThread(AsWritten, s, s.current).next)
  {
    TerminateSelfWeak(s);
    var c := s.current;
    var m := MarkedForDeletion(s, c);
    var n := Dispatch(m).value;
    assert !Live(n, c);
    HeadOrTail(s.queue);
  }

  /** The steps after which an AsWritten run with sleepers can go on safely. */
  ghost predicate Safe(s: State, a: Action) {
    Feasible(s, a) && !HarmsZombie(s, a) && !LeavesTrace(s, a)
  }

  lemma StepWeak(s: State, a: Action)
    requires Weak(s) && Safe(s, a)
    ensures !Step(AsWritten, s, a).Crash? && KeepsWeak(Step(AsWritten, s, a))
  {
    match a
    case Spawn(_) => SpawnWeak(s);
    case Terminate(t) =>
      if TidGuard(s, t).None? && t != 0 {
        if t == s.current { TerminateSelfWeak(s); } else { TerminateOtherWeak(s, t); }
      }
    case Block(t) =>
      if BlockGuard(s, t).None? {
        if t == s.current { BlockSelfWeak(s); } else if !s.threads[t].userBlocked { BlockOtherWeak(s, t); }
      }
    case Resume(t) => if TidGuard(s, t).None? { ResumeWeak(s, t); }
    case Sleep(n) => if n > 0 && s.current != 0 { SleepWeak(s, n); }
    case Tick(order) => TickWeak(s, order);
  }

  lemma HarmBreaks(s: State, a: Action)
    requires Weak(s) && HarmsZombie(s, a)
    ensures Step(AsWritten, s, a).Done? && !Weak(Step(AsWritten, s, a).next)
  {
    match a
    case Terminate(t) =>
      assert t in s.threads && t != s.current;
      var n := Step(AsWritten, s, a).next;
      assert n.pending == t && t !in n.zombies;
    case Resume(t) =>
      assert t in s.threads && t !in s.sleeping;
      var n := Step(AsWritten, s, a).next;
      assert n.queue == s.queue + [t] && t in n.queue && t in n.zombies;
  }

  /** AsWritten with sleepers: no feasible step from the invariant looks up a missing thread, and the invariant
      survives the step if and only if the call neither harms a zombie nor is one that leaves a trace. */
  lemma StepWeakExactly(s: State, a: Action)
    requires Weak(s) && Feasible(s, a)
    ensures !Step(AsWritten, s, a).Crash?
    ensures Step(AsWritten, s, a).Done? ==> (Weak(Step(AsWritten, s, a).next) <==> Safe(s, a))
  {
    if HarmsZombie(s, a) {
      HarmBreaks(s, a);
    } else if LeavesTrace(s, a) {
      assert TidGuard(s, s.current).None?;
      TraceBreaks(s);
    } else {
      StepWeak(s, a);
    }
  }

  // ---------------------------------------------------------------- the stronger invariant

  lemma MainOnce(s: State)
    requires Core(s) && 0 !in s.sleeping
    ensures AllRuns.MainSchedulable(s)
  {
    OnceQueued(s.queue, 0);
  }

  /** The invariant of plain runs is a special case, in either version. */
  lemma InvIsWeak(v: Version, s: State)
    requires Inv(v, s)
    ensures Weak(s)
  {
    MainOnce(s);
  }

  lemma {:induction false} OnceQueued(q: seq<int>, t: int)
    requires NoDup(q)
    ensures multiset(q)[t] == if t in q then 1 else 0
  {
    if q == [] {
    } else {
      assert q == [q[0]] + q[1..];
      TailMembers(q);
      OnceQueued(q[1..], t);
    }
  }
}
