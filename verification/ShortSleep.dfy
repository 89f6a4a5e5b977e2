/** AsWritten puts a sleeper straight back into the queue. How soon it can run again, whatever the other threads do. */
module ShortSleep {
  import opened Queues
  import opened Model
  import opened Runs
  import opened Invariant
  import opened Waiting
  import opened Sleepers
  import opened Soundness

  function Min(a: nat, b: nat): nat {
    if a <= b then a else b
  }

  /** The fewest switches after which `t` can be current, with `c` current and `q` queued (and `t` behind everything
      if it is not in `q`). Any thread but main, `t` and `c` can be terminated by `c`; main cannot be, so it has to
      take its turn, and can then terminate the rest; and an entry that `c` itself still has in the queue has to be
      served. */
  function Cost(q: seq<int>, c: int, t: int): (k: nat)
    ensures k >= 1
    decreases |q|
  {
    if q == [] || q[0] == t then 1
    else if q[0] == 0 then 2
    else if q[0] == c then 1 + Cost(q[1..], c, t)
    else
      Shrinks(q[1..], q[0]);
      Min(Cost(Without(q[1..], q[0]), c, t), 1 + Cost(q[1..], q[0], t))
  }

  lemma {:induction false} Shrinks(q: seq<int>, u: int)
    ensures |Without(q, u)| <= |q|
  {
    if q == [] {
    } else {
      Shrinks(q[1..], u);
    }
  }

  lemma {:induction false} WithoutAppend(q: seq<int>, r: seq<int>, u: int)
    ensures Without(q + r, u) == Without(q, u) + Without(r, u)
  {
    if q == [] {
      assert q + r == r;
    } else {
      assert (q + r)[1..] == q[1..] + r;
      WithoutAppend(q[1..], r, u);
    }
  }

  lemma WithoutHead(q: seq<int>, u: int)
    requires q != []
    ensures q[0] == u ==> Without(q, u) == Without(q[1..], u)
    ensures q[0] != u ==> Without(q, u) != [] && Without(q, u)[0] == q[0] && Without(q, u)[1..] == Without(q[1..], u)
  {
  }

  lemma {:induction false} WithoutCommutes(q: seq<int>, u: int, w: int)
    ensures Without(Without(q, u), w) == Without(Without(q, w), u)
  {
    if q == [] {
    } else {
      WithoutCommutes(q[1..], u, w);
      WithoutHead(q, u);
      WithoutHead(q, w);
      if q[0] != u && q[0] != w {
        WithoutHead(Without(q, u), w);
        WithoutHead(Without(q, w), u);
        assert Without(Without(q, u), w) == [q[0]] + Without(Without(q[1..], u), w);
      }
    }
  }

  // ---------------------------------------------------------------- the cost of a queue

  /** Entries added at the back never bring `t` closer. */
  lemma {:induction false} CostAppend(q: seq<int>, r: seq<int>, c: int, t: int)
    ensures Cost(q, c, t) <= Cost(q + r, c, t)
    ensures t in q ==> Cost(q, c, t) == Cost(q + r, c, t)
    decreases |q|
  {
    if q != [] && q[0] != t && q[0] != 0 {
      assert (q + r)[1..] == q[1..] + r;
      CostAppend(q[1..], r, q[0], t);
      if q[0] != c {
        Shrinks(q[1..], q[0]);
        WithoutMembers(q[1..], q[0]);
        WithoutAppend(q[1..], r, q[0]);
        CostAppend(Without(q[1..], q[0]), Without(r, q[0]), c, t);
      }
    }
  }

  /** Nor does removing a thread other than main and the current one: the bound has allowed for that. */
  lemma {:induction false} CostWithout(q: seq<int>, u: int, c: int, t: int)
    requires u != 0 && u != c
    ensures Cost(q, c, t) <= Cost(Without(q, u), c, t)
    decreases |q|
  {
    if q != [] && q[0] != t && q[0] != 0 {
      var d := q[0];
      WithoutHead(q, u);
      if d != u {
        CostWithout(q[1..], u, d, t);
        if d != c {
          Shrinks(q[1..], d);
          CostWithout(Without(q[1..], d), u, c, t);
          WithoutCommutes(q[1..], d, u);
        }
      }
    }
  }

  /** A switch uses up at most one. */
  lemma CostDispatch(q: seq<int>, c: int, t: int)
    requires q != []
    ensures Cost(q, c, t) <= if q[0] == t then 1 else 1 + Cost(q[1..], q[0], t)
  {
  }

  lemma {:induction false} CostNoMain(q: seq<int>, t: int)
    requires 0 !in q
    ensures Cost(q, 0, t) == 1
    decreases |q|
  {
    if q != [] && q[0] != t {
      Shrinks(q[1..], q[0]);
      WithoutMembers(q[1..], q[0]);
      CostNoMain(Without(q[1..], q[0]), t);
    }
  }

  lemma {:induction false} CostBehindMain(q: seq<int>, c: int, t: int)
    requires 0 in q && c != 0 && c !in q && t !in q
    ensures Cost(q + [t], c, t) == 2
    decreases |q|
  {
    if q[0] != 0 {
      assert (q + [t])[1..] == q[1..] + [t];
      Shrinks(q[1..], q[0]);
      WithoutMembers(q[1..], q[0]);
      WithoutAppend(q[1..], [t], q[0]);
      assert Without([t], q[0]) == [t];
      CostBehindMain(Without(q[1..], q[0]), c, t);
    }
  }

  // ---------------------------------------------------------------- no step is faster

  /** The earliest total at which `t` can be current. */
  function Earliest(s: State, t: int): int {
    if s.current == t then s.total else s.total + Cost(s.queue, s.current, t)
  }

  ghost predicate Steady(s: State) {
    AllRuns.MainSchedulable(s) && s.current in s.threads && s.threads[s.current].state == RUNNING
  }

  lemma EarliestAppend(s: State, n: State, e: seq<int>, t: int)
    requires n.total == s.total && n.current == s.current && n.queue == s.queue + e
    ensures Earliest(s, t) <= Earliest(n, t)
  {
    CostAppend(s.queue, e, s.current, t);
  }

  lemma EarliestWithout(s: State, n: State, u: int, t: int)
    requires n.total == s.total && n.current == s.current && (n.queue == s.queue || n.queue == Without(s.queue, u))
    requires u != 0 && u != s.current
    ensures Earliest(s, t) <= Earliest(n, t)
  {
    CostWithout(s.queue, u, s.current, t);
  }

  /** A switch out of `w`, which is `s` with `e` appended to its queue. */
  lemma EarliestSwitch(s: State, w: State, e: seq<int>, t: int)
    requires w.total == s.total && w.current == s.current && w.queue == s.queue + e
    requires Switch(AsWritten, w).Some? && w.current in w.threads
    ensures Earliest(s, t) <= Earliest(Switch(AsWritten, w).value, t)
  {
    var q := w.queue + (if Requeues(AsWritten, w) then [w.current] else []);
    var n := Switch(AsWritten, w).value;
    SwitchQueue(AsWritten, w);
    EarliestAppend(s, s.(queue := q), q[|s.queue|..], t);
    assert s.queue + q[|s.queue|..] == q;
    if q != [] {
      CostDispatch(q, s.current, t);
    }
  }

  ghost predicate NoSooner(s: State, o: Outcome, t: int) {
    o.Done? ==> Earliest(s, t) <= Earliest(o.next, t)
  }

  lemma SwitchNoSooner(s: State, w: State, t: int)
    requires w.total == s.total && w.current == s.current && w.queue == s.queue && s.current in w.threads
    ensures NoSooner(s, Switched(Switch(AsWritten, w)), t)
  {
    if Switch(AsWritten, w).Some? {
      assert s.queue + [] == s.queue;
      EarliestSwitch(s, w, [], t);
    }
  }

  lemma TickNoSooner(s: State, order: seq<int>, t: int)
    ensures NoSooner(s, TimerTick(AsWritten, s, order), t)
  {
    var e := WakeAppends(s, order);
    if TimerTick(AsWritten, s, order).Done? {
      EarliestSwitch(s, WakeAll(s, order).value, e, t);
    }
  }

  lemma TerminateNoSooner(s: State, u: int, t: int)
    requires Steady(s) && u in s.threads
    ensures NoSooner(s, TerminateThread(AsWritten, s, u), t)
  {
    if u != 0 {
      if u == s.current {
        SwitchNoSooner(s, MarkedForDeletion(s, u), t);
      } else if TerminateThread(AsWritten, s, u).Done? {
        EarliestWithout(s, TerminateThread(AsWritten, s, u).next, u, t);
      }
    }
  }

  lemma BlockNoSooner(s: State, u: int, t: int)
    requires Steady(s) && u in s.threads && u != 0
    ensures NoSooner(s, BlockThread(AsWritten, s, u), t)
  {
    if u == s.current {
      SwitchNoSooner(s, UserBlocked(s, u), t);
    } else if s.threads[u].state != RUNNING {
      EarliestWithout(s, UserBlocked(LeaveQueue(s, u), u), u, t);
    }
  }

  lemma ResumeNoSooner(s: State, u: int, t: int)
    requires u in s.threads
    ensures NoSooner(s, ResumeThread(AsWritten, s, u), t)
  {
    var n := ResumeThread(AsWritten, s, u).next;
    if n.queue == s.queue + [u] {
      EarliestAppend(s, n, [u], t);
    }
  }

  lemma SpawnNoSooner(s: State, t: int)
    ensures NoSooner(s, SpawnThread(s), t)
  {
    if SpawnThread(s).next != s {
      EarliestAppend(s, SpawnThread(s).next, [FreeTid(s.threads, 0)], t);
    }
  }

  /** Whatever a step does, it never makes the earliest total at which `t` can be current any earlier. */
  lemma StepNoSooner(s: State, a: Action, t: int)
    requires Steady(s)
    ensures NoSooner(s, Step(AsWritten, s, a), t)
  {
    match a
    case Spawn(_) => SpawnNoSooner(s, t);
    case Terminate(u) => if TidGuard(s, u).None? { TerminateNoSooner(s, u, t); }
    case Block(u) => if BlockGuard(s, u).None? { BlockNoSooner(s, u, t); }
    case Resume(u) => if TidGuard(s, u).None? { ResumeNoSooner(s, u, t); }
    case Sleep(n) => SwitchNoSooner(s, FallenAsleep(s, n), t);
    case Tick(order) => TickNoSooner(s, order, t);
  }

  lemma SwitchRuns(s: State)
    requires AllRuns.MainSchedulable(s) && Switch(AsWritten, s).Some?
    ensures var n := Switch(AsWritten, s).value; n.current in n.threads ==> n.threads[n.current].state == RUNNING
  {
    AllRuns.SwitchKeepsMain(AsWritten, s);
  }

  lemma TickRuns(s: State, order: seq<int>)
    requires AllRuns.MainSchedulable(s) && TimerTick(AsWritten, s, order).Done?
    ensures var n := TimerTick(AsWritten, s, order).next;
            n.current in n.threads ==> n.threads[n.current].state == RUNNING
  {
    AllRuns.WakeKeepsMain(s, order);
    SwitchRuns(WakeAll(s, order).value);
  }

  lemma StepRuns(s: State, a: Action)
    requires Steady(s) && Step(AsWritten, s, a).Done?
    ensures var n := Step(AsWritten, s, a).next; n.current in n.threads ==> n.threads[n.current].state == RUNNING
  {
    match a
    case Terminate(u) =>
      if u == s.current && u != 0 && TidGuard(s, u).None? { SwitchRuns(MarkedForDeletion(s, u)); }
    case Block(u) =>
      if u == s.current && BlockGuard(s, u).None? && !s.threads[u].userBlocked { SwitchRuns(UserBlocked(s, u)); }
    case Sleep(n) => if n > 0 && s.current != 0 { SwitchRuns(FallenAsleep(s, n)); }
    case Tick(order) => TickRuns(s, order);
    case _ =>
  }

  lemma StepSteady(s: State, a: Action)
    requires Steady(s) && Step(AsWritten, s, a).Done?
    ensures var n := Step(AsWritten, s, a).next; n.current in n.threads ==> Steady(n)
  {
    AllRuns.StepKeepsMain(AsWritten, s, a);
    StepRuns(s, a);
  }

  /** Nowhere along the run has the running thread lost its object, and with it the stack it runs on. */
  ghost predicate Anchored(s: State, acts: seq<Action>)
    decreases |acts|
  {
    && s.current in s.threads
    && (acts != [] && Step(AsWritten, s, acts[0]).Done? ==> Anchored(Step(AsWritten, s, acts[0]).next, acts[1..]))
  }

  lemma {:induction false} RunNoSooner(s: State, acts: seq<Action>, t: int)
    requires Steady(s) && Anchored(s, acts)
    ensures NoSooner(s, RunFrom(AsWritten, s, acts), t)
    decreases |acts|
  {
    if acts != [] && Step(AsWritten, s, acts[0]).Done? {
      StepNoSooner(s, acts[0], t);
      StepSteady(s, acts[0]);
      RunNoSooner(Step(AsWritten, s, acts[0]).next, acts[1..], t);
    }
  }

  // ---------------------------------------------------------------- the bound is met

  /** The sleepers with a tid below `n`, smallest first. */
  function OrderBelow(sleeping: map<int, int>, n: nat): (order: seq<int>)
    ensures forall t :: t in order <==> 0 <= t < n && t in sleeping
    ensures NoDup(order)
  {
    if n == 0 then []
    else if n - 1 in sleeping then
      NoDupAppend(OrderBelow(sleeping, n - 1), [n - 1]);
      OrderBelow(sleeping, n - 1) + [n - 1]
    else OrderBelow(sleeping, n - 1)
  }

  lemma MainServedOnce(s: State)
    requires AllRuns.MainSchedulable(s) && s.current == 0
    ensures 0 !in s.queue
  {
    assert multiset(s.queue)[0] == 0;
  }

  lemma SafeTick(s: State) returns (a: Action, n: State)
    requires Weak(s)
    ensures a.Tick? && Safe(s, a) && Step(AsWritten, s, a) == Done(n, Ok(0)) && Weak(n)
  {
    a := Tick(OrderBelow(s.sleeping, MAX_THREAD_NUM));
    forall t | t in s.sleeping ensures t in a.order {
      assert Live(s, t);
    }
    TickWeak(s, a.order);
    n := TimerTick(AsWritten, s, a.order).next;
  }

  lemma TickRotates(s: State, order: seq<int>) returns (tail: seq<int>)
    requires s.queue != [] && TimerTick(AsWritten, s, order).Done?
    ensures var n := TimerTick(AsWritten, s, order).next;
            n.current == s.queue[0] && n.total == s.total + 1 && n.queue == s.queue[1..] + tail
  {
    var e := WakeAppends(s, order);
    var w := WakeAll(s, order).value;
    SwitchQueue(AsWritten, w);
    tail := e + (if Requeues(AsWritten, w) then [w.current] else []);
    assert (s.queue + tail)[1..] == s.queue[1..] + tail;
  }

  /** The turns to wait for `t`, if nobody interferes. */
  function Turns(s: State, t: int): nat {
    if t == s.current || t !in s.queue then 0 else 1 + Pos(s.queue, t)
  }

  /** `n` is one step closer to `t` at no loss of time. */
  ghost predicate OnTime(s: State, n: State, t: int) {
    (t == n.current || t in n.queue) && Turns(n, t) < Turns(s, t) && Earliest(n, t) == Earliest(s, t)
  }

  /** It is best to dispatch the thread at the head of the queue. */
  predicate BestDispatched(s: State, t: int) {
    || s.queue == [] || s.queue[0] == t || s.queue[0] == 0 || s.queue[0] == s.current
    || 1 + Cost(s.queue[1..], s.queue[0], t) <= Cost(Without(s.queue[1..], s.queue[0]), s.current, t)
  }

  lemma DispatchOnTime(s: State, n: State, tail: seq<int>, t: int)
    requires t in s.queue && t != s.current && t != 0 && BestDispatched(s, t)
    requires n.current == s.queue[0] && n.total == s.total + 1 && n.queue == s.queue[1..] + tail
    requires AllRuns.MainSchedulable(n)
    ensures OnTime(s, n, t)
  {
    if s.queue[0] != t {
      PosAppend(s.queue[1..], tail, t);
      CostAppend(s.queue[1..], tail, n.current, t);
      if n.current == 0 {
        MainServedOnce(n);
        CostNoMain(n.queue, t);
      }
    }
  }

  lemma RemovalOnTime(s: State, n: State, t: int)
    requires t in s.queue && t != s.current && !BestDispatched(s, t)
    requires n.current == s.current && n.total == s.total && n.queue == Without(s.queue, s.queue[0])
    ensures OnTime(s, n, t)
  {
    var d := s.queue[0];
    WithoutHead(s.queue, d);
    WithoutMembers(s.queue, d);
    WithoutPos(s.queue[1..], d, t);
  }

  lemma SafeRemoval(s: State, d: int) returns (n: State)
    requires Weak(s) && d in s.queue && d != 0 && d != s.current
    ensures Safe(s, Terminate(d)) && Step(AsWritten, s, Terminate(d)) == Done(n, Ok(0)) && Weak(n)
    ensures n.current == s.current && n.total == s.total && n.queue == Without(s.queue, d)
  {
    assert Live(s, d) && Parked(s, d);
    TerminateOtherWeak(s, d);
    n := TerminateThread(AsWritten, s, d).next;
  }

  /** A tick, or the termination of a thread other than the current one and main. */
  predicate SparesRunning(s: State, a: Action) {
    a.Tick? || (a.Terminate? && a.tid != s.current && a.tid != 0)
  }

  ghost predicate OthersTerminated(s: State, acts: seq<Action>)
    decreases |acts|
  {
    acts != [] ==>
      && SparesRunning(s, acts[0])
      && (Step(AsWritten, s, acts[0]).Done? ==> OthersTerminated(Step(AsWritten, s, acts[0]).next, acts[1..]))
  }

  /** The thread at the head of the queue is either terminated or dispatched, whichever is quicker in the end. */
  lemma QuickestStep(s: State, t: int) returns (a: Action, n: State)
    requires Weak(s) && t != 0 && t != s.current && t in s.queue
    ensures Safe(s, a) && a != Terminate(t) && Step(AsWritten, s, a) == Done(n, Ok(0)) && Weak(n)
    ensures OnTime(s, n, t) && SparesRunning(s, a)
  {
    if BestDispatched(s, t) {
      a, n := SafeTick(s);
      var tail := TickRotates(s, a.order);
      DispatchOnTime(s, n, tail, t);
    } else {
      a := Terminate(s.queue[0]);
      n := SafeRemoval(s, s.queue[0]);
      RemovalOnTime(s, n, t);
    }
  }

  lemma RunThrough(s: State, a: Action, n: State, rest: seq<Action>)
    requires Step(AsWritten, s, a) == Done(n, Ok(0)) && Safe(s, a) && SoundRun(AsWritten, n, rest)
    requires SparesRunning(s, a) && OthersTerminated(n, rest)
    ensures SoundRun(AsWritten, s, [a] + rest) && RunFrom(AsWritten, s, [a] + rest) == RunFrom(AsWritten, n, rest)
    ensures OthersTerminated(s, [a] + rest)
  {
    assert ([a] + rest)[1..] == rest;
  }

  ghost predicate Reaches(s: State, acts: seq<Action>, t: int) {
    && OthersTerminated(s, acts)
    && SoundRun(AsWritten, s, acts) && Terminate(t) !in acts && RunFrom(AsWritten, s, acts).Done?
    && RunFrom(AsWritten, s, acts).next.current == t && RunFrom(AsWritten, s, acts).next.total == Earliest(s, t)
  }

  /** The bound is met by a sound run, made of ticks and terminations of other threads. */
  lemma {:induction false} Comeback(s: State, t: int) returns (acts: seq<Action>)
    requires Weak(s) && t != 0 && (t == s.current || t in s.queue)
    ensures Reaches(s, acts, t)
    decreases Turns(s, t)
  {
    if t == s.current {
      acts := [];
    } else {
      var a, n := QuickestStep(s, t);
      var rest := Comeback(n, t);
      RunThrough(s, a, n, rest);
      acts := [a] + rest;
    }
  }

  lemma {:induction false} SafeAnchored(s: State, acts: seq<Action>)
    requires Weak(s) && SoundRun(AsWritten, s, acts)
    ensures Anchored(s, acts)
    decreases |acts|
  {
    if acts != [] && Step(AsWritten, s, acts[0]).Done? {
      StepWeak(s, acts[0]);
      SafeAnchored(Step(AsWritten, s, acts[0]).next, acts[1..]);
    }
  }

  // ---------------------------------------------------------------- what sleep delivers

  /** Whatever calls and ticks follow, `t` is not current at any total up to `limit`, unless it has been terminated. */
  ghost predicate KeptOff(s: State, t: int, limit: int) {
    forall acts ::
      (Anchored(s, acts) && Terminate(t) !in acts && RunFrom(AsWritten, s, acts).Done? &&
       RunFrom(AsWritten, s, acts).next.total <= limit) ==> RunFrom(AsWritten, s, acts).next.current != t
  }

  /** The earliest total is exact, over all runs. */
  lemma EarliestExactly(s: State, t: int, limit: int)
    requires Weak(s) && t != 0 && (t == s.current || t in s.queue)
    ensures KeptOff(s, t, limit) <==> limit < Earliest(s, t)
  {
    if limit < Earliest(s, t) {
      forall acts | Anchored(s, acts) && Terminate(t) !in acts && RunFrom(AsWritten, s, acts).Done? &&
                    RunFrom(AsWritten, s, acts).next.total <= limit
        ensures RunFrom(AsWritten, s, acts).next.current != t
      {
        RunNoSooner(s, acts, t);
      }
    } else {
      var acts := Comeback(s, t);
      SafeAnchored(s, acts);
    }
  }

  /** AsWritten, a thread that goes to sleep is last in the queue after the switch. */
  lemma SleeperQueued(s: State, n: int) returns (m: State)
    requires Weak(s) && s.current != 0 && 0 < n <= INT_MAX - s.total
    ensures s.queue != [] && Step(AsWritten, s, Sleep(n)) == Done(m, Ok(0)) && Weak(m)
    ensures m.current == s.queue[0] && m.queue == s.queue[1..] + [s.current] && m.total == s.total + 1
  {
    MainQueuedWeak(s);
    SleepWeak(s, n);
    m := Step(AsWritten, s, Sleep(n)).next;
    var b := FallenAsleep(s, n);
    assert s.current in b.threads.Keys;
    if |b.threads| <= 1 {
      AllRuns.OnlyMain(b.threads);
    }
    SwitchQueue(AsWritten, b);
    assert (s.queue + [s.current])[1..] == s.queue[1..] + [s.current];
  }

  /** AsWritten, a thread that calls sleep(n) in quantum T is kept off the processor in the quantums T+1 .. T+n,
      whatever the other threads do short of terminating it, exactly if it is not next in the queue and `n` is at most
      the cost of the queue it joins. */
  lemma WrittenSleepExactly(s: State, n: int)
    requires Weak(s) && s.current != 0 && 0 < n <= INT_MAX - s.total
    ensures s.queue != [] && Step(AsWritten, s, Sleep(n)).Done?
    ensures KeptOff(Step(AsWritten, s, Sleep(n)).next, s.current, s.total + n) <==>
            s.queue[0] != s.current && n <= Cost(s.queue[1..] + [s.current], s.queue[0], s.current)
  {
    var m := SleeperQueued(s, n);
    assert m.queue[|m.queue| - 1] == s.current;
    EarliestExactly(m, s.current, s.total + n);
  }

  // ---------------------------------------------------------------- runs with no restriction

  /** Main is queued, and `t` is not queued in front of it. */
  ghost predicate BehindMain(q: seq<int>, t: int) {
    0 in q && (t in q ==> Pos(q, 0) < Pos(q, t))
  }

  lemma BehindMainHead(q: seq<int>, t: int)
    requires BehindMain(q, t)
    ensures q[0] != t
  {
  }

  lemma BehindMainAppend(q: seq<int>, r: seq<int>, t: int)
    requires BehindMain(q, t)
    ensures BehindMain(q + r, t)
  {
    PosAppend(q, r, 0);
    if t in q {
      PosAppend(q, r, t);
    } else if t in q + r {
      assert (q + r)[Pos(q + r, t)] == t;
    }
  }

  lemma BehindMainWithout(q: seq<int>, u: int, t: int)
    requires BehindMain(q, t) && u != 0
    ensures BehindMain(Without(q, u), t)
  {
    WithoutMembers(q, u);
    if t in q && t != u {
      WithoutKeepsOrder(q, u, 0, t);
    }
  }

  /** Either no switch has taken place and `t` is still behind main, or one has and `t` is not current. */
  ghost predicate StillBehind(s: State, o: Outcome, t: int) {
    o.Done? ==>
      || (o.next.total == s.total && o.next.current == s.current && BehindMain(o.next.queue, t))
      || (o.next.total == s.total + 1 && o.next.current != t)
  }

  lemma SwitchBehind(s: State, w: State, t: int)
    requires w.total == s.total && w.current in w.threads && BehindMain(w.queue, t)
    ensures StillBehind(s, Switched(Switch(AsWritten, w)), t)
  {
    if Switch(AsWritten, w).Some? {
      SwitchQueue(AsWritten, w);
      BehindMainAppend(w.queue, if Requeues(AsWritten, w) then [w.current] else [], t);
      BehindMainHead(w.queue, t);
    }
  }

  lemma TickBehind(s: State, order: seq<int>, t: int)
    requires BehindMain(s.queue, t)
    ensures StillBehind(s, TimerTick(AsWritten, s, order), t)
  {
    var e := WakeAppends(s, order);
    BehindMainAppend(s.queue, e, t);
    if TimerTick(AsWritten, s, order).Done? {
      SwitchBehind(s, WakeAll(s, order).value, t);
    }
  }

  lemma StepBehind(s: State, a: Action, t: int)
    requires BehindMain(s.queue, t)
    ensures StillBehind(s, Step(AsWritten, s, a), t)
  {
    match a
    case Spawn(_) => BehindMainAppend(s.queue, [FreeTid(s.threads, 0)], t);
    case Terminate(u) =>
      if TidGuard(s, u).None? && u != 0 {
        BehindMainWithout(s.queue, u, t);
        if u == s.current { SwitchBehind(s, MarkedForDeletion(LeaveQueue(s, u), u), t); }
      }
    case Block(u) =>
      if BlockGuard(s, u).None? {
        BehindMainWithout(s.queue, u, t);
        if u == s.current { SwitchBehind(s, UserBlocked(s, u), t); }
      }
    case Resume(u) => BehindMainAppend(s.queue, [u], t);
    case Sleep(n) => if s.current in s.threads { SwitchBehind(s, FallenAsleep(s, n), t); }
    case Tick(order) => TickBehind(s, order, t);
  }

  lemma {:induction false} RunBehind(s: State, acts: seq<Action>, t: int)
    requires RunFrom(AsWritten, s, acts).Done? && s.current != t && BehindMain(s.queue, t)
    ensures RunFrom(AsWritten, s, acts).next.total <= s.total + 1 ==> RunFrom(AsWritten, s, acts).next.current != t
    decreases |acts|
  {
    if acts == [] {
    } else {
      var n := Step(AsWritten, s, acts[0]).next;
      StepBehind(s, acts[0], t);
      if n.total == s.total {
        RunBehind(n, acts[1..], t);
      } else {
        RunTime(AsWritten, n, acts[1..]);
      }
    }
  }

  /** As KeptOff, with no restriction on the runs other than that no call terminates `t`. */
  ghost predicate AlwaysKeptOff(s: State, t: int, limit: int) {
    forall acts ::
      (Terminate(t) !in acts && RunFrom(AsWritten, s, acts).Done? &&
       RunFrom(AsWritten, s, acts).next.total <= limit) ==> RunFrom(AsWritten, s, acts).next.current != t
  }

  lemma TwoQuantums(m: State, t: int, n: int)
    requires m.current != t && (n == 1 || (n == 2 && BehindMain(m.queue, t)))
    ensures AlwaysKeptOff(m, t, m.total - 1 + n)
  {
    forall acts | Terminate(t) !in acts && RunFrom(AsWritten, m, acts).Done? &&
                  RunFrom(AsWritten, m, acts).next.total <= m.total - 1 + n
      ensures RunFrom(AsWritten, m, acts).next.current != t
    {
      RunTime(AsWritten, m, acts);
      if n == 2 {
        RunBehind(m, acts, t);
      }
    }
  }

  lemma OneEntryCost(q: seq<int>, t: int)
    requires 0 in q && t != 0 && t !in q && forall i :: 0 < i < |q| ==> q[i] != q[0]
    ensures Cost(q[1..] + [t], q[0], t) == if q[0] == 0 then 1 else 2
    ensures q[0] != 0 ==> BehindMain(q[1..] + [t], t)
  {
    HeadOrTail(q);
    if q[0] == 0 {
      CostNoMain(q[1..] + [t], t);
    } else {
      CostBehindMain(q[1..], q[0], t);
      BehindMainAppend(q[1..], [t], t);
    }
  }

  /** If neither the caller nor the thread dispatched next has a second entry in the queue, as is always so without
      sleepers, and over every run that does not terminate the caller: sleep(n) delivers what it promises for one
      quantum, and for two if main is not the thread dispatched next. */
  lemma WrittenSleepIff(s: State, n: int)
    requires Weak(s) && s.current != 0 && 0 < n <= INT_MAX - s.total
    requires s.current !in s.queue && forall i :: 0 < i < |s.queue| ==> s.queue[i] != s.queue[0]
    ensures s.queue != [] && Step(AsWritten, s, Sleep(n)).Done?
    ensures AlwaysKeptOff(Step(AsWritten, s, Sleep(n)).next, s.current, s.total + n) <==>
            n == 1 || (n == 2 && s.queue[0] != 0)
  {
    MainQueuedWeak(s);
    OneEntryCost(s.queue, s.current);
    WrittenSleepExactly(s, n);
    var m := SleeperQueued(s, n);
    if n == 1 || (n == 2 && s.queue[0] != 0) {
      TwoQuantums(m, s.current, n);
    }
  }
}
