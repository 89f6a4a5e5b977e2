/** The clock and the queue along any run of either version, and how far a queued thread is from the processor. */
module Waiting {
  import opened Queues
  import opened Model
  import opened Runs
  import opened Invariant

  // ---------------------------------------------------------------- switches and the clock

  lemma SwitchQueue(v: Version, s: State)
    requires s.current in s.threads && Switch(v, s).Some?
    ensures var q, n := s.queue + (if Requeues(v, s) then [s.current] else []), Switch(v, s).value;
            n.total == s.total + 1 && (q != [] ==> n.current == q[0] && n.queue == q[1..])
  {
    assert s.queue + [] == s.queue;
  }

  lemma DispatchTime(s: State)
    ensures Dispatch(s).Some? ==>
              Dispatch(s).value.total == s.total + 1 && Dispatch(s).value.sleeping == s.sleeping
  {
  }

  lemma SwitchTime(v: Version, s: State)
    ensures Switch(v, s).Some? ==> Switch(v, s).value.total == s.total + 1 && Switch(v, s).value.sleeping == s.sleeping
  {
    if s.current in s.threads {
      DispatchTime(Requeue(v, s));
    }
  }

  /** Waking only ever appends to the queue. */
  lemma {:induction false} WakeAppends(s: State, order: seq<int>) returns (e: seq<int>)
    ensures WakeAll(s, order).Some? ==>
              var w := WakeAll(s, order).value;
              w.queue == s.queue + e && w.current == s.current && w.total == s.total
  {
    if order == [] {
      e := [];
    } else {
      e := WakeAppends(s, order[..|order| - 1]);
      if WakeAll(s, order).Some? && WakeAll(s, order).value.queue != s.queue + e {
        e := e + [order[|order| - 1]];
      }
    }
  }

  lemma TickTime(v: Version, s: State, order: seq<int>)
    ensures TimerTick(v, s, order).Done? ==> TimerTick(v, s, order).next.total == s.total + 1
  {
    var e := WakeAppends(s, order);
    if WakeAll(s, order).Some? {
      SwitchTime(v, WakeAll(s, order).value);
    }
  }

  /** The current thread changes only by a switch, every tick switches, and each switch counts. */
  lemma StepTime(v: Version, s: State, a: Action)
    requires Step(v, s, a).Done?
    ensures var n := Step(v, s, a).next;
            || n.total == s.total + 1
            || (n.total == s.total && n.current == s.current && !a.Tick?)
  {
    match a
    case Terminate(u) =>
      if TidGuard(s, u).None? && u == s.current { SwitchTime(v, MarkedForDeletion(LeaveQueue(s, u), u)); }
    case Block(u) => if BlockGuard(s, u).None? && u == s.current { SwitchTime(v, UserBlocked(s, u)); }
    case Sleep(n) => if s.current in s.threads { SwitchTime(v, FallenAsleep(s, n)); }
    case Tick(order) => TickTime(v, s, order);
    case _ =>
  }

  lemma {:induction false} RunTime(v: Version, s: State, acts: seq<Action>)
    requires RunFrom(v, s, acts).Done?
    ensures var n := RunFrom(v, s, acts).next;
            n.total >= s.total && (n.total == s.total ==> n.current == s.current)
    decreases |acts|
  {
    if acts == [] {
    } else {
      StepTime(v, s, acts[0]);
      RunTime(v, Step(v, s, acts[0]).next, acts[1..]);
    }
  }

  // ---------------------------------------------------------------- one step

  /** Calls that take `t` out of the queue. Main is immune to both. */
  predicate Removes(a: Action, t: int) {
    t != 0 && (a == Block(t) || a == Terminate(t))
  }

  /** `t` is not pushed back, and a switch moves it forward or dispatches it. */
  ghost predicate Nearer(s: State, n: State, t: int)
    requires t in s.queue
  {
    || (n.total == s.total && n.current == s.current && t in n.queue && Pos(n.queue, t) <= Pos(s.queue, t))
    || (n.total == s.total + 1 && (n.current == t || (t in n.queue && Pos(n.queue, t) < Pos(s.queue, t))))
  }

  /** As Nearer, and a switch moves `t` exactly one place forward. */
  ghost predicate Closer(s: State, n: State, t: int)
    requires t in s.queue
  {
    || (n.total == s.total && n.current == s.current && t in n.queue && Pos(n.queue, t) <= Pos(s.queue, t))
    || (n.total == s.total + 1 &&
        if Pos(s.queue, t) == 0 then n.current == t
        else t in n.queue && Pos(n.queue, t) == Pos(s.queue, t) - 1)
  }

  /** The running thread is in the map and RUNNING, as it is until its object is deleted under it. */
  predicate CurrentRuns(s: State) {
    s.current in s.threads && s.threads[s.current].state == RUNNING
  }

  lemma SwitchCloser(v: Version, s: State, w: State, t: int, extra: seq<int>)
    requires t in s.queue && w.queue == s.queue + extra && w.total == s.total && Switch(v, w).Some?
    ensures Closer(s, Switch(v, w).value, t)
  {
    SwitchQueue(v, w);
    var q := s.queue;
    assert w.queue[0] == q[0];
    if q[0] != t {
      var tail := extra + (if Requeues(v, w) then [w.current] else []);
      assert Switch(v, w).value.queue == q[1..] + tail;
      PosAppend(q[1..], tail, t);
    }
  }

  lemma TerminateCloser(v: Version, s: State, u: int, t: int)
    requires u in s.threads && u != 0 && t in s.queue && u != t && TerminateThread(v, s, u).Done?
    ensures Nearer(s, TerminateThread(v, s, u).next, t)
    ensures CurrentRuns(s) ==> Closer(s, TerminateThread(v, s, u).next, t)
  {
    var s1 := LeaveQueue(s, u);
    WithoutPos(s.queue, u, t);
    if u == s.current {
      assert s1.queue == s1.queue + [];
      SwitchCloser(v, s1, MarkedForDeletion(s1, u), t, []);
    }
  }

  lemma BlockCloser(v: Version, s: State, u: int, t: int)
    requires u in s.threads && u != 0 && t in s.queue && u != t && BlockThread(v, s, u).Done?
    ensures Closer(s, BlockThread(v, s, u).next, t)
  {
    if s.threads[u].userBlocked {
    } else if s.threads[u].state != RUNNING {
      WithoutPos(s.queue, u, t);
    } else if u == s.current {
      assert s.queue == s.queue + [];
      SwitchCloser(v, s, UserBlocked(s, u), t, []);
    }
  }

  lemma SleepCloser(v: Version, s: State, n: int, t: int)
    requires t in s.queue && SleepThread(v, s, n).Done?
    ensures Closer(s, SleepThread(v, s, n).next, t)
  {
    assert s.queue == s.queue + [];
    SwitchCloser(v, s, FallenAsleep(s, n), t, []);
  }

  lemma TickCloser(v: Version, s: State, order: seq<int>, t: int)
    requires t in s.queue && TimerTick(v, s, order).Done?
    ensures Closer(s, TimerTick(v, s, order).next, t)
  {
    var e := WakeAppends(s, order);
    SwitchCloser(v, s, WakeAll(s, order).value, t, e);
  }

  /** Whatever a step does, it does not push a queued thread back, and a switch brings it nearer: by exactly one place
      unless the running thread has lost its object. Both versions, every state. */
  lemma StepCloser(v: Version, s: State, a: Action, t: int)
    requires t in s.queue && !Removes(a, t) && Step(v, s, a).Done?
    ensures Nearer(s, Step(v, s, a).next, t)
    ensures CurrentRuns(s) ==> Closer(s, Step(v, s, a).next, t)
  {
    match a
    case Spawn(_) => PosAppend(s.queue, [FreeTid(s.threads, 0)], t);
    case Terminate(u) => if TidGuard(s, u).None? { TerminateCloser(v, s, u, t); }
    case Block(u) => if BlockGuard(s, u).None? { BlockCloser(v, s, u, t); }
    case Resume(u) => PosAppend(s.queue, [u], t);
    case Sleep(n) => if n > 0 && s.current != 0 { SleepCloser(v, s, n, t); }
    case Tick(order) => TickCloser(v, s, order, t);
  }

  // ---------------------------------------------------------------- whole runs

  predicate NeverRemoves(acts: seq<Action>, t: int) {
    forall i :: 0 <= i < |acts| ==> !Removes(acts[i], t)
  }

  /** A thread at position `p` of the queue is dispatched by the (p+1)-st switch of any run that neither blocks nor
      terminates it. Both versions, every state, every run. */
  lemma {:induction false} DispatchedInTurn(v: Version, s: State, acts: seq<Action>, t: int)
    requires t in s.queue && NeverRemoves(acts, t)
    requires RunFrom(v, s, acts).Done? && RunFrom(v, s, acts).next.total > s.total + Pos(s.queue, t)
    ensures Sometime(v, s, acts, (x: State) => x.current == t)
    decreases |acts|
  {
    var n := Step(v, s, acts[0]).next;
    StepCloser(v, s, acts[0], t);
    if n.current != t {
      DispatchedInTurn(v, n, acts[1..], t);
    }
  }

  /** A queued thread stands behind fewer than 99 others. */
  lemma QueueBound(v: Version, s: State, t: int)
    requires Inv(v, s) && t in s.queue
    ensures Pos(s.queue, t) < |s.queue| <= 99
  {
    assert s.current !in s.queue;
    BoundWithout(s.queue, MAX_THREAD_NUM, s.current);
  }

  /** Where no thread is queued twice, no queued thread waits for more than 99 switches, unless blocked or terminated
      meanwhile. */
  lemma BoundedWaiting(v: Version, s: State, acts: seq<Action>, t: int)
    requires Inv(v, s) && t in s.queue && NeverRemoves(acts, t)
    requires RunFrom(v, s, acts).Done? && RunFrom(v, s, acts).next.total >= s.total + 99
    ensures Sometime(v, s, acts, (x: State) => x.current == t)
  {
    QueueBound(v, s, t);
    DispatchedInTurn(v, s, acts, t);
  }
}
