/** What every run keeps, in both versions and with no restriction on the calls made: the main thread stays
    schedulable, and quantums are conserved. */
module AllRuns {
  import opened Queues
  import opened Model
  import opened Runs

  // ---------------------------------------------------------------- the main thread

  /** Main is in the queue exactly once when it is not current and absent when it is. */
  ghost predicate MainSchedulable(s: State) {
    && 0 in s.threads && 0 !in s.sleeping && s.pending != 0
    && (s.current == 0 ==> multiset(s.queue)[0] == 0 && s.threads[0].state == RUNNING)
    && (s.current != 0 ==> multiset(s.queue)[0] == 1 && s.threads[0].state == READY)
  }

  lemma HeadCount(q: seq<int>)
    requires q != []
    ensures multiset(q)[0] == multiset(q[1..])[0] + (if q[0] == 0 then 1 else 0)
  {
    assert q == [q[0]] + q[1..];
  }

  lemma OnlyMain(threads: map<int, Record>)
    requires 0 in threads && |threads| <= 1
    ensures threads.Keys == {0}
  {
    assert |threads.Keys - {0}| == 0;
  }

  lemma StartedKeepsMain(s: State)
    requires 0 in s.threads && 0 !in s.sleeping && s.pending != 0 && Next(s) in s.threads
    requires (multiset(s.queue)[0] == 1 && s.threads[0].state == READY)
          || (multiset(s.queue)[0] == 0 && s.threads[0].state == RUNNING && s.current == 0 && s.queue == [])
    ensures MainSchedulable(Started(s))
  {
    if s.queue != [] {
      HeadCount(s.queue);
    }
  }

  lemma DispatchKeepsMain(s: State)
    requires 0 in s.threads && 0 !in s.sleeping && s.pending != 0
    requires (multiset(s.queue)[0] == 1 && s.threads[0].state == READY)
          || (multiset(s.queue)[0] == 0 && s.threads[0].state == RUNNING && s.current == 0 && s.threads.Keys == {0})
    ensures Dispatch(s).Some? ==> MainSchedulable(Dispatch(s).value)
  {
    if Next(s) in s.threads {
      HeadMember(s.queue);
      assert Next(s) in s.threads.Keys;
      StartedKeepsMain(s);
    }
  }

  lemma SwitchKeepsMain(v: Version, s: State)
    requires MainSchedulable(s)
    ensures Switch(v, s).Some? ==> MainSchedulable(Switch(v, s).value)
  {
    if s.current in s.threads {
      if !Requeues(v, s) && s.current == 0 {
        OnlyMain(s.threads);
      }
      DispatchKeepsMain(Requeue(v, s));
    }
  }

  lemma {:induction false} WakeKeepsMain(s: State, order: seq<int>)
    requires MainSchedulable(s)
    ensures WakeAll(s, order).Some? ==>
              MainSchedulable(WakeAll(s, order).value) && WakeAll(s, order).value.current == s.current
  {
    if order == [] {
    } else {
      WakeKeepsMain(s, order[..|order| - 1]);
    }
  }

  ghost predicate KeepsMain(o: Outcome) {
    o.Done? ==> MainSchedulable(o.next) && o.reply != Error(NoThreadsLeft)
  }

  lemma LeaveKeepsMain(s: State, t: int)
    requires MainSchedulable(s) && t in s.threads && t != 0
    ensures MainSchedulable(LeaveQueue(s, t)) && LeaveQueue(s, t).threads == s.threads
  {
    WithoutCount(s.queue, t, 0);
  }

  lemma TerminateKeepsMain(v: Version, s: State, t: int)
    requires MainSchedulable(s) && t in s.threads
    ensures KeepsMain(TerminateThread(v, s, t))
  {
    if t != 0 {
      LeaveKeepsMain(s, t);
      if t == s.current {
        SwitchKeepsMain(v, MarkedForDeletion(LeaveQueue(s, t), t));
      }
    }
  }

  lemma BlockKeepsMain(v: Version, s: State, t: int)
    requires MainSchedulable(s) && t in s.threads && t != 0
    ensures KeepsMain(BlockThread(v, s, t))
  {
    if s.threads[t].state != RUNNING {
      LeaveKeepsMain(s, t);
    } else if t == s.current {
      SwitchKeepsMain(v, UserBlocked(s, t));
    }
  }

  lemma SleepKeepsMain(v: Version, s: State, n: int)
    requires MainSchedulable(s) && s.current != 0
    ensures KeepsMain(SleepThread(v, s, n))
  {
    if s.current in s.threads {
      SwitchKeepsMain(v, FallenAsleep(s, n));
    }
  }

  lemma TickKeepsMain(v: Version, s: State, order: seq<int>)
    requires MainSchedulable(s)
    ensures KeepsMain(TimerTick(v, s, order))
  {
    WakeKeepsMain(s, order);
    if WakeAll(s, order).Some? {
      SwitchKeepsMain(v, WakeAll(s, order).value);
    }
  }

  lemma ResumeKeepsMain(v: Version, s: State, t: int)
    requires MainSchedulable(s) && t in s.threads
    ensures KeepsMain(ResumeThread(v, s, t))
  {
  }

  lemma SpawnKeepsMain(s: State)
    requires MainSchedulable(s)
    ensures KeepsMain(SpawnThread(s))
  {
  }

  lemma StepKeepsMain(v: Version, s: State, a: Action)
    requires MainSchedulable(s)
    ensures KeepsMain(Step(v, s, a))
  {
    match a
    case Spawn(_) => SpawnKeepsMain(s);
    case Terminate(t) => if TidGuard(s, t).None? { TerminateKeepsMain(v, s, t); }
    case Block(t) => if BlockGuard(s, t).None? { BlockKeepsMain(v, s, t); }
    case Resume(t) => if TidGuard(s, t).None? { ResumeKeepsMain(v, s, t); }
    case Sleep(n) => if s.current != 0 { SleepKeepsMain(v, s, n); }
    case Tick(order) => TickKeepsMain(v, s, order);
  }

  lemma {:induction false} RunKeepsMain(v: Version, s: State, acts: seq<Action>)
    requires MainSchedulable(s) && RunFrom(v, s, acts).Done?
    ensures MainSchedulable(RunFrom(v, s, acts).next)
    decreases |acts|
  {
    if acts == [] {
    } else {
      StepKeepsMain(v, s, acts[0]);
      RunKeepsMain(v, Step(v, s, acts[0]).next, acts[1..]);
    }
  }

  /** After any run, main is queued exactly once or running, and no call can fail for want of a thread to run. */
  lemma MainAlwaysSchedulable(v: Version, acts: seq<Action>, a: Action)
    requires RunFrom(v, Init(), acts).Done?
    ensures MainSchedulable(RunFrom(v, Init(), acts).next)
    ensures Step(v, RunFrom(v, Init(), acts).next, a).Done? ==>
              Step(v, RunFrom(v, Init(), acts).next, a).reply != Error(NoThreadsLeft)
  {
    RunKeepsMain(v, Init(), acts);
    StepKeepsMain(v, RunFrom(v, Init(), acts).next, a);
  }

  // ---------------------------------------------------------------- conservation of quantums

  /** The sum of the quantum counts of the threads with a tid below `n`. */
  function QuantumSum(threads: map<int, Record>, n: nat): int {
    if n == 0 then 0
    else QuantumSum(threads, n - 1) + (if n - 1 in threads then threads[n - 1].quantums else 0)
  }

  ghost predicate Balanced(s: State) {
    && (forall t :: t in s.threads ==> 0 <= t < MAX_THREAD_NUM)
    && s.total == QuantumSum(s.threads, MAX_THREAD_NUM) + s.retired
  }

  lemma {:induction false} SumUpdate(threads: map<int, Record>, t: int, r: Record, n: nat)
    requires 0 <= t
    ensures QuantumSum(threads[t := r], n) == QuantumSum(threads, n) +
            (if t < n then r.quantums - (if t in threads then threads[t].quantums else 0) else 0)
  {
    if n == 0 {
    } else {
      SumUpdate(threads, t, r, n - 1);
    }
  }

  lemma {:induction false} SumRemove(threads: map<int, Record>, t: int, n: nat)
    requires 0 <= t && t in threads
    ensures QuantumSum(threads - {t}, n) == QuantumSum(threads, n) - (if t < n then threads[t].quantums else 0)
  {
    if n == 0 {
    } else {
      SumRemove(threads, t, n - 1);
    }
  }

  lemma DeleteBalanced(s: State, t: int)
    requires Balanced(s)
    ensures Balanced(Delete(s, t))
  {
    if t in s.threads {
      SumRemove(s.threads, t, MAX_THREAD_NUM);
    }
  }

  lemma UpdateBalanced(s: State, t: int, r: Record)
    requires Balanced(s) && 0 <= t < MAX_THREAD_NUM
    requires r.quantums == if t in s.threads then s.threads[t].quantums else 0
    ensures Balanced(s.(threads := s.threads[t := r]))
  {
    SumUpdate(s.threads, t, r, MAX_THREAD_NUM);
  }

  lemma StartedSum(s: State)
    requires Balanced(s) && Next(s) in s.threads
    ensures QuantumSum(Started(s).threads, MAX_THREAD_NUM) == QuantumSum(s.threads, MAX_THREAD_NUM) + 1
  {
    var h := HeadTaken(s);
    var r := h.threads[Next(s)];
    SumUpdate(s.threads, Next(s), r, MAX_THREAD_NUM);
    SumUpdate(h.threads, Next(s), r.(quantums := r.quantums + 1), MAX_THREAD_NUM);
  }

  /** One switch adds one quantum to the total and one to the threads, deleted ones included. */
  lemma SwitchBalanced(v: Version, s: State)
    requires Balanced(s)
    ensures Switch(v, s).Some? ==>
              var n := Switch(v, s).value;
              && Balanced(n) && n.total == s.total + 1
              && QuantumSum(n.threads, MAX_THREAD_NUM) + n.retired ==
                 QuantumSum(s.threads, MAX_THREAD_NUM) + s.retired + 1
  {
    if Switch(v, s).Some? {
      UpdateBalanced(s, s.current, s.threads[s.current].(state := READY));
      var q := Requeue(v, s);
      StartedSum(q);
      DeleteBalanced(Started(q), q.pending);
    }
  }

  lemma {:induction false} WakeBalanced(s: State, order: seq<int>)
    requires Balanced(s)
    ensures WakeAll(s, order).Some? ==> Balanced(WakeAll(s, order).value)
  {
    if order == [] {
    } else {
      WakeBalanced(s, order[..|order| - 1]);
      var w, t := WakeAll(s, order[..|order| - 1]), order[|order| - 1];
      if w.Some? && t in w.value.threads {
        UpdateBalanced(w.value, t, w.value.threads[t].(state := READY));
      }
    }
  }

  ghost predicate KeepsBalance(o: Outcome) {
    o.Done? ==> Balanced(o.next)
  }

  lemma TerminateBalanced(v: Version, s: State, t: int)
    requires Balanced(s) && t in s.threads
    ensures KeepsBalance(TerminateThread(v, s, t))
  {
    var s1 := LeaveQueue(s, t);
    DeleteBalanced(s1.(sleeping := s1.sleeping - {t}), t);
    UpdateBalanced(s1, t, s1.threads[t].(state := READY));
    SwitchBalanced(v, MarkedForDeletion(s1, t));
  }

  lemma BlockBalanced(v: Version, s: State, t: int)
    requires Balanced(s) && t in s.threads
    ensures KeepsBalance(BlockThread(v, s, t))
  {
    var r := s.threads[t].(state := BLOCKED);
    UpdateBalanced(s, t, r);
    UpdateBalanced(WithState(s, t, BLOCKED), t, r.(userBlocked := true));
    SwitchBalanced(v, UserBlocked(s, t));
  }

  lemma ResumeBalanced(v: Version, s: State, t: int)
    requires Balanced(s) && t in s.threads
    ensures KeepsBalance(ResumeThread(v, s, t))
  {
    UpdateBalanced(s, t, s.threads[t].(userBlocked := false));
    UpdateBalanced(s, t, s.threads[t].(state := READY));
    var s1 := WithState(s, t, READY);
    UpdateBalanced(s1, t, s1.threads[t].(userBlocked := false));
  }

  lemma SleepBalanced(v: Version, s: State, n: int)
    requires Balanced(s)
    ensures KeepsBalance(SleepThread(v, s, n))
  {
    if s.current in s.threads {
      UpdateBalanced(s, s.current, s.threads[s.current].(state := RUNNING));
      UpdateBalanced(s, s.current, s.threads[s.current].(state := BLOCKED));
      SwitchBalanced(v, FallenAsleep(s, n));
    }
  }

  lemma StepBalanced(v: Version, s: State, a: Action)
    requires Balanced(s)
    ensures KeepsBalance(Step(v, s, a))
  {
    match a
    case Spawn(hasEntryPoint) =>
      var t := FreeTid(s.threads, 0);
      if t != -1 {
        UpdateBalanced(s, t, Record(READY, 0, false));
      }
    case Terminate(t) => if TidGuard(s, t).None? { TerminateBalanced(v, s, t); }
    case Block(t) => if BlockGuard(s, t).None? { BlockBalanced(v, s, t); }
    case Resume(t) => if TidGuard(s, t).None? { ResumeBalanced(v, s, t); }
    case Sleep(n) => SleepBalanced(v, s, n);
    case Tick(order) =>
      WakeBalanced(s, order);
      if WakeAll(s, order).Some? {
        SwitchBalanced(v, WakeAll(s, order).value);
      }
  }

  lemma {:induction false} RunBalanced(v: Version, s: State, acts: seq<Action>)
    requires Balanced(s) && RunFrom(v, s, acts).Done?
    ensures Balanced(RunFrom(v, s, acts).next)
    decreases |acts|
  {
    if acts == [] {
    } else {
      StepBalanced(v, s, acts[0]);
      RunBalanced(v, Step(v, s, acts[0]).next, acts[1..]);
    }
  }

  /** After any run, the total equals the counts of the threads in the map plus those of all deleted threads. */
  lemma Conservation(v: Version, acts: seq<Action>)
    requires RunFrom(v, Init(), acts).Done?
    ensures var s := RunFrom(v, Init(), acts).next;
            s.total == QuantumSum(s.threads, MAX_THREAD_NUM) + s.retired
  {
    SumUpdate(map[], 0, Record(RUNNING, 1, false), MAX_THREAD_NUM);
    EmptySum(MAX_THREAD_NUM);
    assert map[][0 := Record(RUNNING, 1, false)] == Init().threads;
    RunBalanced(v, Init(), acts);
  }

  lemma {:induction false} EmptySum(n: nat)
    ensures QuantumSum(map[], n) == 0
  {
    if n == 0 {
    } else {
      EmptySum(n - 1);
    }
  }

  // ---------------------------------------------------------------- bookkeeping

  function Erase(s: State): State {
    s.(zombies := {}, retired := 0)
  }

  function EraseOutcome(o: Outcome): Outcome {
    match o
    case Done(next, reply) => Done(Erase(next), reply)
    case _ => o
  }

  lemma {:induction false} WakeInert(s: State, order: seq<int>)
    ensures match WakeAll(s, order)
            case Some(s') => WakeAll(Erase(s), order) == Some(Erase(s'))
            case None => WakeAll(Erase(s), order) == None
  {
    if order == [] {
    } else {
      WakeInert(s, order[..|order| - 1]);
    }
  }

  lemma DispatchInert(s: State)
    ensures EraseOutcome(Switched(Dispatch(s))) == EraseOutcome(Switched(Dispatch(Erase(s))))
  {
    if Next(s) in s.threads {
      assert Erase(Started(s)) == Started(Erase(s));
    }
  }

  lemma SwitchInert(v: Version, s: State)
    ensures EraseOutcome(Switched(Switch(v, s))) == EraseOutcome(Switched(Switch(v, Erase(s))))
  {
    if s.current in s.threads {
      assert Requeue(v, Erase(s)) == Erase(Requeue(v, s));
      DispatchInert(Requeue(v, s));
    }
  }

  ghost predicate Alike(o: Outcome, p: Outcome) {
    EraseOutcome(o) == EraseOutcome(p)
  }

  lemma TerminateInert(v: Version, s: State, t: int)
    requires t in s.threads
    ensures Alike(TerminateThread(v, s, t), TerminateThread(v, Erase(s), t))
  {
    if t == s.current && t != 0 {
      var m, e := MarkedForDeletion(LeaveQueue(s, t), t), MarkedForDeletion(LeaveQueue(Erase(s), t), t);
      SwitchInert(v, m);
      SwitchInert(v, e);
      assert Erase(m) == Erase(e);
    }
  }

  lemma BlockInert(v: Version, s: State, t: int)
    requires t in s.threads
    ensures Alike(BlockThread(v, s, t), BlockThread(v, Erase(s), t))
  {
    SwitchInert(v, UserBlocked(s, t));
    assert Erase(UserBlocked(s, t)) == UserBlocked(Erase(s), t);
  }

  lemma SleepInert(v: Version, s: State, n: int)
    ensures Alike(SleepThread(v, s, n), SleepThread(v, Erase(s), n))
  {
    if s.current in s.threads {
      SwitchInert(v, FallenAsleep(s, n));
      assert Erase(FallenAsleep(s, n)) == FallenAsleep(Erase(s), n);
    }
  }

  lemma TickInert(v: Version, s: State, order: seq<int>)
    ensures Alike(TimerTick(v, s, order), TimerTick(v, Erase(s), order))
  {
    WakeInert(s, order);
    if WakeAll(s, order).Some? {
      SwitchInert(v, WakeAll(s, order).value);
    }
  }

  lemma StepInert(v: Version, s: State, a: Action)
    ensures Alike(Step(v, s, a), Step(v, Erase(s), a))
  {
    match a
    case Terminate(t) => if TidGuard(s, t).None? { TerminateInert(v, s, t); }
    case Block(t) => if BlockGuard(s, t).None? { BlockInert(v, s, t); }
    case Sleep(n) => SleepInert(v, s, n);
    case Tick(order) => TickInert(v, s, order);
    case _ =>
  }

  /** Two states that differ only in the bookkeeping fields run alike: same replies, same ending, same scheduling. */
  lemma {:induction false} BookkeepingIsInert(v: Version, s: State, e: State, acts: seq<Action>)
    requires Erase(s) == Erase(e)
    ensures EraseOutcome(RunFrom(v, s, acts)) == EraseOutcome(RunFrom(v, e, acts))
    decreases |acts|
  {
    if acts == [] {
    } else {
      StepInert(v, s, acts[0]);
      StepInert(v, e, acts[0]);
      if Step(v, s, acts[0]).Done? {
        BookkeepingIsInert(v, Step(v, s, acts[0]).next, Step(v, e, acts[0]).next, acts[1..]);
      }
    }
  }
}
