/** The places where AsWritten falls short of its documentation, each with its condition or a run that shows it. */
module Divergence {
  import opened Queues
  import opened Model
  import opened Runs
  import opened Invariant
  import opened Fairness
  import opened Sleepers
  import opened Waiting
  import Lockstep

  /** A requeued thread comes out of the switch READY, or RUNNING if it is dispatched again. */
  lemma RequeuedUnblocked(b: State)
    requires b.current in b.threads && Requeues(AsWritten, b) && Switch(AsWritten, b).Some?
    ensures var n := Switch(AsWritten, b).value; b.current in n.threads && n.threads[b.current].state != BLOCKED
  {
  }

  lemma NotAlone(s: State)
    requires 0 in s.threads && s.current in s.threads && s.current != 0
    ensures |s.threads| > 1
  {
    assert s.current in s.threads.Keys;
    if |s.threads| <= 1 {
      AllRuns.OnlyMain(s.threads);
    }
  }

  lemma SelfBlockReady(s: State)
    requires Weak(s) && s.current != 0
    ensures var o := BlockThread(AsWritten, s, s.current);
            o.Done? && s.current in o.next.threads && o.next.threads[s.current].state != BLOCKED
  {
    BlockSelfWeak(s);
    if !s.threads[s.current].userBlocked {
      NotAlone(UserBlocked(s, s.current));
      RequeuedUnblocked(UserBlocked(s, s.current));
    }
  }

  /** AsWritten, sleepers or not, blocking a live thread other than main leaves it BLOCKED exactly if it is not the
      caller and its flag is not left over from an earlier block. AsMeant always blocks it (Lockstep.MeantBlocks). */
  lemma BlockTakesEffectIff(s: State, t: int)
    requires Weak(s) && Live(s, t) && t != 0
    ensures var o := Step(AsWritten, s, Block(t));
            && o.Done? && t in o.next.threads
            && (o.next.threads[t].state == BLOCKED <==>
                t != s.current && (s.threads[t].userBlocked ==> s.threads[t].state == BLOCKED))
  {
    assert BlockGuard(s, t).None?;
    if t == s.current {
      SelfBlockReady(s);
    } else if !s.threads[t].userBlocked {
      BlockOtherWeak(s, t);
    }
  }

  lemma RingAt(q: seq<int>, t: int, n: State, m: State, k: nat)
    requires t !in q && Ring(m) == q + [t] && k <= |q| && PartRound(m, n, k)
    ensures n.current == t <==> k == |q|
  {
    assert Ring(n)[0] == n.current;
    assert Ring(n)[0] == (q + [t])[k];
  }

  lemma RingClosed(q: seq<int>, t: int)
    requires q != []
    ensures [q[0]] + (q[1..] + [t]) == q + [t]
  {
  }

  lemma WrittenSleep(s: State, n: int) returns (m: State)
    requires Inv(AsWritten, s) && s.current != 0 && 0 < n <= INT_MAX - s.total
    ensures Step(AsWritten, s, Sleep(n)) == Done(m, Ok(0))
    ensures Weak(m) && Ring(m) == s.queue + [s.current] && s.current !in s.queue
    ensures m.sleeping == map[s.current := s.total + n] && m.total == s.total + 1
  {
    m := Lockstep.SleepRequeues(s, n);
    RingClosed(s.queue, s.current);
  }

  lemma AfterWrittenSleep(s: State, n: int, acts: seq<Action>)
    requires Inv(AsWritten, s) && s.current != 0 && 0 < n <= INT_MAX - s.total
    requires AllTicks(acts) && |acts| < n && |acts| <= |s.queue|
    ensures Step(AsWritten, s, Sleep(n)).Done?
    ensures var o := RunFrom(AsWritten, Step(AsWritten, s, Sleep(n)).next, acts);
            o.Done? && (o.next.current == s.current <==> |acts| == |s.queue|)
  {
    var m := WrittenSleep(s, n);
    assert QuietFor(m, |acts|);
    QuietTicks(AsWritten, m, acts);
    SwitchesPartRound(AsWritten, m, |acts|);
    RingAt(s.queue, s.current, RunFrom(AsWritten, m, acts).next, m, |acts|);
  }

  /** AsWritten, from a state without sleepers: with nothing but ticks in between, sleep(n) in quantum T keeps the
      caller off the processor in the quantums T+1 .. T+n exactly if at least n threads are in the ready queue. (For
      all calls see ShortSleep.WrittenSleepExactly, for AsMeant Sleeping.SleeperNotScheduled.) */
  lemma WrittenSleepTicksIff(s: State, n: int)
    requires Inv(AsWritten, s) && s.current != 0 && 0 < n <= INT_MAX - s.total
    ensures Step(AsWritten, s, Sleep(n)).Done?
    ensures var m := Step(AsWritten, s, Sleep(n)).next;
            (forall acts :: AllTicks(acts) && |acts| < n ==>
               RunFrom(AsWritten, m, acts).Done? && RunFrom(AsWritten, m, acts).next.current != s.current)
            <==> n <= |s.queue|
  {
    AfterWrittenSleep(s, n, []);
    if n <= |s.queue| {
      forall acts | AllTicks(acts) && |acts| < n
        ensures RunFrom(AsWritten, Step(AsWritten, s, Sleep(n)).next, acts).Done?
        ensures RunFrom(AsWritten, Step(AsWritten, s, Sleep(n)).next, acts).next.current != s.current
      {
        AfterWrittenSleep(s, n, acts);
      }
    } else {
      var acts := seq(|s.queue|, _ => Tick([]));
      AfterWrittenSleep(s, n, acts);
    }
  }

  // ---------------------------------------------------------------- literal states

  function Unflagged(state: ThreadState, quantums: int): Record {
    Record(state, quantums, false)
  }

  /** The map of main and one more thread. */
  function MainAnd(main: Record, t: int, r: Record): map<int, Record> {
    map[0 := main, t := r]
  }

  /** The map of the threads 0, 1 and 2. */
  function FirstThree(main: Record, r1: Record, r2: Record): map<int, Record> {
    map[0 := main, 1 := r1, 2 := r2]
  }

  lemma MainAndUpdates(main: Record, t: int, r: Record, x: Record)
    requires t != 0
    ensures var m := MainAnd(main, t, r);
            m[0 := x] == MainAnd(x, t, r) && m[t := x] == MainAnd(main, t, x) && m - {t} == map[0 := main]
    ensures |MainAnd(main, t, r)| == 2
  {
    assert MainAnd(main, t, r).Keys == {0, t};
    assert |MainAnd(main, t, r)| == |MainAnd(main, t, r).Keys|;
  }

  lemma FirstThreeUpdates(main: Record, r1: Record, r2: Record, x: Record)
    ensures var m := FirstThree(main, r1, r2);
            && m[0 := x] == FirstThree(x, r1, r2) && m[1 := x] == FirstThree(main, x, r2)
            && m[2 := x] == FirstThree(main, r1, x)
            && m - {1} == MainAnd(main, 2, r2) && m - {2} == MainAnd(main, 1, r1)
    ensures |FirstThree(main, r1, r2)| == 3
  {
    assert FirstThree(main, r1, r2).Keys == {0, 1, 2};
    assert |FirstThree(main, r1, r2)| == |FirstThree(main, r1, r2).Keys|;
  }

  lemma ThirdAdded(main: Record, r1: Record, r2: Record)
    ensures MainAnd(main, 1, r1)[2 := r2] == FirstThree(main, r1, r2)
    ensures MainAnd(main, 2, r2)[1 := r1] == FirstThree(main, r1, r2)
  {
  }

  lemma RunCons(v: Version, s: State, a: Action, rest: seq<Action>)
    ensures Step(v, s, a).Done? ==> RunFrom(v, s, [a] + rest) == RunFrom(v, Step(v, s, a).next, rest)
    ensures Step(v, s, a).Crash? ==> RunFrom(v, s, [a] + rest).Crash?
  {
    assert ([a] + rest)[1..] == rest;
  }

  /** A tick in stages: nobody is woken, the outgoing thread is requeued, the next one is dispatched. */
  lemma TickStages(v: Version, s: State, order: seq<int>, r: State, n: State)
    requires s.current in s.threads && forall t :: t in s.sleeping ==> s.sleeping[t] > s.total
    requires Requeue(v, s) == r && Dispatch(r) == Some(n)
    ensures Step(v, s, Tick(order)) == Done(n, Ok(0))
  {
    NoneExpired(s, order);
  }

  // ---------------------------------------------------------------- two threads that end in their first quantum

  function Spawned1(): State {
    State(MainAnd(Unflagged(RUNNING, 1), 1, Unflagged(READY, 0)), [1], map[], 0, NO_PENDING, 1, {}, 0)
  }

  function Spawned2(): State {
    State(FirstThree(Unflagged(RUNNING, 1), Unflagged(READY, 0), Unflagged(READY, 0)),
          [1, 2], map[], 0, NO_PENDING, 1, {}, 0)
  }

  function MainRequeued(): State {
    State(FirstThree(Unflagged(READY, 1), Unflagged(READY, 0), Unflagged(READY, 0)),
          [1, 2, 0], map[], 0, NO_PENDING, 1, {}, 0)
  }

  function FirstRuns(): State {
    State(FirstThree(Unflagged(READY, 1), Unflagged(RUNNING, 1), Unflagged(READY, 0)),
          [2, 0], map[], 1, NO_PENDING, 2, {}, 0)
  }

  function FirstMarked(): State {
    State(FirstThree(Unflagged(READY, 1), Unflagged(READY, 1), Unflagged(READY, 0)), [2, 0], map[], 1, 1, 2, {1}, 0)
  }

  function FirstPending(): State {
    State(FirstThree(Unflagged(READY, 1), Unflagged(READY, 1), Unflagged(RUNNING, 1)), [0], map[], 2, 1, 3, {1}, 0)
  }

  function SecondMarked(): State {
    State(FirstThree(Unflagged(READY, 1), Unflagged(READY, 1), Unflagged(READY, 1)), [0], map[], 2, 2, 3, {1, 2}, 0)
  }

  function FirstLeaked(): State {
    State(MainAnd(Unflagged(RUNNING, 2), 1, Unflagged(READY, 1)), [], map[], 0, NO_PENDING, 4, {1}, 1)
  }

  lemma Spawn1(v: Version)
    ensures Step(v, Init(), Spawn(true)) == Done(Spawned1(), Ok(1))
  {
    assert FreeTid(Init().threads, 0) == 1;
  }

  lemma Spawn2(v: Version)
    ensures Step(v, Spawned1(), Spawn(true)) == Done(Spawned2(), Ok(2))
  {
    assert FreeTid(Spawned1().threads, 0) == 2;
    ThirdAdded(Unflagged(RUNNING, 1), Unflagged(READY, 0), Unflagged(READY, 0));
  }

  lemma Requeue1(v: Version)
    ensures Requeue(v, Spawned2()) == MainRequeued()
  {
    FirstThreeUpdates(Unflagged(RUNNING, 1), Unflagged(READY, 0), Unflagged(READY, 0), Unflagged(READY, 1));
  }

  lemma Dispatch1()
    ensures Dispatch(MainRequeued()) == Some(FirstRuns())
  {
    FirstThreeUpdates(Unflagged(READY, 1), Unflagged(READY, 0), Unflagged(READY, 0), Unflagged(RUNNING, 0));
    FirstThreeUpdates(Unflagged(READY, 1), Unflagged(RUNNING, 0), Unflagged(READY, 0), Unflagged(RUNNING, 1));
  }

  lemma Run1(v: Version)
    ensures Step(v, Spawned2(), Tick([])) == Done(FirstRuns(), Ok(0))
  {
    Requeue1(v);
    Dispatch1();
    TickStages(v, Spawned2(), [], MainRequeued(), FirstRuns());
  }

  lemma Mark1()
    ensures MarkedForDeletion(FirstRuns(), 1) == FirstMarked()
  {
    FirstThreeUpdates(Unflagged(READY, 1), Unflagged(RUNNING, 1), Unflagged(READY, 0), Unflagged(READY, 1));
  }

  lemma Dispatch2()
    ensures Dispatch(FirstMarked()) == Some(FirstPending())
  {
    FirstThreeUpdates(Unflagged(READY, 1), Unflagged(READY, 1), Unflagged(READY, 0), Unflagged(RUNNING, 0));
    FirstThreeUpdates(Unflagged(READY, 1), Unflagged(READY, 1), Unflagged(RUNNING, 0), Unflagged(RUNNING, 1));
  }

  lemma End1(v: Version)
    ensures Step(v, FirstRuns(), Terminate(1)) == Done(FirstPending(), Ok(0))
  {
    Mark1();
    Dispatch2();
  }

  lemma Mark2()
    ensures MarkedForDeletion(FirstPending(), 2) == SecondMarked()
  {
    FirstThreeUpdates(Unflagged(READY, 1), Unflagged(READY, 1), Unflagged(RUNNING, 1), Unflagged(READY, 1));
    assert {1} + {2} == {1, 2};
  }

  lemma Start3()
    ensures Started(SecondMarked()) ==
            SecondMarked().(threads := FirstThree(Unflagged(RUNNING, 2), Unflagged(READY, 1), Unflagged(READY, 1)),
                            queue := [], current := 0, total := 4)
  {
    FirstThreeUpdates(Unflagged(READY, 1), Unflagged(READY, 1), Unflagged(READY, 1), Unflagged(RUNNING, 1));
    FirstThreeUpdates(Unflagged(RUNNING, 1), Unflagged(READY, 1), Unflagged(READY, 1), Unflagged(RUNNING, 2));
  }

  lemma Dispatch3()
    ensures Dispatch(SecondMarked()) == Some(FirstLeaked())
  {
    Start3();
    FirstThreeUpdates(Unflagged(RUNNING, 2), Unflagged(READY, 1), Unflagged(READY, 1), Unflagged(READY, 1));
    assert {1, 2} - {2} == {1};
  }

  lemma End2(v: Version)
    ensures Step(v, FirstPending(), Terminate(2)) == Done(FirstLeaked(), Ok(0))
  {
    Mark2();
    Dispatch3();
  }

  lemma Prefix(v: Version, rest: seq<Action>)
    ensures RunFrom(v, Init(), [Spawn(true)] + ([Spawn(true)] + ([Tick([])] + ([Terminate(1)] + rest)))) ==
            RunFrom(v, FirstPending(), rest)
  {
    Spawn1(v);
    Spawn2(v);
    Run1(v);
    End1(v);
    RunCons(v, Init(), Spawn(true), [Spawn(true)] + ([Tick([])] + ([Terminate(1)] + rest)));
    RunCons(v, Spawned1(), Spawn(true), [Tick([])] + ([Terminate(1)] + rest));
    RunCons(v, Spawned2(), Tick([]), [Terminate(1)] + rest);
    RunCons(v, FirstRuns(), Terminate(1), rest);
  }

  /** Two threads terminate themselves in their first quantum, one after the other, in either version: the first stays
      in the map as a zombie although nothing is pending any more. By Reclamation.LeakedForever it stays until another
      thread terminates it. */
  lemma LeakRun(v: Version)
    ensures RunFrom(v, Init(), [Spawn(true), Spawn(true), Tick([]), Terminate(1), Terminate(2)]) ==
            Done(FirstLeaked(), Ok(0))
    ensures 1 in FirstLeaked().zombies && FirstLeaked().pending == NO_PENDING
  {
    assert [Spawn(true), Spawn(true), Tick([]), Terminate(1), Terminate(2)] ==
           [Spawn(true)] + ([Spawn(true)] + ([Tick([])] + ([Terminate(1)] + ([Terminate(2)] + []))));
    Prefix(v, [Terminate(2)] + []);
    End2(v);
    RunCons(v, FirstPending(), Terminate(2), []);
  }

  // ---------------------------------------------------------------- the pending thread terminated again

  function FirstErased(): State {
    State(MainAnd(Unflagged(READY, 1), 2, Unflagged(RUNNING, 1)), [0], map[], 2, 1, 3, {}, 1)
  }

  function FirstReused(): State {
    State(FirstThree(Unflagged(READY, 1), Unflagged(READY, 0), Unflagged(RUNNING, 1)), [0, 1], map[], 2, 1, 3, {}, 1)
  }

  function ReusedRequeued(): State {
    State(FirstThree(Unflagged(READY, 1), Unflagged(READY, 0), Unflagged(READY, 1)), [0, 1, 2], map[], 2, 1, 3, {}, 1)
  }

  function ReusedDeleted(): State {
    State(MainAnd(Unflagged(RUNNING, 2), 2, Unflagged(READY, 1)), [1, 2], map[], 0, NO_PENDING, 4, {}, 1)
  }

  lemma Erase1(v: Version)
    ensures Step(v, FirstPending(), Terminate(1)) == Done(FirstErased(), Ok(0))
  {
    FirstThreeUpdates(Unflagged(READY, 1), Unflagged(READY, 1), Unflagged(RUNNING, 1), Unflagged(READY, 1));
    assert Without([0], 1) == [0];
    assert {1} - {1} == {};
  }

  lemma Reuse1(v: Version)
    ensures Step(v, FirstErased(), Spawn(true)) == Done(FirstReused(), Ok(1))
  {
    assert FreeTid(FirstErased().threads, 0) == 1;
    ThirdAdded(Unflagged(READY, 1), Unflagged(READY, 0), Unflagged(RUNNING, 1));
  }

  lemma Requeue4(v: Version)
    ensures Requeue(v, FirstReused()) == ReusedRequeued()
  {
    FirstThreeUpdates(Unflagged(READY, 1), Unflagged(READY, 0), Unflagged(RUNNING, 1), Unflagged(READY, 1));
  }

  lemma Start4()
    ensures Started(ReusedRequeued()) ==
            ReusedRequeued().(threads := FirstThree(Unflagged(RUNNING, 2), Unflagged(READY, 0), Unflagged(READY, 1)),
                              queue := [1, 2], current := 0, total := 4)
  {
    FirstThreeUpdates(Unflagged(READY, 1), Unflagged(READY, 0), Unflagged(READY, 1), Unflagged(RUNNING, 1));
    FirstThreeUpdates(Unflagged(RUNNING, 1), Unflagged(READY, 0), Unflagged(READY, 1), Unflagged(RUNNING, 2));
  }

  lemma Dispatch4()
    ensures Dispatch(ReusedRequeued()) == Some(ReusedDeleted())
  {
    Start4();
    FirstThreeUpdates(Unflagged(RUNNING, 2), Unflagged(READY, 0), Unflagged(READY, 1), Unflagged(READY, 1));
    assert {} - {1} == {};
  }

  lemma Delete1(v: Version)
    ensures Step(v, FirstReused(), Tick([])) == Done(ReusedDeleted(), Ok(0))
  {
    Requeue4(v);
    Dispatch4();
    TickStages(v, FirstReused(), [], ReusedRequeued(), ReusedDeleted());
  }

  lemma DeletedLookedUp(v: Version)
    ensures Step(v, ReusedDeleted(), Tick([])).Crash?
  {
    MainAndUpdates(Unflagged(RUNNING, 2), 2, Unflagged(READY, 1), Unflagged(READY, 2));
  }

  lemma PendingNamed(v: Version)
    ensures RunFrom(v, FirstPending(), [Terminate(1)] + ([Spawn(true)] + ([Tick([])] + ([Tick([])] + [])))).Crash?
  {
    Erase1(v);
    Reuse1(v);
    Delete1(v);
    DeletedLookedUp(v);
    RunCons(v, FirstPending(), Terminate(1), [Spawn(true)] + ([Tick([])] + ([Tick([])] + [])));
    RunCons(v, FirstErased(), Spawn(true), [Tick([])] + ([Tick([])] + []));
    RunCons(v, FirstReused(), Tick([]), [Tick([])] + []);
    RunCons(v, ReusedDeleted(), Tick([]), []);
  }

  /** Why plain runs must not terminate the pending thread, in either version: that frees its tid while its deletion is
      pending, the tid is reused, the reclamation deletes the new thread, and the next switch looks up a missing thread.
      Damage.UnsoundStepHarms has the general result. */
  lemma ZombieNamedRun(v: Version)
    ensures RunFrom(v, Init(), [Spawn(true), Spawn(true), Tick([]), Terminate(1),
                                Terminate(1), Spawn(true), Tick([]), Tick([])]).Crash?
  {
    var rest := [Terminate(1)] + ([Spawn(true)] + ([Tick([])] + ([Tick([])] + [])));
    PendingNamed(v);
    Prefix(v, rest);
    assert [Spawn(true), Spawn(true), Tick([]), Terminate(1), Terminate(1), Spawn(true), Tick([]), Tick([])] ==
           [Spawn(true)] + ([Spawn(true)] + ([Tick([])] + ([Terminate(1)] + rest)));
  }

  // ---------------------------------------------------------------- a sleeper

  function OneRequeued(): State {
    State(MainAnd(Unflagged(READY, 1), 1, Unflagged(READY, 0)), [1, 0], map[], 0, NO_PENDING, 1, {}, 0)
  }

  function OneRuns(): State {
    State(MainAnd(Unflagged(READY, 1), 1, Unflagged(RUNNING, 1)), [0], map[], 1, NO_PENDING, 2, {}, 0)
  }

  function SleeperRequeued(n: int): State {
    State(MainAnd(Unflagged(READY, 1), 1, Unflagged(READY, 1)), [0, 1], map[1 := 2 + n], 1, NO_PENDING, 2, {}, 0)
  }

  function OneSleeps(n: int): State {
    State(MainAnd(Unflagged(RUNNING, 2), 1, Unflagged(READY, 1)), [1], map[1 := 2 + n], 0, NO_PENDING, 3, {}, 0)
  }

  lemma RunOne()
    ensures Step(AsWritten, Spawned1(), Tick([])) == Done(OneRuns(), Ok(0))
  {
    MainAndUpdates(Unflagged(RUNNING, 1), 1, Unflagged(READY, 0), Unflagged(READY, 1));
    MainAndUpdates(Unflagged(READY, 1), 1, Unflagged(READY, 0), Unflagged(RUNNING, 0));
    MainAndUpdates(Unflagged(READY, 1), 1, Unflagged(RUNNING, 0), Unflagged(RUNNING, 1));
    TickStages(AsWritten, Spawned1(), [], OneRequeued(), OneRuns());
  }

  lemma SleeperBack(n: int)
    ensures Requeue(AsWritten, FallenAsleep(OneRuns(), n)) == SleeperRequeued(n)
  {
    MainAndUpdates(Unflagged(READY, 1), 1, Unflagged(RUNNING, 1), Unflagged(BLOCKED, 1));
    MainAndUpdates(Unflagged(READY, 1), 1, Unflagged(BLOCKED, 1), Unflagged(READY, 1));
    assert map[][1 := 2 + n] == map[1 := 2 + n];
  }

  lemma MainAfterSleep(n: int)
    ensures Dispatch(SleeperRequeued(n)) == Some(OneSleeps(n))
  {
    MainAndUpdates(Unflagged(READY, 1), 1, Unflagged(READY, 1), Unflagged(RUNNING, 1));
    MainAndUpdates(Unflagged(RUNNING, 1), 1, Unflagged(READY, 1), Unflagged(RUNNING, 2));
  }

  lemma SleepOne(n: int)
    requires 0 < n < 100
    ensures Step(AsWritten, OneRuns(), Sleep(n)) == Done(OneSleeps(n), Ok(0))
  {
    SleeperBack(n);
    MainAfterSleep(n);
  }

  lemma SleeperPrefix(n: int, rest: seq<Action>)
    requires 0 < n < 100
    ensures RunFrom(AsWritten, Init(), [Spawn(true)] + ([Tick([])] + ([Sleep(n)] + rest))) ==
            RunFrom(AsWritten, OneSleeps(n), rest)
  {
    Spawn1(AsWritten);
    RunOne();
    SleepOne(n);
    RunCons(AsWritten, Init(), Spawn(true), [Tick([])] + ([Sleep(n)] + rest));
    RunCons(AsWritten, Spawned1(), Tick([]), [Sleep(n)] + rest);
    RunCons(AsWritten, OneRuns(), Sleep(n), rest);
  }

  function MainBack(): State {
    State(MainAnd(Unflagged(READY, 2), 1, Unflagged(READY, 1)), [1, 0], map[1 := 4], 0, NO_PENDING, 3, {}, 0)
  }

  function SleeperRuns(): State {
    State(MainAnd(Unflagged(READY, 2), 1, Unflagged(RUNNING, 2)), [0], map[1 := 4], 1, NO_PENDING, 4, {}, 0)
  }

  function SleeperMarked(): State {
    State(MainAnd(Unflagged(READY, 2), 1, Unflagged(READY, 2)), [0], map[1 := 4], 1, 1, 4, {1}, 0)
  }

  function SleeperGone(): State {
    State(map[0 := Unflagged(RUNNING, 3)], [], map[1 := 4], 0, NO_PENDING, 5, {}, 2)
  }

  lemma RunSleeper()
    ensures Step(AsWritten, OneSleeps(2), Tick([1])) == Done(SleeperRuns(), Ok(0))
  {
    MainAndUpdates(Unflagged(RUNNING, 2), 1, Unflagged(READY, 1), Unflagged(READY, 2));
    MainAndUpdates(Unflagged(READY, 2), 1, Unflagged(READY, 1), Unflagged(RUNNING, 1));
    MainAndUpdates(Unflagged(READY, 2), 1, Unflagged(RUNNING, 1), Unflagged(RUNNING, 2));
    TickStages(AsWritten, OneSleeps(2), [1], MainBack(), SleeperRuns());
  }

  lemma MarkSleeper()
    ensures MarkedForDeletion(SleeperRuns(), 1) == SleeperMarked()
  {
    MainAndUpdates(Unflagged(READY, 2), 1, Unflagged(RUNNING, 2), Unflagged(READY, 2));
  }

  lemma MainAfterSleeper()
    ensures Dispatch(SleeperMarked()) == Some(SleeperGone())
  {
    MainAndUpdates(Unflagged(READY, 2), 1, Unflagged(READY, 2), Unflagged(RUNNING, 2));
    MainAndUpdates(Unflagged(RUNNING, 2), 1, Unflagged(READY, 2), Unflagged(RUNNING, 3));
    MainAndUpdates(Unflagged(RUNNING, 3), 1, Unflagged(READY, 2), Unflagged(READY, 2));
    assert {1} - {1} == {};
  }

  lemma EndSleeper()
    ensures Step(AsWritten, SleeperRuns(), Terminate(1)) == Done(SleeperGone(), Ok(0))
  {
    MarkSleeper();
    MainAfterSleeper();
  }

  lemma SleeperGoneCrash()
    ensures Step(AsWritten, SleeperGone(), Tick([1])).Crash?
  {
    assert [1][..0] == [];
    assert WakeAll(SleeperGone(), [1]) == WakeOne(SleeperGone(), 1) == None;
  }

  lemma SleeperCrash()
    ensures RunFrom(AsWritten, OneSleeps(2), [Tick([1])] + ([Terminate(1)] + ([Tick([1])] + []))).Crash?
  {
    RunSleeper();
    EndSleeper();
    SleeperGoneCrash();
    RunCons(AsWritten, OneSleeps(2), Tick([1]), [Terminate(1)] + ([Tick([1])] + []));
    RunCons(AsWritten, SleeperRuns(), Terminate(1), [Tick([1])] + []);
    RunCons(AsWritten, SleeperGone(), Tick([1]), []);
  }

  /** AsWritten with a sleeper: it is dispatched before its deadline, terminates itself while its entry stays behind,
      and the tick that finds the entry due looks up a missing thread. Damage.UnsoundStepHarms has more. */
  lemma SleeperCrashRun()
    ensures RunFrom(AsWritten, Init(), [Spawn(true), Tick([]), Sleep(2), Tick([1]), Terminate(1), Tick([1])]).Crash?
  {
    var rest := [Tick([1])] + ([Terminate(1)] + ([Tick([1])] + []));
    SleeperCrash();
    SleeperPrefix(2, rest);
    assert [Spawn(true), Tick([]), Sleep(2), Tick([1]), Terminate(1), Tick([1])] ==
           [Spawn(true)] + ([Tick([])] + ([Sleep(2)] + rest));
  }

  // ---------------------------------------------------------------- a sleeper queued twice

  function SleeperWoken(): State {
    State(MainAnd(Unflagged(RUNNING, 2), 1, Unflagged(READY, 1)), [1, 1], map[], 0, NO_PENDING, 3, {}, 0)
  }

  function WokenAndMain(): State {
    State(MainAnd(Unflagged(READY, 2), 1, Unflagged(READY, 1)), [1, 1, 0], map[], 0, NO_PENDING, 3, {}, 0)
  }

  function QueuedTwice(): State {
    State(MainAnd(Unflagged(READY, 2), 1, Unflagged(RUNNING, 2)), [1, 0], map[], 1, NO_PENDING, 4, {}, 0)
  }

  lemma WakeQueued()
    ensures WakeAll(OneSleeps(1), [1]) == Some(SleeperWoken())
  {
    var s := OneSleeps(1);
    MainAndUpdates(Unflagged(RUNNING, 2), 1, Unflagged(READY, 1), Unflagged(READY, 1));
    assert [1][..0] == [];
    assert WakeAll(s, [1]) == WakeOne(s, 1);
    assert WithState(s, 1, READY) == s;
    assert s.sleeping - {1} == map[] && s.queue + [1] == [1, 1];
  }

  lemma SwitchTwice()
    ensures Requeue(AsWritten, SleeperWoken()) == WokenAndMain() && Dispatch(WokenAndMain()) == Some(QueuedTwice())
  {
    MainAndUpdates(Unflagged(RUNNING, 2), 1, Unflagged(READY, 1), Unflagged(READY, 2));
    MainAndUpdates(Unflagged(READY, 2), 1, Unflagged(READY, 1), Unflagged(RUNNING, 1));
    MainAndUpdates(Unflagged(READY, 2), 1, Unflagged(RUNNING, 1), Unflagged(RUNNING, 2));
  }

  lemma WokenTick()
    ensures Step(AsWritten, OneSleeps(1), Tick([1])) == Done(QueuedTwice(), Ok(0))
  {
    WakeQueued();
    SwitchTwice();
  }

  lemma SleepsAgain()
    ensures var o := Step(AsWritten, QueuedTwice(), Sleep(1)); o.Done? && o.next.current == 1 && o.next.total == 5
  {
    var b := FallenAsleep(QueuedTwice(), 1);
    assert 1 in Requeue(AsWritten, b).threads && Requeue(AsWritten, b).queue[0] == 1;
    SwitchQueue(AsWritten, b);
  }

  /** AsWritten: a thread that sleeps for one quantum is requeued at once and pushed again when it is woken, so that
      it runs while it is also at the head of the queue. If it calls sleep(1) then, it gets the very next quantum: the
      first condition of ShortSleep.WrittenSleepExactly can fail. */
  lemma QueuedTwiceRun()
    ensures RunFrom(AsWritten, Init(), [Spawn(true), Tick([]), Sleep(1), Tick([1])]) == Done(QueuedTwice(), Ok(0))
    ensures QueuedTwice().queue[0] == QueuedTwice().current == 1
    ensures var o := Step(AsWritten, QueuedTwice(), Sleep(1)); o.Done? && o.next.current == 1 && o.next.total == 5
  {
    WokenTick();
    SleepsAgain();
    SleeperPrefix(1, [Tick([1])] + []);
    RunCons(AsWritten, OneSleeps(1), Tick([1]), []);
    assert [Spawn(true), Tick([]), Sleep(1), Tick([1])] ==
           [Spawn(true)] + ([Tick([])] + ([Sleep(1)] + ([Tick([1])] + [])));
  }

  // ---------------------------------------------------------------- a left-over flag

  function OneBlocked(): State {
    State(MainAnd(Unflagged(RUNNING, 1), 1, Record(BLOCKED, 0, true)), [], map[], 0, NO_PENDING, 1, {}, 0)
  }

  function OneResumed(): State {
    State(MainAnd(Unflagged(RUNNING, 1), 1, Record(READY, 0, true)), [1], map[], 0, NO_PENDING, 1, {}, 0)
  }

  lemma BlockOne()
    ensures Step(AsWritten, Spawned1(), Block(1)) == Done(OneBlocked(), Ok(0))
  {
    assert Without([1], 1) == [];
    MainAndUpdates(Unflagged(RUNNING, 1), 1, Unflagged(READY, 0), Unflagged(BLOCKED, 0));
    MainAndUpdates(Unflagged(RUNNING, 1), 1, Unflagged(BLOCKED, 0), Record(BLOCKED, 0, true));
  }

  lemma ResumeOne()
    ensures Step(AsWritten, OneBlocked(), Resume(1)) == Done(OneResumed(), Ok(0))
  {
    MainAndUpdates(Unflagged(RUNNING, 1), 1, Record(BLOCKED, 0, true), Record(READY, 0, true));
  }

  /** AsWritten: a thread that has been blocked and resumed keeps its flag, and blocking it again does nothing. */
  lemma LeftOverFlagRun()
    ensures RunFrom(AsWritten, Init(), [Spawn(true), Block(1), Resume(1), Block(1)]) == Done(OneResumed(), Ok(0))
    ensures OneResumed().threads[1] == Record(READY, 0, true) && 1 in OneResumed().queue
  {
    Spawn1(AsWritten);
    BlockOne();
    ResumeOne();
    assert Step(AsWritten, OneResumed(), Block(1)) == Done(OneResumed(), Ok(0));
    RunCons(AsWritten, Init(), Spawn(true), [Block(1)] + ([Resume(1)] + ([Block(1)] + [])));
    RunCons(AsWritten, Spawned1(), Block(1), [Resume(1)] + ([Block(1)] + []));
    RunCons(AsWritten, OneBlocked(), Resume(1), [Block(1)] + []);
    RunCons(AsWritten, OneResumed(), Block(1), []);
    assert [Spawn(true), Block(1), Resume(1), Block(1)] ==
           [Spawn(true)] + ([Block(1)] + ([Resume(1)] + ([Block(1)] + [])));
  }
}
