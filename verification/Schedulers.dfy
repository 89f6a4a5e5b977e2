/** The scheduler as the code has it: static fields updated in place. Every method is proved against the value-level
    step of Model, version AsWritten. */
module Schedulers {
  import opened Maps
  import opened Queues
  import opened Model
  import opened Threads
  import Invariant

  datatype Process = Alive | Exited | Crashed

  lemma {:induction false} WakeStopsEarly(s: State, order: seq<int>, i: nat)
    requires i <= |order| && WakeAll(s, order[..i]).None?
    ensures WakeAll(s, order).None?
  {
    if i == |order| {
      assert order[..i] == order;
    } else {
      var init := order[..|order| - 1];
      assert init[..i] == order[..i];
      WakeStopsEarly(s, init, i);
    }
  }

  class Scheduler {
    var totalQuantums: int
    var threads: map<int, Thread>
    var readyQueue: seq<int>
    var sleepingThreads: map<int, int>
    var currentTid: int
    var pendingDeletionTid: int
    var process: Process
    ghost var zombies: set<int>
    ghost var retired: int

    /** No two tids share a thread object. */
    ghost predicate Valid()
      reads this`threads
    {
      forall t, u :: t in threads && u in threads && t != u ==> threads[t] != threads[u]
    }

    ghost function Records(): map<int, Record>
      reads this`threads, threads.Values
    {
      map t | t in threads :: threads[t].AsRecord()
    }

    ghost function Abs(): State
      reads this, threads.Values
    {
      State(Records(), readyQueue, sleepingThreads, currentTid, pendingDeletionTid, totalQuantums, zombies, retired)
    }

    /** The process, the fields and the reply are as `o` says. */
    ghost predicate Matches(o: Outcome, r: Reply)
      reads this, threads.Values
    {
      match o
      case Done(next, reply) => process == Alive && Abs() == next && r == reply
      case Exit => process == Exited && threads == map[]
      case Crash => process == Crashed
    }

    ghost predicate MatchesState(o: Option<State>)
      reads this, threads.Values
    {
      match o
      case Some(next) => process == Alive && Abs() == next
      case None => process == Crashed
    }

    /** The library right after initialisation: main is running its first quantum. */
    constructor ()
      ensures Valid() && process == Alive && fresh(threads.Values) && Abs() == Init()
    {
      var mainThread := new Thread(0);
      mainThread.SetState(RUNNING);
      mainThread.IncrementQuantumCount();
      threads := map[0 := mainThread];
      readyQueue, sleepingThreads, currentTid, pendingDeletionTid := [], map[], 0, NO_PENDING;
      totalQuantums := 1;
      process := Alive;
      zombies, retired := {}, 0;
      new;
      SameMap(Records(), Init().threads);
    }

    // -------------------------------------------------------------- updates of one thread object

    method SetThreadState(tid: int, newState: ThreadState)
      requires Valid() && tid in threads
      modifies threads[tid]
      ensures Abs() == WithState(old(Abs()), tid, newState)
    {
      ghost var before := Records();
      threads[tid].SetState(newState);
      forall u | u in threads && u != tid
        ensures Records()[u] == before[u]
      {
        assert threads[u] != threads[tid];
      }
      Updated(Records(), before, tid);
    }

    method SetThreadBlockFlag(tid: int, flag: bool)
      requires Valid() && tid in threads
      modifies threads[tid]
      ensures Abs() == WithFlag(old(Abs()), tid, flag)
    {
      ghost var before := Records();
      threads[tid].SetBlockFlag(flag);
      forall u | u in threads && u != tid
        ensures Records()[u] == before[u]
      {
        assert threads[u] != threads[tid];
      }
      Updated(Records(), before, tid);
    }

    method IncrementThreadQuantums(tid: int)
      requires Valid() && tid in threads
      modifies threads[tid]
      ensures Abs() == Counted(old(Abs()), tid)
    {
      ghost var before := Records();
      threads[tid].IncrementQuantumCount();
      forall u | u in threads && u != tid
        ensures Records()[u] == before[u]
      {
        assert threads[u] != threads[tid];
      }
      Updated(Records(), before, tid);
    }

    /** Deletes the thread object of `tid`, if there is one, and erases its entry. */
    method DeleteThread(tid: int)
      requires Valid()
      modifies this`threads, this`zombies, this`retired
      ensures Valid() && threads.Values <= old(threads.Values)
      ensures Abs() == Delete(old(Abs()), tid)
    {
      if tid in threads {
        retired := retired + threads[tid].quantumCount;
        zombies := zombies - {tid};
        threads := threads - {tid};
        SameMap(Records(), old(Records()) - {tid});
      }
    }

    // -------------------------------------------------------------- private operations

    method RemoveFromReadyQueue(tid: int)
      modifies this`readyQueue
      ensures readyQueue == Without(old(readyQueue), tid)
    {
      var tempQueue := [];
      while readyQueue != []
        invariant tempQueue + Without(readyQueue, tid) == Without(old(readyQueue), tid)
        decreases |readyQueue|
      {
        var current := readyQueue[0];
        readyQueue := readyQueue[1..];
        if current != tid {
          tempQueue := tempQueue + [current];
        }
      }
      readyQueue := tempQueue;
    }

    method NextAvailableTid() returns (tid: int)
      ensures tid == FreeTid(Records(), 0)
    {
      tid := 0;
      while tid < MAX_THREAD_NUM
        invariant 0 <= tid <= MAX_THREAD_NUM && FreeTid(Records(), 0) == FreeTid(Records(), tid)
      {
        if tid !in threads {
          return;
        }
        tid := tid + 1;
      }
      tid := -1;
    }

    /** One visit of the wake loop: an expired entry is erased, and its thread is queued unless it is user-blocked. */
    method WakeThread(tid: int)
      requires Valid() && process == Alive && tid in sleepingThreads
      modifies this`readyQueue, this`sleepingThreads, this`process, threads.Values
      ensures MatchesState(WakeOne(old(Abs()), tid))
      ensures forall u :: u != tid ==> (u in sleepingThreads <==> u in old(sleepingThreads))
    {
      if totalQuantums >= sleepingThreads[tid] {
        if tid !in threads {
          process := Crashed;
          return;
        }
        if !threads[tid].didUserBlock {
          SetThreadState(tid, READY);
          readyQueue := readyQueue + [tid];
        }
        sleepingThreads := sleepingThreads - {tid};
      }
    }

    /** Visits the sleepers in `order`, which stands for the unspecified iteration order of the unordered map. */
    method WakeSleepingThreads(order: seq<int>)
      requires Valid() && process == Alive && Invariant.IsOrder(Abs(), order)
      modifies this`readyQueue, this`sleepingThreads, this`process, threads.Values
      ensures MatchesState(WakeAll(old(Abs()), order))
    {
      forall j | 0 <= j < |order| ensures order[j] in sleepingThreads {
        ghost var t := order[j];
        assert t in order;
      }
      var i := 0;
      while i < |order|
        invariant 0 <= i <= |order|
        invariant Valid() && process == Alive
        invariant WakeAll(old(Abs()), order[..i]) == Some(Abs())
        invariant forall j :: i <= j < |order| ==> order[j] in sleepingThreads
      {
        assert order[..i + 1][..i] == order[..i];
        WakeThread(order[i]);
        i := i + 1;
        if process == Crashed {
          WakeStopsEarly(old(Abs()), order, i);
          return;
        }
      }
      assert order[..i] == order;
    }

    // -------------------------------------------------------------- the switch

    /** First half of a switch: the outgoing thread goes to the back of the queue. */
    method RequeueCurrent()
      requires Valid() && currentTid in threads
      modifies this`readyQueue, threads.Values
      ensures Abs() == Requeue(AsWritten, old(Abs()))
    {
      assert Records().Keys == threads.Keys;
      assert |threads| == |threads.Keys| && |Records()| == |Records().Keys|;
      if currentTid != pendingDeletionTid && |threads| > 1 {
        SetThreadState(currentTid, READY);
        readyQueue := readyQueue + [currentTid];
      }
    }

    method ReclaimPending()
      requires Valid()
      modifies this`threads, this`zombies, this`retired, this`pendingDeletionTid
      ensures Valid() && threads.Values <= old(threads.Values)
      ensures Abs() == Reclaim(old(Abs()))
    {
      if pendingDeletionTid != NO_PENDING {
        DeleteThread(pendingDeletionTid);
        pendingDeletionTid := NO_PENDING;
      }
    }

    /** The thread just made current is charged for the quantum it starts. */
    method Charge()
      requires Valid() && currentTid in threads
      modifies this`totalQuantums, threads.Values
      ensures Abs() == Counted(old(Abs()), currentTid).(total := old(totalQuantums) + 1)
    {
      IncrementThreadQuantums(currentTid);
      totalQuantums := totalQuantums + 1;
    }

    /** The next thread, if the queue holds one, becomes current and RUNNING. */
    method TakeNext()
      requires Valid() && process == Alive && currentTid in threads
      modifies this`readyQueue, this`currentTid, this`process, threads.Values
      ensures if old(readyQueue) != [] && old(readyQueue)[0] !in threads then process == Crashed
              else process == Alive && Abs() == HeadTaken(old(Abs()))
    {
      if readyQueue != [] {
        var nextTid := readyQueue[0];
        readyQueue := readyQueue[1..];
        currentTid := nextTid;
        if nextTid !in threads {
          process := Crashed;
          return;
        }
        SetThreadState(nextTid, RUNNING);
      }
    }

    /** Second half: the next thread starts its quantum, and if it has run before it continues behind its own saved
        environment and reclaims the thread pending deletion. */
    method StartNext()
      requires Valid() && process == Alive && currentTid in threads
      modifies this, threads.Values
      ensures Valid() && threads.Values <= old(threads.Values)
      ensures MatchesState(Dispatch(old(Abs())))
    {
      TakeNext();
      if process == Crashed {
        return;
      }
      var startsFresh := threads[currentTid].quantumCount == 0;
      Charge();
      if !startsFresh {
        ReclaimPending();
      }
    }

    /** One atomic switch. */
    method DoContextSwitch()
      requires Valid() && process == Alive
      modifies this, threads.Values
      ensures Valid() && threads.Values <= old(threads.Values)
      ensures MatchesState(Switch(AsWritten, old(Abs())))
    {
      if currentTid !in threads {
        process := Crashed;
        return;
      }
      RequeueCurrent();
      StartNext();
    }

    method TimerHandler(order: seq<int>)
      requires Valid() && process == Alive && Invariant.IsOrder(Abs(), order)
      modifies this, threads.Values
      ensures Valid() && threads.Values <= old(threads.Values)
      ensures Matches(Step(AsWritten, old(Abs()), Tick(order)), Ok(0))
    {
      ghost var before := Abs();
      assert Step(AsWritten, before, Tick(order)) == TimerTick(AsWritten, before, order);
      WakeSleepingThreads(order);
      if process == Alive {
        DoContextSwitch();
      }
    }

    // -------------------------------------------------------------- the API

    method Spawn() returns (r: Reply)
      requires Valid() && process == Alive
      modifies this`threads, this`readyQueue
      ensures Valid() && fresh(threads.Values - old(threads.Values))
      ensures Matches(SpawnThread(old(Abs())), r)
    {
      var tid := NextAvailableTid();
      if tid == -1 {
        return Error(ThreadLimit);
      }
      var newThread := new Thread(tid);
      threads := threads[tid := newThread];
      readyQueue := readyQueue + [tid];
      SameMap(Records(), old(Records())[tid := Record(READY, 0, false)]);
      return Ok(tid);
    }

    method TerminateOther(tid: int)
      requires Valid() && process == Alive && tid in threads
      modifies this`threads, this`sleepingThreads, this`zombies, this`retired
      ensures Valid() && threads.Values <= old(threads.Values)
      ensures Abs() == Delete(old(Abs()).(sleeping := old(sleepingThreads) - {tid}), tid)
    {
      sleepingThreads := sleepingThreads - {tid};
      DeleteThread(tid);
    }

    /** The running thread marks itself for deletion and gives up the processor. */
    method TerminateSelf()
      requires Valid() && process == Alive && currentTid in threads
      modifies this, threads.Values
      ensures Valid() && threads.Values <= old(threads.Values)
      ensures MatchesState(Switch(AsWritten, MarkedForDeletion(old(Abs()), old(currentTid))))
    {
      pendingDeletionTid := currentTid;
      zombies := zombies + {currentTid};
      SetThreadState(pendingDeletionTid, READY);
      DoContextSwitch();
    }

    method Terminate(tid: int) returns (r: Reply)
      requires Valid() && process == Alive && tid in threads
      modifies this, threads.Values
      ensures Valid() && threads.Values <= old(threads.Values)
      ensures Matches(TerminateThread(AsWritten, old(Abs()), tid), r)
    {
      r := Ok(0);
      if tid == 0 {
        threads := map[];
        process := Exited;
        return;
      }
      if threads[tid].state == READY {
        RemoveFromReadyQueue(tid);
      }
      assert Abs() == LeaveQueue(old(Abs()), tid);
      if tid != currentTid {
        TerminateOther(tid);
      } else if readyQueue == [] {
        r := Error(NoThreadsLeft);
      } else {
        TerminateSelf();
      }
    }

    /** The running thread blocks itself. */
    method BlockSelf() returns (r: Reply)
      requires Valid() && process == Alive && currentTid in threads
      requires threads[currentTid].state == RUNNING && !threads[currentTid].didUserBlock
      modifies this, threads.Values
      ensures Valid() && threads.Values <= old(threads.Values)
      ensures Matches(BlockThread(AsWritten, old(Abs()), old(currentTid)), r)
    {
      SetThreadState(currentTid, BLOCKED);
      if readyQueue == [] {
        SetThreadState(currentTid, RUNNING);
        SameMap(Records(), old(Records()));
        return Error(NoThreadsLeft);
      }
      SetThreadBlockFlag(currentTid, true);
      DoContextSwitch();
      r := Ok(0);
    }

    method Block(tid: int) returns (r: Reply)
      requires Valid() && process == Alive && tid in threads
      modifies this, threads.Values
      ensures Valid() && threads.Values <= old(threads.Values)
      ensures Matches(BlockThread(AsWritten, old(Abs()), tid), r)
    {
      var thread := threads[tid];
      var state := thread.state;
      if thread.didUserBlock {
        return Ok(0);
      }
      if state == READY || state == BLOCKED {
        if state == READY {
          RemoveFromReadyQueue(tid);
        }
        assert Abs() == LeaveQueue(old(Abs()), tid);
        SetThreadState(tid, BLOCKED);
        SetThreadBlockFlag(tid, true);
        assert Abs() == UserBlocked(LeaveQueue(old(Abs()), tid), tid);
        return Ok(0);
      }
      if tid == currentTid {
        r := BlockSelf();
        return;
      }
      r := Ok(0);
    }

    method Resume(tid: int) returns (r: Reply)
      requires Valid() && process == Alive
      modifies this, threads.Values
      ensures Valid() && threads.Values <= old(threads.Values)
      ensures if tid < 0 || tid !in old(threads) then Matches(Done(old(Abs()), Error(InvalidTid)), r)
              else Matches(ResumeThread(AsWritten, old(Abs()), tid), r)
    {
      if tid < 0 || tid !in threads {
        return Error(InvalidTid);
      }
      if threads[tid].state != BLOCKED {
        return Ok(0);
      }
      if tid in sleepingThreads {
        SetThreadBlockFlag(tid, false);
        return Ok(0);
      }
      SetThreadState(tid, READY);
      readyQueue := readyQueue + [tid];
      r := Ok(0);
    }

    method Sleep(numQuantums: int) returns (r: Reply)
      requires Valid() && process == Alive
      modifies this, threads.Values
      ensures Valid() && threads.Values <= old(threads.Values)
      ensures Matches(SleepThread(AsWritten, old(Abs()), numQuantums), r)
    {
      if currentTid !in threads || totalQuantums + numQuantums > INT_MAX {
        process := Crashed;
        return Ok(0);
      }
      SetThreadState(currentTid, BLOCKED);
      sleepingThreads := sleepingThreads[currentTid := totalQuantums + numQuantums];
      if readyQueue == [] {
        SetThreadState(currentTid, RUNNING);
        sleepingThreads := sleepingThreads - {currentTid};
        SameMap(Records(), WithState(old(Abs()), currentTid, RUNNING).threads);
        SameMap(sleepingThreads, old(sleepingThreads) - {currentTid});
        return Error(NoThreadsLeft);
      }
      assert Abs() == FallenAsleep(old(Abs()), numQuantums);
      DoContextSwitch();
      r := Ok(0);
    }
  }
}
