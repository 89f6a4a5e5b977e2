/** Where the code and its meaning part: the exact condition under which AsWritten and AsMeant run alike. */
module Lockstep {
  import opened Queues
  import opened Model
  import opened Invariant
  import opened Waiting
  import ShortSleep
  import Sleepers
  import Sleeping

  /** Equal in everything but the user-block flags. */
  ghost predicate Agree(w: State, m: State) {
    && w.threads.Keys == m.threads.Keys
    && (forall t :: t in w.threads ==>
          w.threads[t].state == m.threads[t].state && w.threads[t].quantums == m.threads[t].quantums)
    && w.(threads := m.threads) == m
  }

  ghost predicate OutcomesAgree(o: Outcome, p: Outcome) {
    match (o, p)
    case (Done(w, r), Done(m, r')) => Agree(w, m) && r == r'
    case (Exit, Exit) => true
    case _ => false
  }

  /** A call whose meaning the code does not deliver: blocking oneself, blocking a thread whose flag is left over from
      an earlier block, and sleeping. */
  predicate Misfires(w: State, a: Action) {
    match a
    case Block(t) =>
      BlockGuard(w, t).None? && (t == w.current || (w.threads[t].userBlocked && w.threads[t].state != BLOCKED))
    case Sleep(n) => n > 0 && w.current != 0
    case _ => false
  }

  ghost predicate Paired(w: State, m: State) {
    Inv(AsWritten, w) && Inv(AsMeant, m) && Agree(w, m)
  }

  // ---------------------------------------------------------------- agreement

  lemma StartedAgrees(w: State, m: State)
    requires Agree(w, m) && Next(w) in w.threads
    ensures Agree(Started(w), Started(m))
  {
  }

  lemma ReclaimAgrees(w: State, m: State)
    requires Agree(w, m)
    ensures Agree(Reclaim(w), Reclaim(m))
  {
  }

  lemma DispatchAgrees(w: State, m: State)
    requires Agree(w, m)
    ensures OutcomesAgree(Switched(Dispatch(w)), Switched(Dispatch(m))) || (Dispatch(w).None? && Dispatch(m).None?)
  {
    if Next(w) in w.threads {
      StartedAgrees(w, m);
      ReclaimAgrees(Started(w), Started(m));
    }
  }

  lemma RequeueAgrees(w: State, m: State)
    requires Agree(w, m) && w.current in w.threads
    requires w.current == w.pending || w.threads[w.current].state == RUNNING
    ensures Agree(Requeue(AsWritten, w), Requeue(AsMeant, m))
  {
    assert |w.threads| == |w.threads.Keys| && |m.threads| == |m.threads.Keys|;
  }

  lemma TickAgrees(w: State, m: State, order: seq<int>)
    requires Paired(w, m) && IsOrder(m, order)
    ensures OutcomesAgree(TimerTick(AsWritten, w, order), TimerTick(AsMeant, m, order))
  {
    NoneExpired(w, order);
    NoneExpired(m, order);
    SwitchInv(AsWritten, w);
    RequeueAgrees(w, m);
    DispatchAgrees(Requeue(AsWritten, w), Requeue(AsMeant, m));
  }

  lemma TerminateSelfAgrees(w: State, m: State)
    requires Paired(w, m) && w.current != 0
    ensures OutcomesAgree(TerminateThread(AsWritten, w, w.current), TerminateThread(AsMeant, m, w.current))
  {
    var w', m' := MarkedForDeletion(w, w.current), MarkedForDeletion(m, m.current);
    TerminateSelfInv(AsWritten, w);
    TerminateSelfInv(AsMeant, m);
    assert Agree(w', m');
    DispatchAgrees(w', m');
  }

  lemma TerminateOtherAgrees(w: State, m: State, t: int)
    requires Agree(w, m) && t in w.threads && t != w.current
    ensures OutcomesAgree(TerminateThread(AsWritten, w, t), TerminateThread(AsMeant, m, t))
  {
  }

  lemma BlockAgrees(w: State, m: State, t: int)
    requires Paired(w, m) && t in w.threads && t != 0 && !Misfires(w, Block(t))
    ensures OutcomesAgree(BlockThread(AsWritten, w, t), BlockThread(AsMeant, m, t))
  {
    assert BlockGuard(w, t).None?;
  }

  lemma ResumeAgrees(w: State, m: State, t: int)
    requires Paired(w, m) && t in w.threads && !HarmsZombie(m, Resume(t))
    ensures OutcomesAgree(ResumeThread(AsWritten, w, t), ResumeThread(AsMeant, m, t))
  {
  }

  lemma StepAgrees(w: State, m: State, a: Action)
    requires Paired(w, m) && Plain(AsMeant, m, a) && !Misfires(w, a)
    ensures OutcomesAgree(Step(AsWritten, w, a), Step(AsMeant, m, a))
  {
    match a
    case Spawn(_) => SameFreeTid(w.threads, m.threads, 0);
    case Terminate(t) =>
      if TidGuard(w, t).None? {
        if t != w.current {
          TerminateOtherAgrees(w, m, t);
        } else if t != 0 {
          TerminateSelfAgrees(w, m);
        }
      }
    case Block(t) => if BlockGuard(w, t).None? { BlockAgrees(w, m, t); }
    case Resume(t) => if TidGuard(w, t).None? { ResumeAgrees(w, m, t); }
    case Sleep(_) =>
    case Tick(order) => TickAgrees(w, m, order);
  }

  lemma {:induction false} SameFreeTid(w: map<int, Record>, m: map<int, Record>, from: nat)
    requires w.Keys == m.Keys && from <= MAX_THREAD_NUM
    ensures FreeTid(w, from) == FreeTid(m, from)
    decreases MAX_THREAD_NUM - from
  {
    if from < MAX_THREAD_NUM && from in w.Keys {
      SameFreeTid(w, m, from + 1);
    }
  }

  // ---------------------------------------------------------------- disagreement

  /** AsWritten: a thread that blocks itself is put back into the queue at once. */
  lemma SelfBlockRequeues(w: State)
    requires Inv(AsWritten, w) && w.current != 0
    ensures var o := Switch(AsWritten, UserBlocked(w, w.current));
            o.Some? && Inv(AsWritten, o.value) && w.current in o.value.queue && o.value.total == w.total + 1
  {
    MainQueued(w);
    BlockSelfInv(AsWritten, w);
    var b := UserBlocked(w, w.current);
    assert b.threads.Keys == w.threads.Keys && |b.threads| == |b.threads.Keys|;
    SwitchQueue(AsWritten, b);
    assert (w.queue + [w.current])[1..][|w.queue| - 1] == w.current;
  }

  lemma SleeperRequeued(w: State, n: int)
    requires Inv(AsWritten, w) && w.current != 0
    ensures var b := FallenAsleep(w, n);
            && Requeues(AsWritten, b) && Vacated(Requeue(AsWritten, b))
            && Requeue(AsWritten, b).queue == w.queue + [w.current]
            && Requeue(AsWritten, b).sleeping == w.sleeping[w.current := w.total + n]
  {
    MainQueued(w);
    var b := FallenAsleep(w, n);
    assert b.threads.Keys == w.threads.Keys && |b.threads| == |b.threads.Keys|;
    var r := Requeue(AsWritten, b);
    assert w.current !in w.queue;
    NoDupAppend(w.queue, [w.current]);
    assert forall u :: Live(r, u) <==> Live(w, u);
    assert forall u :: u in r.queue <==> u in w.queue || u == w.current;
  }

  lemma SleepCore(w: State, n: int)
    requires Inv(AsWritten, w) && w.current != 0 && 0 < n <= INT_MAX - w.total
    ensures var o := Step(AsWritten, w, Sleep(n));
            o.Done? && Core(o.next) && o.next.sleeping == w.sleeping[w.current := w.total + n]
  {
    MainQueued(w);
    SleeperRequeued(w, n);
    DispatchCore(Requeue(AsWritten, FallenAsleep(w, n)));
    SwitchTime(AsWritten, FallenAsleep(w, n));
  }

  /** AsWritten: so is a thread that goes to sleep. */
  lemma SleepRequeues(w: State, n: int) returns (m: State)
    requires Inv(AsWritten, w) && w.current != 0 && 0 < n <= INT_MAX - w.total
    ensures Step(AsWritten, w, Sleep(n)) == Done(m, Ok(0)) && Core(m) && Sleepers.Weak(m)
    ensures w.queue != [] && m.current == w.queue[0] && m.queue == w.queue[1..] + [w.current]
    ensures m.total == w.total + 1 && m.sleeping == w.sleeping[w.current := w.total + n]
  {
    Sleepers.InvIsWeak(AsWritten, w);
    m := ShortSleep.SleeperQueued(w, n);
    SleepCore(w, n);
  }

  lemma MeantBlocks(m: State, a: Action, t: int)
    requires Inv(AsMeant, m) && Live(m, t) && t != 0 && Plain(AsMeant, m, a)
    requires a == Block(t) || (a.Sleep? && a.numQuantums > 0 && t == m.current)
    ensures var o := Step(AsMeant, m, a);
            && o.Done? && Live(o.next, t) && o.next.threads[t].state == BLOCKED
            && t !in o.next.queue && t != o.next.current
  {
    StepInv(AsMeant, m, a);
    Sleeping.StepHold(m, a, t);
  }

  /** A flag left over from an earlier block makes AsWritten ignore a block that AsMeant carries out. */
  lemma LeftOverFlag(w: State, m: State, t: int)
    requires Paired(w, m) && t in w.threads && t != 0 && t != w.current
    requires w.threads[t].userBlocked && w.threads[t].state != BLOCKED
    ensures BlockThread(AsWritten, w, t) == Done(w, Ok(0))
    ensures BlockThread(AsMeant, m, t) == Done(UserBlocked(LeaveQueue(m, t), t), Ok(0))
    ensures !Agree(w, UserBlocked(LeaveQueue(m, t), t))
  {
    assert m.threads[t].state == READY;
    assert UserBlocked(LeaveQueue(m, t), t).threads[t].state == BLOCKED;
  }

  lemma MisfireDisagrees(w: State, m: State, a: Action)
    requires Paired(w, m) && Plain(AsMeant, m, a) && Misfires(w, a)
    ensures !OutcomesAgree(Step(AsWritten, w, a), Step(AsMeant, m, a))
  {
    match a
    case Block(t) =>
      if t != w.current {
        LeftOverFlag(w, m, t);
      } else {
        MeantBlocks(m, a, t);
        SelfBlockRequeues(w);
        assert Live(m, t) && !m.threads[t].userBlocked;
        assert t !in w.queue;
      }
    case Sleep(n) =>
      MeantBlocks(m, a, m.current);
      var n' := SleepRequeues(w, n);
      assert n'.queue[|n'.queue| - 1] == w.current;
  }

  // ---------------------------------------------------------------- whole runs

  /** The two versions agree in every state and every reply along the run. */
  ghost predicate InLockstep(w: State, m: State, acts: seq<Action>)
    decreases |acts|
  {
    && Agree(w, m)
    && (acts != [] ==>
          && OutcomesAgree(Step(AsWritten, w, acts[0]), Step(AsMeant, m, acts[0]))
          && (Step(AsWritten, w, acts[0]).Done? ==>
                InLockstep(Step(AsWritten, w, acts[0]).next, Step(AsMeant, m, acts[0]).next, acts[1..])))
  }

  /** No call of the run misfires. */
  ghost predicate Faithful(w: State, acts: seq<Action>)
    decreases |acts|
  {
    acts != [] ==>
      && !Misfires(w, acts[0])
      && (Step(AsWritten, w, acts[0]).Done? ==> Faithful(Step(AsWritten, w, acts[0]).next, acts[1..]))
  }

  lemma PairedStep(w: State, m: State, a: Action)
    requires Paired(w, m) && Plain(AsMeant, m, a) && !Misfires(w, a) && Step(AsWritten, w, a).Done?
    ensures Step(AsMeant, m, a).Done? && Paired(Step(AsWritten, w, a).next, Step(AsMeant, m, a).next)
  {
    StepAgrees(w, m, a);
    assert Plain(AsWritten, w, a);
    StepInv(AsWritten, w, a);
    StepInv(AsMeant, m, a);
  }

  /** The two versions move in lockstep, equal in everything but the user-block flags, through exactly those runs in
      which no thread blocks itself, none is blocked with a flag left over from before a resume, and none sleeps. */
  lemma {:induction false} LockstepExactly(w: State, m: State, acts: seq<Action>)
    requires Paired(w, m) && PlainRun(AsMeant, m, acts)
    ensures InLockstep(w, m, acts) <==> Faithful(w, acts)
    decreases |acts|
  {
    if acts == [] {
    } else {
      if Misfires(w, acts[0]) {
        MisfireDisagrees(w, m, acts[0]);
      } else {
        StepAgrees(w, m, acts[0]);
        if Step(AsWritten, w, acts[0]).Done? {
          PairedStep(w, m, acts[0]);
          LockstepExactly(Step(AsWritten, w, acts[0]).next, Step(AsMeant, m, acts[0]).next, acts[1..]);
        }
      }
    }
  }

  lemma LockstepFromInit(acts: seq<Action>)
    requires PlainRun(AsMeant, Init(), acts)
    ensures InLockstep(Init(), Init(), acts) <==> Faithful(Init(), acts)
  {
    LockstepExactly(Init(), Init(), acts);
  }
}
