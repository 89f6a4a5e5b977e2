/** What every reachable state of a plain run satisfies, and how a step treats terminated threads and tids. */
module Safety {
  import opened Queues
  import opened Model
  import opened Runs
  import opened Invariant
  import opened Sleepers
  import opened Soundness

  lemma InitInv(v: Version)
    ensures Inv(v, Init())
  {
  }

  /** AsWritten: no plain run looks up a missing thread; the queue is duplicate-free and is exactly the READY
      non-zombies; the current thread is in the map (so no reclamation deleted it) and is the only RUNNING non-zombie;
      whenever a deletion is pending, current is not main and is in its first quantum. */
  lemma AsWrittenSafeAwake(acts: seq<Action>)
    requires PlainRun(AsWritten, Init(), acts)
    ensures !RunFrom(AsWritten, Init(), acts).Crash?
    ensures RunFrom(AsWritten, Init(), acts).Done? ==>
              var s := RunFrom(AsWritten, Init(), acts).next;
              && NoDup(s.queue)
              && (forall t :: t in s.queue <==> Live(s, t) && s.threads[t].state == READY)
              && Live(s, s.current) && s.threads[s.current].state == RUNNING
              && (forall t :: Live(s, t) && s.threads[t].state == RUNNING ==> t == s.current)
              && (s.pending != NO_PENDING ==>
                    s.pending in s.zombies && s.current != 0 && s.threads[s.current].quantums == 1)
  {
    InitInv(AsWritten);
    RunInv(AsWritten, Init(), acts);
  }

  /** The status of a thread as the other structures tell it. */
  function Derived(s: State, t: int): ThreadState
    requires t in s.threads
  {
    if t == s.current then RUNNING
    else if s.threads[t].userBlocked || t in s.sleeping then BLOCKED
    else READY
  }

  /** AsMeant: in every reachable state the stored status of every non-zombie is the derived one, the current thread
      carries no user-block flag, the duplicate-free queue holds exactly the derived READY threads, and every sleeper
      is a live thread other than the current one. */
  lemma AsMeantSafe(acts: seq<Action>)
    requires PlainRun(AsMeant, Init(), acts)
    ensures !RunFrom(AsMeant, Init(), acts).Crash?
    ensures RunFrom(AsMeant, Init(), acts).Done? ==>
              var s := RunFrom(AsMeant, Init(), acts).next;
              && NoDup(s.queue) && Live(s, s.current) && !s.threads[s.current].userBlocked
              && (forall t :: Live(s, t) ==> s.threads[t].state == Derived(s, t))
              && (forall t :: t in s.queue <==> Live(s, t) && Derived(s, t) == READY)
              && (forall t :: t in s.sleeping ==> Live(s, t) && t != s.current)
  {
    InitInv(AsMeant);
    RunInv(AsMeant, Init(), acts);
  }

  /** What can take place while the handler stands between its two halves with the signal unblocked: nothing, or a
      nested tick and then any sound run, until the handler goes on. */
  ghost predicate Interleaves(v: Version, w: State, between: seq<Action>) {
    between != [] ==>
      && between[0].Tick? && Feasible(w, between[0])
      && (Step(v, w, between[0]).Done? ==> SoundRun(v, Step(v, w, between[0]).next, between[1..]))
  }

  lemma InterleavesWritten(w: State, between: seq<Action>)
    requires AboutToSwitch(w) && Interleaves(AsWritten, w, between)
    ensures !RunFrom(AsWritten, w, between).Crash?
    ensures RunFrom(AsWritten, w, between).Done? ==> AboutToSwitch(RunFrom(AsWritten, w, between).next)
  {
    if between != [] {
      TickWeak(w, between[0].order);
      RunSound(AsWritten, Step(AsWritten, w, between[0]).next, between[1..]);
    }
  }

  lemma InterleavesMeant(w: State, between: seq<Action>)
    requires Inv(AsMeant, w) && Interleaves(AsMeant, w, between)
    ensures !RunFrom(AsMeant, w, between).Crash?
    ensures RunFrom(AsMeant, w, between).Done? ==> Inv(AsMeant, RunFrom(AsMeant, w, between).next)
  {
    if between != [] {
      InvIsWeak(AsMeant, w);
      StepSoundExactly(AsMeant, w, between[0]);
      RunSound(AsMeant, Step(AsMeant, w, between[0]).next, between[1..]);
    }
  }

  /** A tick may be cut in two: after the wake loop the handler unblocks the signal, and whatever interleaves before it
      switches, the switch finds its threads and restores the invariant. From states of the invariant of plain runs any
      plain run at all may take place in between, and both halves keep that invariant by themselves. */
  lemma SplitTick(v: Version, s: State, order: seq<int>, between: seq<Action>)
    requires Sound(v, s) && IsOrder(s, order)
    ensures WakeAll(s, order).Some?
    ensures var o := RunFrom(v, WakeAll(s, order).value, between);
            Interleaves(v, WakeAll(s, order).value, between) ==>
              !o.Crash? && (o.Done? ==> Switch(v, o.next).Some? && Sound(v, Switch(v, o.next).value))
    ensures Inv(v, s) ==>
              var w := WakeAll(s, order).value;
              && Inv(v, w)
              && (PlainRun(v, w, between) && RunFrom(v, w, between).Done? ==>
                    && Switch(v, RunFrom(v, w, between).next).Some?
                    && Inv(v, Switch(v, RunFrom(v, w, between).next).value))
  {
    WakeWeak(s, order);
    var w := WakeAll(s, order).value;
    var o := RunFrom(v, w, between);
    if v.AsMeant? {
      WakeInv(v, s, order);
    }
    if Interleaves(v, w, between) {
      match v
      case AsWritten =>
        InterleavesWritten(w, between);
        if o.Done? {
          SwitchWeak(o.next);
        }
      case AsMeant =>
        InterleavesMeant(w, between);
        if o.Done? {
          SwitchInv(v, o.next);
          InvIsWeak(v, Switch(v, o.next).value);
        }
    }
    if Inv(v, s) {
      CutPlain(v, s, order, between);
    }
  }

  lemma CutPlain(v: Version, s: State, order: seq<int>, between: seq<Action>)
    requires Inv(v, s) && IsOrder(s, order)
    ensures WakeAll(s, order).Some? && Inv(v, WakeAll(s, order).value)
    ensures var w := WakeAll(s, order).value;
            PlainRun(v, w, between) && RunFrom(v, w, between).Done? ==>
              Switch(v, RunFrom(v, w, between).next).Some? && Inv(v, Switch(v, RunFrom(v, w, between).next).value)
  {
    WakeInv(v, s, order);
    var w := WakeAll(s, order).value;
    if PlainRun(v, w, between) && RunFrom(v, w, between).Done? {
      RunInv(v, w, between);
      SwitchInv(v, RunFrom(v, w, between).next);
    }
  }

  // ---------------------------------------------------------------- terminated threads

  lemma DispatchZombies(s: State)
    requires Dispatch(s).Some?
    ensures var n := Dispatch(s).value;
            || (n.pending == s.pending && n.zombies == s.zombies)
            || (n.pending == NO_PENDING && s.pending != NO_PENDING && s.pending !in n.threads &&
                n.zombies == if s.pending in s.threads then s.zombies - {s.pending} else s.zombies)
  {
  }

  /** Zombies are threads in the map, other than main, with a valid tid. */
  ghost predicate Booked(s: State) {
    s.zombies <= s.threads.Keys && forall z :: z in s.zombies ==> 0 < z < MAX_THREAD_NUM
  }

  lemma WeakIsBooked(s: State)
    requires Weak(s)
    ensures Booked(s)
  {
  }

  /** The bookkeeping of deletions after a step other than a self-termination. */
  ghost predicate KeptOrReclaimed(s: State, n: State, erased: set<int>) {
    || (n.pending == s.pending && n.zombies == s.zombies - erased)
    || (n.pending == NO_PENDING && s.pending != NO_PENDING && s.pending !in n.threads &&
        n.zombies == s.zombies - {s.pending})
  }

  lemma SwitchZombies(v: Version, s: State, w: State)
    requires Booked(s) && w.zombies == s.zombies && w.pending == s.pending && w.threads.Keys == s.threads.Keys
    requires Switch(v, w).Some?
    ensures KeptOrReclaimed(s, Switch(v, w).value, {})
  {
    DispatchZombies(Requeue(v, w));
    assert s.pending in s.threads.Keys <==> s.pending in w.threads.Keys;
    assert s.zombies - {} == s.zombies;
    if s.pending !in s.threads {
      assert s.zombies - {s.pending} == s.zombies;
    }
  }

  lemma {:induction false} WakeZombies(s: State, order: seq<int>)
    ensures WakeAll(s, order).Some? ==>
              var w := WakeAll(s, order).value;
              w.pending == s.pending && w.zombies == s.zombies && w.threads.Keys == s.threads.Keys
  {
    if order == [] {
    } else {
      WakeZombies(s, order[..|order| - 1]);
    }
  }

  lemma BlockZombies(v: Version, s: State, t: int)
    requires Booked(s) && t in s.threads && BlockThread(v, s, t).Done?
    ensures KeptOrReclaimed(s, BlockThread(v, s, t).next, {})
  {
    assert s.zombies - {} == s.zombies;
    if BlockThread(v, s, t) == Switched(Switch(v, UserBlocked(s, t))) {
      SwitchZombies(v, s, UserBlocked(s, t));
    }
  }

  lemma SleepZombies(v: Version, s: State, n: int)
    requires Booked(s) && SleepThread(v, s, n).Done?
    ensures KeptOrReclaimed(s, SleepThread(v, s, n).next, {})
  {
    assert s.zombies - {} == s.zombies;
    if SleepThread(v, s, n) == Switched(Switch(v, FallenAsleep(s, n))) {
      SwitchZombies(v, s, FallenAsleep(s, n));
    }
  }

  lemma TerminateZombies(v: Version, s: State, t: int)
    requires t in s.threads && t != s.current && TerminateThread(v, s, t).Done?
    ensures var n := TerminateThread(v, s, t).next;
            n.pending == s.pending && n.zombies == s.zombies - {t} && t !in n.threads
  {
  }

  /** The zombie that a call from another thread deletes, if it does. */
  function Erased(s: State, a: Action): set<int> {
    if a.Terminate? && a.tid in s.zombies then {a.tid} else {}
  }

  /** Both versions, in any state whose zombies are in the map: no step but self-termination adds a zombie or sets a
      pending deletion. The pending zombie leaves only by leaving the map, and any other zombie only by being terminated
      by another thread. */
  lemma ZombieStep(v: Version, s: State, a: Action)
    requires Booked(s) && Step(v, s, a).Done? && !SelfTermination(s, a)
    ensures KeptOrReclaimed(s, Step(v, s, a).next, Erased(s, a))
    ensures forall z :: z in Erased(s, a) ==> z !in Step(v, s, a).next.threads
  {
    assert s.zombies - {} == s.zombies;
    match a
    case Terminate(t) =>
      if TidGuard(s, t).None? {
        TerminateZombies(v, s, t);
        if t !in s.zombies {
          assert s.zombies - {t} == s.zombies;
        }
      }
    case Block(t) => if BlockGuard(s, t).None? { BlockZombies(v, s, t); }
    case Sleep(n) => if n > 0 && s.current != 0 { SleepZombies(v, s, n); }
    case Tick(order) =>
      WakeZombies(s, order);
      SwitchZombies(v, s, WakeAll(s, order).value);
    case _ =>
  }

  /** A thread that terminates itself becomes the pending zombie, unless the switch resumes a thread that has run before
      and it leaves the map at once. A zombie that was pending until then stays, no longer pending. */
  lemma SelfTerminationStep(v: Version, s: State)
    requires Sound(v, s) && s.current != 0
    ensures Step(v, s, Terminate(s.current)).Done?
    ensures var n := Step(v, s, Terminate(s.current)).next;
            || (n.pending == s.current && n.zombies == s.zombies + {s.current})
            || (n.pending == NO_PENDING && s.current !in n.threads && n.zombies == s.zombies)
  {
    SelfTerminates(v, s);
    DispatchZombies(MarkedForDeletion(s, s.current));
    assert s.zombies + {s.current} - {s.current} == s.zombies;
  }

  /** A pending tid is overwritten, leaving its thread in the map for good, exactly when the current thread terminates
      itself; that thread is then in its first quantum. */
  lemma PendingOverwritten(v: Version, s: State, a: Action)
    requires Sound(v, s) && SoundStep(v, s, a) && Step(v, s, a).Done? && s.pending != NO_PENDING
    ensures var n := Step(v, s, a).next;
            (s.pending in n.threads && n.pending != s.pending) <==> a == Terminate(s.current)
    ensures s.threads[s.current].quantums == 1
  {
    StepSoundExactly(v, s, a);
    if SelfTermination(s, a) {
      SelfTerminationStep(v, s);
    } else {
      WeakIsBooked(s);
      ZombieStep(v, s, a);
    }
  }

  /** What a sound step does to a zombie. */
  lemma ZombieFate(v: Version, s: State, a: Action, z: int)
    requires Sound(v, s) && SoundStep(v, s, a) && Step(v, s, a).Done? && z in s.zombies
    ensures var n := Step(v, s, a).next;
            && Sound(v, n) && (z in n.zombies <==> z in n.threads)
            && (z != s.pending ==> z != n.pending && (z in n.threads <==> a != Terminate(z)))
            && (z == s.pending && n.pending != z ==> (z in n.threads <==> SelfTermination(s, a)))
            && (n.pending == z ==> z in n.zombies)
  {
    StepSoundExactly(v, s, a);
    assert Live(s, s.current);
    if SelfTermination(s, a) {
      SelfTerminationStep(v, s);
    } else {
      WeakIsBooked(s);
      ZombieStep(v, s, a);
    }
  }

  /** A zombie is never dispatched and never in the queue for as long as it stays in the map. */
  lemma {:induction false} ZombiesStayOut(v: Version, s: State, acts: seq<Action>, z: int)
    requires Sound(v, s) && SoundRun(v, s, acts) && z in s.zombies
    ensures HoldsUntil(v, s, acts, (x: State) => z in x.zombies && x.current != z && z !in x.queue,
                                   (x: State) => z !in x.threads)
    decreases |acts|
  {
    assert Live(s, s.current);
    if acts != [] && Step(v, s, acts[0]).Done? {
      var n := Step(v, s, acts[0]).next;
      ZombieFate(v, s, acts[0], z);
      if z in n.threads {
        ZombiesStayOut(v, n, acts[1..], z);
      }
    }
  }

  // ---------------------------------------------------------------- what calls on other threads do

  /** `n` differs from `s` in thread `t` at most, and no switch has taken place. */
  ghost predicate OnlyTouches(s: State, n: State, t: int) {
    && n.current == s.current && n.total == s.total && n.pending == s.pending
    && (forall u :: u != t ==> (u in n.threads <==> u in s.threads) && (u in n.sleeping <==> u in s.sleeping))
    && (forall u :: u != t && u in s.threads ==> n.threads[u] == s.threads[u])
    && (forall u :: u != t && u in s.sleeping ==> n.sleeping[u] == s.sleeping[u])
    && (forall u, w :: u != t && w != t && u in s.queue && w in s.queue ==>
          u in n.queue && w in n.queue && (Pos(s.queue, u) < Pos(s.queue, w) <==> Pos(n.queue, u) < Pos(n.queue, w)))
  }

  lemma KeepsOrder(q: seq<int>, t: int)
    ensures forall u, w :: u != t && w != t && u in q && w in q ==>
              var r := Without(q, t);
              u in r && w in r && (Pos(q, u) < Pos(q, w) <==> Pos(r, u) < Pos(r, w))
  {
    forall u, w | u != t && w != t && u in q && w in q
      ensures var r := Without(q, t);
              u in r && w in r && (Pos(q, u) < Pos(q, w) <==> Pos(r, u) < Pos(r, w))
    {
      WithoutKeepsOrder(q, t, u, w);
    }
  }

  lemma LeavesQueue(s: State, t: int)
    requires Weak(s) && t in s.threads && t != s.current
    ensures LeaveQueue(s, t) == s.(queue := Without(s.queue, t)) && t !in Without(s.queue, t)
  {
    WithoutMembers(s.queue, t);
    if s.threads[t].state != READY {
      OnlyReadyQueued(s, t);
      WithoutAbsent(s.queue, t);
    }
  }

  /** The state after the deletion of `t`, a thread that is not running. */
  function Removed(s: State, t: int): State {
    Delete(s.(queue := Without(s.queue, t), sleeping := s.sleeping - {t}), t)
  }

  lemma RemovalTouches(s: State, t: int)
    ensures OnlyTouches(s, Removed(s, t), t)
  {
    KeepsOrder(s.queue, t);
  }

  /** Terminating another thread removes it from the map, the queue and the sleepers, books its count, and leaves every
      other thread, its deadline and its place in the order alone. */
  lemma TerminationErases(v: Version, s: State, t: int)
    requires Weak(s) && Live(s, t) && t != 0 && t != s.current
    ensures var o := Step(v, s, Terminate(t));
            && o.Done? && o.reply == Ok(0) && OnlyTouches(s, o.next, t)
            && t !in o.next.threads && t !in o.next.queue && t !in o.next.sleeping
            && o.next.retired == s.retired + s.threads[t].quantums
  {
    assert TidGuard(s, t).None?;
    LeavesQueue(s, t);
    assert Step(v, s, Terminate(t)) == Done(Removed(s, t), Ok(0));
    RemovalTouches(s, t);
  }

  /** The state after another thread has blocked `t`. */
  function BlockedByOther(s: State, t: int): State
    requires t in s.threads
  {
    UserBlocked(s.(queue := Without(s.queue, t)), t)
  }

  lemma BlockTouches(s: State, t: int)
    requires t in s.threads
    ensures OnlyTouches(s, BlockedByOther(s, t), t)
  {
    KeepsOrder(s.queue, t);
  }

  lemma BlocksOther(v: Version, s: State, t: int)
    requires Weak(s) && Live(s, t) && t != 0 && t != s.current && !s.threads[t].userBlocked
    ensures Step(v, s, Block(t)) == Done(BlockedByOther(s, t), Ok(0)) && t !in Without(s.queue, t)
  {
    assert BlockGuard(s, t).None? && Parked(s, t);
    LeavesQueue(s, t);
  }

  /** Blocking another thread takes it out of the queue and sets its flag, its deadline untouched. A flag that is set
      already makes the call do nothing. (In AsMeant the thread is BLOCKED then, in AsWritten it need not be.) */
  lemma BlockingRemoves(v: Version, s: State, t: int)
    requires Weak(s) && Live(s, t) && t != 0 && t != s.current
    ensures var o := Step(v, s, Block(t));
            && o.Done? && o.reply == Ok(0)
            && (if s.threads[t].userBlocked then o.next == s && (Inv(AsMeant, s) ==> s.threads[t].state == BLOCKED)
                else
                  OnlyTouches(s, o.next, t) && t in o.next.threads &&
                  o.next.threads[t] == s.threads[t].(state := BLOCKED, userBlocked := true) &&
                  t !in o.next.queue && o.next.sleeping == s.sleeping)
  {
    if s.threads[t].userBlocked {
      assert BlockGuard(s, t).None?;
    } else {
      BlocksOther(v, s, t);
      BlockTouches(s, t);
    }
  }

  lemma OnlyReadyQueued(s: State, t: int)
    requires Weak(s) && t in s.threads && t != s.current
    ensures s.threads[t].state != READY ==> t !in s.queue
  {
  }

  /** Resuming appends a blocked thread that is not asleep to the queue, READY, and in AsWritten leaves its flag set; a
      sleeper stays BLOCKED and only loses its flag; on any other thread it has no effect. */
  lemma ResumingAppends(v: Version, s: State, t: int)
    requires Weak(s) && Live(s, t)
    ensures var o := Step(v, s, Resume(t));
            && o.Done? && o.reply == Ok(0) && t in o.next.threads
            && (if s.threads[t].state != BLOCKED then o.next == s
                else if t in s.sleeping then
                  OnlyTouches(s, o.next, t) && o.next.threads[t] == s.threads[t].(userBlocked := false) &&
                  o.next.queue == s.queue && o.next.sleeping == s.sleeping
                else
                  OnlyTouches(s, o.next, t) && o.next.queue == s.queue + [t] && o.next.sleeping == s.sleeping &&
                  o.next.threads[t] == s.threads[t].(state := READY,
                                                     userBlocked := v.AsWritten? && s.threads[t].userBlocked))
  {
    assert TidGuard(s, t).None?;
    AppendKeepsOrder(s.queue, t);
  }

  lemma AppendKeepsOrder(q: seq<int>, t: int)
    ensures forall u :: u in q ==> u in q + [t] && Pos(q + [t], u) == Pos(q, u)
  {
    forall u | u in q ensures u in q + [t] && Pos(q + [t], u) == Pos(q, u) {
      PosAppend(q, [t], u);
    }
  }

  // ---------------------------------------------------------------- tids

  /** Spawning picks the smallest absent tid and queues the new thread last; it fails exactly when the live threads
      and the unreclaimed zombies together number 100. */
  lemma SpawnPicksSmallest(v: Version, s: State)
    requires Weak(s)
    ensures Step(v, s, Spawn(true)).Done?
    ensures var o := Step(v, s, Spawn(true));
      && (o.reply == Error(ThreadLimit) <==> |s.threads.Keys - s.zombies| + |s.zombies| == MAX_THREAD_NUM)
      && (o.reply.Error? ==> o.reply == Error(ThreadLimit) && o.next == s)
      && (o.reply.Ok? ==>
            && 0 < o.reply.value < MAX_THREAD_NUM && o.reply.value !in s.threads
            && (forall u :: 0 <= u < o.reply.value ==> u in s.threads)
            && o.next.threads == s.threads[o.reply.value := Record(READY, 0, false)]
            && o.next.queue == s.queue + [o.reply.value])
  {
    AllUsed(s.threads.Keys, MAX_THREAD_NUM);
    assert s.threads.Keys == (s.threads.Keys - s.zombies) + s.zombies;
  }
}
