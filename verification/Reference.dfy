/** What one step does, told attribute by attribute instead of call by call: who runs next, the queue, and for every
    thread its status, its count, its flag and its deadline. Both versions, from every state of the invariant. */
module Reference {
  import opened Queues
  import opened Model
  import opened Runs
  import opened Invariant
  import opened Sleepers
  import opened Soundness
  import opened Waiting

  // ---------------------------------------------------------------- the reference

  predicate Exists(s: State, t: int) {
    0 <= t < MAX_THREAD_NUM && t in s.threads
  }

  /** The call is not refused. */
  predicate Accepted(s: State, a: Action) {
    match a
    case Spawn(hasEntryPoint) => hasEntryPoint && FreeTid(s.threads, 0) != -1
    case Terminate(t) => Exists(s, t)
    case Block(t) => Exists(s, t) && t != 0
    case Resume(t) => Exists(s, t)
    case Sleep(n) => n > 0 && s.current != 0
    case Tick(_) => true
  }

  /** Thread `t` is blocked by this call: a flag that is set already makes a block do nothing. */
  predicate BlocksNow(s: State, a: Action, t: int) {
    a == Block(t) && Accepted(s, a) && !s.threads[t].userBlocked
  }

  predicate ResumesNow(s: State, a: Action, t: int) {
    a == Resume(t) && Accepted(s, a) && s.threads[t].state == BLOCKED
  }

  /** Another thread than the current one is terminated. */
  predicate Deletes(s: State, a: Action, t: int) {
    a == Terminate(t) && Accepted(s, a) && t != s.current
  }

  /** The running quantum ends with this step. */
  predicate EndsQuantum(s: State, a: Action) {
    a.Tick? || (a.Sleep? && Accepted(s, a)) || BlocksNow(s, a, s.current) || SelfTermination(s, a)
  }

  /** The outgoing thread goes back into the queue: in AsWritten whenever it does not end, in AsMeant only by a tick. */
  predicate GoesBack(v: Version, s: State, a: Action) {
    EndsQuantum(s, a) && |s.threads| > 1 && (a.Tick? || (v.AsWritten? && !a.Terminate?))
  }

  /** The threads that join the queue, other than the outgoing one. */
  function Arrivals(s: State, a: Action): seq<int> {
    match a
    case Tick(order) => WokenBy(s, order)
    case Spawn(_) => if Accepted(s, a) then [FreeTid(s.threads, 0)] else []
    case Resume(t) => if ResumesNow(s, a, t) && t !in s.sleeping then [t] else []
    case _ => []
  }

  /** The threads that stay in the queue. */
  function Stayers(s: State, a: Action): seq<int> {
    if (a.Terminate? && Deletes(s, a, a.tid)) || (a.Block? && BlocksNow(s, a, a.tid) && a.tid != s.current)
    then Without(s.queue, a.tid)
    else s.queue
  }

  /** The queue before the next thread is taken from it. */
  function Line(v: Version, s: State, a: Action): seq<int> {
    Stayers(s, a) + Arrivals(s, a) + (if GoesBack(v, s, a) then [s.current] else [])
  }

  function CurrentAfter(v: Version, s: State, a: Action): int {
    if EndsQuantum(s, a) && Line(v, s, a) != [] then Line(v, s, a)[0] else s.current
  }

  function QueueAfter(v: Version, s: State, a: Action): seq<int> {
    if EndsQuantum(s, a) && Line(v, s, a) != [] then Line(v, s, a)[1..] else Line(v, s, a)
  }

  function StateAfter(v: Version, s: State, a: Action, t: int): ThreadState
    requires t in s.threads
  {
    if EndsQuantum(s, a) && t == CurrentAfter(v, s, a) then RUNNING
    else if t in Arrivals(s, a) || (t == s.current && (GoesBack(v, s, a) || SelfTermination(s, a))) then READY
    else if BlocksNow(s, a, t) || (a.Sleep? && Accepted(s, a) && t == s.current) then BLOCKED
    else s.threads[t].state
  }

  /** The flag is set by blocking and cleared by resuming a blocked thread; in AsWritten only if that is asleep. */
  function FlagAfter(v: Version, s: State, a: Action, t: int): bool
    requires t in s.threads
  {
    if BlocksNow(s, a, t) then true
    else if ResumesNow(s, a, t) && (v.AsMeant? || t in s.sleeping) then false
    else s.threads[t].userBlocked
  }

  function RecordAfter(v: Version, s: State, a: Action, t: int): Record {
    if t !in s.threads then Record(READY, 0, false)
    else
      Record(StateAfter(v, s, a, t),
             s.threads[t].quantums + (if EndsQuantum(s, a) && t == CurrentAfter(v, s, a) then 1 else 0),
             FlagAfter(v, s, a, t))
  }

  function Deadline(s: State, t: int): Option<int> {
    if t in s.sleeping then Some(s.sleeping[t]) else None
  }

  /** A sleep call sets the caller's deadline, whether there was one or not; a tick that finds it due clears it, and
      so does the termination by another thread. */
  function DeadlineAfter(s: State, a: Action, t: int): Option<int> {
    if a.Sleep? && Accepted(s, a) && t == s.current then Some(s.total + a.numQuantums)
    else if Deletes(s, a, t) || (a.Tick? && t in s.sleeping && s.sleeping[t] <= s.total) then None
    else Deadline(s, t)
  }

  /** The thread whose deletion is pending when the switch comes. */
  function Condemned(s: State, a: Action): int {
    if SelfTermination(s, a) then s.current else s.pending
  }

  /** The switch goes to a thread that has run before, so that the pending deletion takes place. */
  predicate Reclaims(v: Version, s: State, a: Action) {
    && EndsQuantum(s, a) && Condemned(s, a) != NO_PENDING
    && CurrentAfter(v, s, a) in s.threads && s.threads[CurrentAfter(v, s, a)].quantums > 0
  }

  function PendingAfter(v: Version, s: State, a: Action): int {
    if Reclaims(v, s, a) then NO_PENDING else Condemned(s, a)
  }

  /** Thread `t` is in the map after the step. */
  predicate PresentAfter(v: Version, s: State, a: Action, t: int) {
    || (t in s.threads && !Deletes(s, a, t) && !(Reclaims(v, s, a) && t == Condemned(s, a)))
    || (a.Spawn? && Accepted(s, a) && t == FreeTid(s.threads, 0))
  }

  ghost predicate Meets(v: Version, s: State, a: Action, n: State) {
    && n.total == s.total + (if EndsQuantum(s, a) then 1 else 0)
    && n.current == CurrentAfter(v, s, a)
    && n.queue == QueueAfter(v, s, a)
    && n.pending == PendingAfter(v, s, a)
    && (forall t :: MeetsFor(v, s, a, n, t))
  }

  /** The part about thread `t`: whether it is in the map, its record, and its deadline. */
  ghost predicate MeetsFor(v: Version, s: State, a: Action, n: State, t: int) {
    && (t in n.threads <==> PresentAfter(v, s, a, t))
    && (t in n.threads ==> n.threads[t] == RecordAfter(v, s, a, t))
    && Deadline(n, t) == DeadlineAfter(s, a, t)
  }

  // ---------------------------------------------------------------- the switch

  lemma ReclaimedPresent(s: State, t: int)
    ensures t in Reclaim(s).threads <==> t in s.threads && !(s.pending != NO_PENDING && t == s.pending)
    ensures t in Reclaim(s).threads ==> Reclaim(s).threads[t] == s.threads[t]
  {
  }

  /** A switch, field by field. */
  lemma SwitchFields(v: Version, w: State, line: seq<int>, h: int)
    requires w.current in w.threads && Switch(v, w).Some?
    requires line == w.queue + (if Requeues(v, w) then [w.current] else [])
    requires h == if line == [] then w.current else line[0]
    ensures h in w.threads
    ensures var n := Switch(v, w).value;
            && n.current == h && n.queue == (if line == [] then [] else line[1..])
            && n.total == w.total + 1 && n.sleeping == w.sleeping
            && n.pending == (if w.threads[h].quantums != 0 then NO_PENDING else w.pending)
  {
    assert w.queue + [] == w.queue;
  }

  lemma SwitchThread(v: Version, w: State, line: seq<int>, h: int, t: int)
    requires w.current in w.threads && Switch(v, w).Some? && h in w.threads
    requires line == w.queue + (if Requeues(v, w) then [w.current] else [])
    requires h == if line == [] then w.current else line[0]
    ensures var n := Switch(v, w).value;
            && (t in n.threads <==>
                  t in w.threads && !(w.threads[h].quantums != 0 && w.pending != NO_PENDING && t == w.pending))
            && (t in n.threads ==>
                  n.threads[t] == w.threads[t].(
                    state := if t == h && line != [] then RUNNING
                             else if Requeues(v, w) && t == w.current then READY
                             else w.threads[t].state,
                    quantums := w.threads[t].quantums + if t == h then 1 else 0))
  {
    assert w.queue + [] == w.queue;
    var r := Requeue(v, w);
    assert r.queue == line;
    ReclaimedPresent(Started(r), t);
  }

  /** The status with which thread `t` goes into the switch, but for the outgoing thread's requeue. */
  function StateBefore(s: State, a: Action, t: int): ThreadState
    requires t in s.threads
  {
    if t in Arrivals(s, a) || (t == s.current && SelfTermination(s, a)) then READY
    else if BlocksNow(s, a, t) || (a.Sleep? && Accepted(s, a) && t == s.current) then BLOCKED
    else s.threads[t].state
  }

  /** `w` is `s` with the step carried out up to the switch that ends it. */
  ghost predicate Ready(v: Version, s: State, a: Action, w: State) {
    ReadyToSwitch(v, s, a, w) && forall t :: ReadyFor(v, s, a, w, t)
  }

  ghost predicate ReadyToSwitch(v: Version, s: State, a: Action, w: State) {
    && EndsQuantum(s, a) && w.current == s.current && w.current in w.threads && w.total == s.total
    && w.queue == Stayers(s, a) + Arrivals(s, a) && w.pending == Condemned(s, a)
    && (Requeues(v, w) <==> GoesBack(v, s, a))
    && (Line(v, s, a) == [] ==> w.threads[w.current].state == RUNNING)
  }

  ghost predicate ReadyFor(v: Version, s: State, a: Action, w: State, t: int) {
    && (t in w.threads <==> t in s.threads)
    && (t in s.threads ==>
          s.threads[t].quantums >= 0 &&
          w.threads[t] == Record(StateBefore(s, a, t), s.threads[t].quantums, FlagAfter(v, s, a, t)))
    && Deadline(w, t) == DeadlineAfter(s, a, t)
  }

  lemma StateFollows(v: Version, s: State, a: Action, t: int)
    requires EndsQuantum(s, a) && t in s.threads
    ensures StateAfter(v, s, a, t) ==
            if t == CurrentAfter(v, s, a) then RUNNING
            else if GoesBack(v, s, a) && t == s.current then READY
            else StateBefore(s, a, t)
  {
  }

  lemma PresentFollows(v: Version, s: State, a: Action, t: int)
    requires EndsQuantum(s, a)
    ensures PresentAfter(v, s, a, t) <==> t in s.threads && !(Reclaims(v, s, a) && t == Condemned(s, a))
  {
  }

  lemma PresentMeets(v: Version, s: State, a: Action, w: State, t: int)
    requires ReadyToSwitch(v, s, a, w) && ReadyFor(v, s, a, w, t) && Switch(v, w).Some?
    requires ReadyFor(v, s, a, w, CurrentAfter(v, s, a))
    ensures t in Switch(v, w).value.threads <==> PresentAfter(v, s, a, t)
  {
    var line := Line(v, s, a);
    var h := CurrentAfter(v, s, a);
    SwitchFields(v, w, line, h);
    SwitchThread(v, w, line, h, t);
    PresentFollows(v, s, a, t);
  }

  lemma RecordMeets(v: Version, s: State, a: Action, w: State, t: int)
    requires ReadyToSwitch(v, s, a, w) && ReadyFor(v, s, a, w, t) && Switch(v, w).Some?
    requires t in Switch(v, w).value.threads
    ensures Switch(v, w).value.threads[t] == RecordAfter(v, s, a, t)
  {
    var line := Line(v, s, a);
    var h := CurrentAfter(v, s, a);
    SwitchFields(v, w, line, h);
    SwitchThread(v, w, line, h, t);
    StateFollows(v, s, a, t);
  }

  lemma SwitchMeetsFor(v: Version, s: State, a: Action, w: State, t: int)
    requires ReadyToSwitch(v, s, a, w) && ReadyFor(v, s, a, w, t) && Switch(v, w).Some?
    requires ReadyFor(v, s, a, w, CurrentAfter(v, s, a))
    ensures MeetsFor(v, s, a, Switch(v, w).value, t)
  {
    PresentMeets(v, s, a, w, t);
    if t in Switch(v, w).value.threads {
      RecordMeets(v, s, a, w, t);
    }
    SwitchTime(v, w);
  }

  lemma SwitchMeets(v: Version, s: State, a: Action, w: State)
    requires Ready(v, s, a, w) && Switch(v, w).Some?
    ensures Meets(v, s, a, Switch(v, w).value)
  {
    var h := CurrentAfter(v, s, a);
    assert ReadyFor(v, s, a, w, h);
    SwitchFields(v, w, Line(v, s, a), h);
    forall t ensures MeetsFor(v, s, a, Switch(v, w).value, t) {
      assert ReadyFor(v, s, a, w, t);
      SwitchMeetsFor(v, s, a, w, t);
    }
  }

  // ---------------------------------------------------------------- each kind of step

  lemma TickRequeues(v: Version, s: State, order: seq<int>, w: State)
    requires Sound(v, s) && IsOrder(s, order) && Awake(s, order, w)
    ensures w.current in w.threads && (Requeues(v, w) <==> |s.threads| > 1)
  {
    assert |w.threads| == |w.threads.Keys| && |s.threads| == |s.threads.Keys|;
    assert s.current in w.threads.Keys;
    WokenMembers(s, order);
    if v.AsMeant? {
      assert s.current !in WokenBy(s, order);
    }
  }

  lemma TickReadyFor(v: Version, s: State, order: seq<int>, w: State, t: int)
    requires Sound(v, s) && IsOrder(s, order) && Awake(s, order, w)
    ensures ReadyFor(v, s, Tick(order), w, t)
  {
    assert t in w.threads.Keys <==> t in s.threads.Keys;
  }

  lemma LoneTick(v: Version, s: State, order: seq<int>, w: State)
    requires Sound(v, s) && IsOrder(s, order) && WakeAll(s, order) == Some(w) && Awake(s, order, w)
    requires Line(v, s, Tick(order)) == []
    ensures w.current in w.threads && w.threads[w.current].state == RUNNING
  {
    assert s.queue == [] && WokenBy(s, order) == [];
    assert s.current in s.threads.Keys && s.current in w.threads.Keys;
  }

  lemma TickReady(v: Version, s: State, order: seq<int>)
    requires Sound(v, s) && IsOrder(s, order)
    ensures WakeAll(s, order).Some? && Ready(v, s, Tick(order), WakeAll(s, order).value)
  {
    WakeEffect(s, order);
    var w := WakeAll(s, order).value;
    var a := Tick(order);
    TickRequeues(v, s, order, w);
    forall t ensures ReadyFor(v, s, a, w, t) {
      TickReadyFor(v, s, order, w, t);
    }
    if Line(v, s, a) == [] {
      LoneTick(v, s, order, w);
    }
  }

  lemma NotAlone(s: State)
    requires Weak(s) && s.current != 0
    ensures |s.threads| > 1
  {
    assert s.current in s.threads.Keys;
    if |s.threads| <= 1 {
      AllRuns.OnlyMain(s.threads);
    }
  }

  /** `w` is the state in which the caller, asleep or blocked by itself, goes into the switch. */
  ghost predicate Outgoing(s: State, a: Action, w: State)
    requires s.current in s.threads
  {
    || (a.Sleep? && a.numQuantums > 0 && w == FallenAsleep(s, a.numQuantums))
    || (a == Block(s.current) && !s.threads[s.current].userBlocked && w == UserBlocked(s, s.current))
  }

  lemma OutgoingFor(v: Version, s: State, a: Action, w: State, t: int)
    requires Sound(v, s) && s.current != 0 && Outgoing(s, a, w)
    ensures ReadyFor(v, s, a, w, t)
  {
    assert Arrivals(s, a) == [];
  }

  lemma OutgoingQueue(v: Version, s: State, a: Action, w: State)
    requires Sound(v, s) && s.current != 0 && Outgoing(s, a, w)
    ensures ReadyToSwitch(v, s, a, w)
  {
    NotAlone(s);
    MainQueuedWeak(s);
    assert w.threads.Keys == s.threads.Keys && |w.threads| == |w.threads.Keys|;
    assert Stayers(s, a) + Arrivals(s, a) == s.queue;
  }

  lemma OutgoingReady(v: Version, s: State, a: Action, w: State)
    requires Sound(v, s) && s.current != 0 && Outgoing(s, a, w)
    ensures Ready(v, s, a, w)
  {
    OutgoingQueue(v, s, a, w);
    forall t ensures ReadyFor(v, s, a, w, t) {
      OutgoingFor(v, s, a, w, t);
    }
  }

  lemma EndingFor(v: Version, s: State, t: int)
    requires Sound(v, s) && s.current != 0
    ensures ReadyFor(v, s, Terminate(s.current), MarkedForDeletion(s, s.current), t)
  {
  }

  lemma EndingReady(v: Version, s: State)
    requires Sound(v, s) && s.current != 0
    ensures Ready(v, s, Terminate(s.current), MarkedForDeletion(s, s.current))
  {
    MainQueuedWeak(s);
    var a, w := Terminate(s.current), MarkedForDeletion(s, s.current);
    assert Stayers(s, a) + Arrivals(s, a) == s.queue;
    forall t ensures ReadyFor(v, s, a, w, t) {
      EndingFor(v, s, t);
    }
  }

  lemma TickMeets(v: Version, s: State, order: seq<int>)
    requires Sound(v, s) && IsOrder(s, order)
    ensures Step(v, s, Tick(order)).Done? ==> Meets(v, s, Tick(order), Step(v, s, Tick(order)).next)
  {
    TickReady(v, s, order);
    if Switch(v, WakeAll(s, order).value).Some? {
      SwitchMeets(v, s, Tick(order), WakeAll(s, order).value);
    }
  }

  lemma SleepMeets(v: Version, s: State, n: int)
    requires Sound(v, s) && n > 0 && s.current != 0
    ensures Step(v, s, Sleep(n)).Done? ==> Meets(v, s, Sleep(n), Step(v, s, Sleep(n)).next)
  {
    MainQueuedWeak(s);
    OutgoingReady(v, s, Sleep(n), FallenAsleep(s, n));
    if Switch(v, FallenAsleep(s, n)).Some? {
      SwitchMeets(v, s, Sleep(n), FallenAsleep(s, n));
    }
  }

  lemma BlockSelfMeets(v: Version, s: State)
    requires Sound(v, s) && s.current != 0 && !s.threads[s.current].userBlocked
    ensures Step(v, s, Block(s.current)).Done? ==> Meets(v, s, Block(s.current), Step(v, s, Block(s.current)).next)
  {
    MainQueuedWeak(s);
    var b := UserBlocked(s, s.current);
    assert BlockGuard(s, s.current).None?;
    OutgoingReady(v, s, Block(s.current), b);
    if Switch(v, b).Some? {
      SwitchMeets(v, s, Block(s.current), b);
    }
  }

  lemma TerminateSelfMeets(v: Version, s: State)
    requires Sound(v, s) && s.current != 0
    ensures var a := Terminate(s.current); Step(v, s, a).Done? && Meets(v, s, a, Step(v, s, a).next)
  {
    SelfTerminates(v, s);
    var m := MarkedForDeletion(s, s.current);
    assert Switch(v, m) == Dispatch(m);
    EndingReady(v, s);
    SwitchMeets(v, s, Terminate(s.current), m);
  }

  /** Refused calls, and those that find nothing to do. */
  lemma NothingMeets(v: Version, s: State, a: Action)
    requires !EndsQuantum(s, a) && Arrivals(s, a) == [] && (a.Spawn? || a.Sleep? ==> !Accepted(s, a))
    requires forall t :: !BlocksNow(s, a, t) && !ResumesNow(s, a, t) && !Deletes(s, a, t)
    ensures Meets(v, s, a, s)
  {
    assert Line(v, s, a) == s.queue;
    forall t ensures MeetsFor(v, s, a, s, t) {
      assert !BlocksNow(s, a, t) && !ResumesNow(s, a, t) && !Deletes(s, a, t);
    }
  }

  lemma SpawnMeets(v: Version, s: State)
    requires Accepted(s, Spawn(true))
    ensures Meets(v, s, Spawn(true), SpawnThread(s).next)
  {
    var t := FreeTid(s.threads, 0);
    assert Line(v, s, Spawn(true)) == s.queue + [t];
  }

  lemma QuietMeets(v: Version, s: State, a: Action, n: State)
    requires !EndsQuantum(s, a) && n.queue == Stayers(s, a) + Arrivals(s, a)
    requires n.total == s.total && n.current == s.current && n.pending == s.pending
    requires forall t :: MeetsFor(v, s, a, n, t)
    ensures Meets(v, s, a, n)
  {
    assert Line(v, s, a) == Stayers(s, a) + Arrivals(s, a);
  }

  lemma StayersLeft(s: State, a: Action, t: int)
    requires Deletes(s, a, t) || (BlocksNow(s, a, t) && t != s.current)
    ensures !EndsQuantum(s, a) && Stayers(s, a) + Arrivals(s, a) == Without(s.queue, t)
  {
    assert Without(s.queue, t) + [] == Without(s.queue, t);
  }

  lemma DeletedFor(v: Version, s: State, t: int, q: seq<int>, u: int)
    requires Exists(s, t) && t != 0 && t != s.current
    ensures MeetsFor(v, s, Terminate(t), Delete(s.(queue := q, sleeping := s.sleeping - {t}), t), u)
  {
  }

  lemma DeletesOther(v: Version, s: State, t: int)
    requires Weak(s) && t in s.threads && t != 0 && t != s.current
    ensures TerminateThread(v, s, t) ==
            Done(Delete(s.(queue := Without(s.queue, t), sleeping := s.sleeping - {t}), t), Ok(0))
  {
    LeavesAny(s, t);
  }

  lemma DeleteMeets(v: Version, s: State, t: int)
    requires Sound(v, s) && Exists(s, t) && t != 0 && t != s.current
    ensures TerminateThread(v, s, t).Done? && Meets(v, s, Terminate(t), TerminateThread(v, s, t).next)
  {
    DeletesOther(v, s, t);
    var q := Without(s.queue, t);
    var n := Delete(s.(queue := q, sleeping := s.sleeping - {t}), t);
    forall u ensures MeetsFor(v, s, Terminate(t), n, u) {
      DeletedFor(v, s, t, q, u);
    }
    StayersLeft(s, Terminate(t), t);
    QuietMeets(v, s, Terminate(t), n);
  }

  lemma LeavesAny(s: State, t: int)
    requires Weak(s) && t in s.threads && t != s.current
    ensures LeaveQueue(s, t) == s.(queue := Without(s.queue, t))
  {
    if s.threads[t].state != READY {
      assert Parked(s, t);
      WithoutAbsent(s.queue, t);
    }
  }

  lemma BlockedFor(v: Version, s: State, t: int, q: seq<int>, u: int)
    requires Exists(s, t) && t != 0 && t != s.current && !s.threads[t].userBlocked
    ensures MeetsFor(v, s, Block(t), UserBlocked(s.(queue := q), t), u)
  {
  }

  lemma BlocksOther(v: Version, s: State, t: int)
    requires Weak(s) && t in s.threads && t != s.current && !s.threads[t].userBlocked
    ensures BlockThread(v, s, t) == Done(UserBlocked(s.(queue := Without(s.queue, t)), t), Ok(0))
  {
    LeavesAny(s, t);
    assert Parked(s, t);
  }

  lemma BlockOtherMeets(v: Version, s: State, t: int)
    requires Sound(v, s) && Exists(s, t) && t != 0 && t != s.current && !s.threads[t].userBlocked
    ensures BlockThread(v, s, t).Done? && Meets(v, s, Block(t), BlockThread(v, s, t).next)
  {
    BlocksOther(v, s, t);
    var q := Without(s.queue, t);
    var n := UserBlocked(s.(queue := q), t);
    forall u ensures MeetsFor(v, s, Block(t), n, u) {
      BlockedFor(v, s, t, q, u);
    }
    StayersLeft(s, Block(t), t);
    QuietMeets(v, s, Block(t), n);
  }

  lemma ResumedFor(v: Version, s: State, t: int, u: int)
    requires ResumesNow(s, Resume(t), t) && t != s.current
    ensures ResumeThread(v, s, t).Done? && MeetsFor(v, s, Resume(t), ResumeThread(v, s, t).next, u)
  {
  }

  lemma ResumeMeets(v: Version, s: State, t: int)
    requires Sound(v, s) && ResumesNow(s, Resume(t), t)
    ensures ResumeThread(v, s, t).Done? && Meets(v, s, Resume(t), ResumeThread(v, s, t).next)
  {
    assert t != s.current;
    var n := ResumeThread(v, s, t).next;
    forall u ensures MeetsFor(v, s, Resume(t), n, u) {
      ResumedFor(v, s, t, u);
    }
    assert Stayers(s, Resume(t)) + Arrivals(s, Resume(t)) == n.queue;
    QuietMeets(v, s, Resume(t), n);
  }

  lemma TerminateMeets(v: Version, s: State, t: int)
    requires Sound(v, s) && Step(v, s, Terminate(t)).Done?
    ensures Meets(v, s, Terminate(t), Step(v, s, Terminate(t)).next)
  {
    if !Exists(s, t) {
      NothingMeets(v, s, Terminate(t));
    } else if t == s.current {
      TerminateSelfMeets(v, s);
    } else {
      DeleteMeets(v, s, t);
    }
  }

  lemma BlockMeets(v: Version, s: State, t: int)
    requires Sound(v, s) && Step(v, s, Block(t)).Done?
    ensures Meets(v, s, Block(t), Step(v, s, Block(t)).next)
  {
    if !Exists(s, t) || t == 0 || s.threads[t].userBlocked {
      NothingMeets(v, s, Block(t));
    } else if t == s.current {
      BlockSelfMeets(v, s);
    } else {
      BlockOtherMeets(v, s, t);
    }
  }

  /** Every step is what the reference says, attribute by attribute. */
  lemma StepMeets(v: Version, s: State, a: Action)
    requires Sound(v, s) && Feasible(s, a) && Step(v, s, a).Done?
    ensures Meets(v, s, a, Step(v, s, a).next)
  {
    match a
    case Spawn(_) => if Accepted(s, a) { SpawnMeets(v, s); } else { NothingMeets(v, s, a); }
    case Terminate(t) => TerminateMeets(v, s, t);
    case Block(t) => BlockMeets(v, s, t);
    case Resume(t) =>
      if ResumesNow(s, a, t) {
        ResumeMeets(v, s, t);
      } else {
        assert Arrivals(s, a) == [];
        NothingMeets(v, s, a);
      }
    case Sleep(n) => if Accepted(s, a) { SleepMeets(v, s, n); } else { NothingMeets(v, s, a); }
    case Tick(order) => TickMeets(v, s, order);
  }

  // ---------------------------------------------------------------- replies and endings

  /** The refused calls, each with its reason; at most 100 threads exist at a time. */
  predicate Refused(s: State, a: Action, f: Failure) {
    match f
    case NullEntryPoint => a == Spawn(false)
    case ThreadLimit => a == Spawn(true) && forall t :: 0 <= t < 100 ==> t in s.threads
    case InvalidTid => (a.Terminate? || a.Block? || a.Resume?) && !(0 <= a.tid < 100)
    case CannotBlockMain => a == Block(0)
    case NoSuchThread =>
      && (a.Terminate? || (a.Block? && a.tid != 0) || a.Resume?)
      && 0 <= a.tid < 100 && a.tid !in s.threads
    case NonPositiveQuantums => a.Sleep? && a.numQuantums <= 0
    case MainCannotSleep => a.Sleep? && a.numQuantums > 0 && s.current == 0
    case NoThreadsLeft => false
  }

  /** Only terminating main ends the process, and it does so whoever calls. */
  lemma ExitsExactly(v: Version, s: State, a: Action)
    requires 0 in s.threads
    ensures Step(v, s, a).Exit? <==> a == Terminate(0)
  {
  }

  /** The run gets to carry out the action `a`. */
  ghost predicate Executes(v: Version, s: State, acts: seq<Action>, a: Action)
    decreases |acts|
  {
    && acts != []
    && (acts[0] == a || (Step(v, s, acts[0]).Done? && Executes(v, Step(v, s, acts[0]).next, acts[1..], a)))
  }

  lemma {:induction false} RunExits(v: Version, s: State, acts: seq<Action>)
    requires AllRuns.MainSchedulable(s)
    ensures RunFrom(v, s, acts).Exit? <==> Executes(v, s, acts, Terminate(0))
    decreases |acts|
  {
    if acts == [] {
    } else {
      ExitsExactly(v, s, acts[0]);
      if Step(v, s, acts[0]).Done? {
        AllRuns.StepKeepsMain(v, s, acts[0]);
        RunExits(v, Step(v, s, acts[0]).next, acts[1..]);
      }
    }
  }

  /** From initialisation a run, whatever its calls, ends the process if and only if it terminates main. */
  lemma InitRunExits(v: Version, acts: seq<Action>)
    ensures RunFrom(v, Init(), acts).Exit? <==> Executes(v, Init(), acts, Terminate(0))
  {
    RunExits(v, Init(), acts);
  }

  /** From the invariant, a step with a proper visiting order is undefined exactly if it is a sleep call whose deadline
      overflows. */
  lemma CrashesExactly(v: Version, s: State, a: Action)
    requires Sound(v, s) && (a.Tick? ==> IsOrder(s, a.order))
    ensures Step(v, s, a).Crash? <==> Sleeps(s, a) && s.total + a.numQuantums > 0x7FFF_FFFF
  {
    if Feasible(s, a) {
      StepSoundExactly(v, s, a);
    }
  }

  lemma NoFreeTid(s: State)
    ensures FreeTid(s.threads, 0) == -1 <==> forall t :: 0 <= t < MAX_THREAD_NUM ==> t in s.threads
  {
  }

  lemma AcceptedUnlessRefused(s: State, a: Action)
    ensures Accepted(s, a) <==> forall f :: !Refused(s, a, f)
  {
    NoFreeTid(s);
    match a
    case Spawn(_) => assert !Accepted(s, a) ==> Refused(s, a, NullEntryPoint) || Refused(s, a, ThreadLimit);
    case Terminate(t) => assert !Accepted(s, a) ==> Refused(s, a, InvalidTid) || Refused(s, a, NoSuchThread);
    case Block(t) =>
      assert !Accepted(s, a) ==>
          Refused(s, a, InvalidTid) || Refused(s, a, CannotBlockMain) || Refused(s, a, NoSuchThread);
    case Resume(t) => assert !Accepted(s, a) ==> Refused(s, a, InvalidTid) || Refused(s, a, NoSuchThread);
    case Sleep(n) => assert !Accepted(s, a) ==> Refused(s, a, NonPositiveQuantums) || Refused(s, a, MainCannotSleep);
    case Tick(_) =>
  }

  /** The reply to a call that does not run out of threads. */
  ghost predicate Answers(s: State, a: Action, o: Outcome) {
    o.Done? && o.reply != Error(NoThreadsLeft) ==>
      && (forall f :: o.reply == Error(f) <==> Refused(s, a, f))
      && (o.reply.Error? ==> o.next == s)
      && (o.reply.Ok? ==> o.reply.value == if a.Spawn? then FreeTid(s.threads, 0) else 0)
  }

  lemma TerminateAnswers(v: Version, s: State, t: int)
    ensures Answers(s, Terminate(t), Step(v, s, Terminate(t)))
  {
  }

  lemma BlockAnswers(v: Version, s: State, t: int)
    ensures Answers(s, Block(t), Step(v, s, Block(t)))
  {
  }

  lemma ResumeAnswers(v: Version, s: State, t: int)
    ensures Answers(s, Resume(t), Step(v, s, Resume(t)))
  {
  }

  lemma SleepAnswers(v: Version, s: State, n: int)
    ensures Answers(s, Sleep(n), Step(v, s, Sleep(n)))
  {
  }

  lemma SpawnAnswers(v: Version, s: State, e: bool)
    ensures Answers(s, Spawn(e), Step(v, s, Spawn(e)))
  {
    NoFreeTid(s);
  }

  /** A call fails exactly if it is one of the refused ones; it then changes nothing and names the reason. Any other
      call that returns succeeds, and reports 0 or, for spawn, the new tid. Either version, every state in which main
      can be scheduled. */
  lemma RepliesExactly(v: Version, s: State, a: Action)
    requires AllRuns.MainSchedulable(s) && Step(v, s, a).Done?
    ensures var o := Step(v, s, a);
            && (forall f :: o.reply == Error(f) <==> Refused(s, a, f))
            && (o.reply.Error? ==> o.next == s)
            && (o.reply.Ok? ==> o.reply.value == if a.Spawn? then FreeTid(s.threads, 0) else 0)
  {
    AllRuns.StepKeepsMain(v, s, a);
    match a
    case Spawn(e) => SpawnAnswers(v, s, e);
    case Terminate(t) => TerminateAnswers(v, s, t);
    case Block(t) => BlockAnswers(v, s, t);
    case Resume(t) => ResumeAnswers(v, s, t);
    case Sleep(n) => SleepAnswers(v, s, n);
    case Tick(_) =>
  }
}
