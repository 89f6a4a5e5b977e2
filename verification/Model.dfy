/** The state of the thread library as a value, and what each API call and each timer tick does to it. */
module Model {
  import opened Queues

  const MAX_THREAD_NUM: int := 100
  const NO_PENDING: int := -1
  const INT_MAX: int := 0x7FFF_FFFF

  datatype Option<+T> = None | Some(value: T)

  datatype ThreadState = READY | RUNNING | BLOCKED

  /** The part of a thread object that scheduling depends on. */
  datatype Record = Record(state: ThreadState, quantums: int, userBlocked: bool)

  /** The scheduler's static fields. The last two fields are bookkeeping that no step consults (see
      AllRuns.BookkeepingIsInert): threads that have terminated themselves and are still in the map, and the sum of
      the final quantum counts of all deleted threads. */
  datatype State = State(
    threads: map<int, Record>,
    queue: seq<int>,
    sleeping: map<int, int>,
    current: int,
    pending: int,
    total: int,
    zombies: set<int>,
    retired: int)

  /** AsWritten is the code. AsMeant differs in two places, marked below: it requeues the outgoing thread only if it
      is still RUNNING, and resuming a thread clears its user-block flag. */
  datatype Version = AsWritten | AsMeant

  datatype Failure =
    | InvalidTid | NoSuchThread | CannotBlockMain | NullEntryPoint | NonPositiveQuantums | MainCannotSleep
    | ThreadLimit | NoThreadsLeft

  /** Error stands for the return value -1, with the message printed. */
  datatype Reply = Ok(value: int) | Error(failure: Failure)

  /** A call returns (possibly after a switch, to a caller that runs later), ends the process, or runs into undefined
      behaviour: it dereferences the null pointer that looking up a missing tid yields, or a sleep deadline overflows
      its 32-bit integer. */
  datatype Outcome = Done(next: State, reply: Reply) | Exit | Crash

  /** One API call by the current thread, or one timer signal. A tick carries the order in which the unordered map of
      sleepers happens to be visited. */
  datatype Action =
    | Spawn(hasEntryPoint: bool)
    | Terminate(tid: int)
    | Block(tid: int)
    | Resume(tid: int)
    | Sleep(numQuantums: int)
    | Tick(order: seq<int>)

  function Init(): State {
    State(map[0 := Record(RUNNING, 1, false)], [], map[], 0, NO_PENDING, 1, {}, 0)
  }

  function WithState(s: State, t: int, st: ThreadState): State
    requires t in s.threads
  {
    s.(threads := s.threads[t := s.threads[t].(state := st)])
  }

  function WithFlag(s: State, t: int, flag: bool): State
    requires t in s.threads
  {
    s.(threads := s.threads[t := s.threads[t].(userBlocked := flag)])
  }

  /** One more quantum on the count of `t`. */
  function Counted(s: State, t: int): State
    requires t in s.threads
  {
    s.(threads := s.threads[t := s.threads[t].(quantums := s.threads[t].quantums + 1)])
  }

  /** Deleting the object of `t` and erasing its entry; erasing an absent tid changes nothing. */
  function Delete(s: State, t: int): State {
    if t in s.threads then
      s.(threads := s.threads - {t}, zombies := s.zombies - {t}, retired := s.retired + s.threads[t].quantums)
    else s
  }

  function Reclaim(s: State): State {
    if s.pending != NO_PENDING then Delete(s, s.pending).(pending := NO_PENDING) else s
  }

  predicate Requeues(v: Version, s: State)
    requires s.current in s.threads
  {
    && s.current != s.pending
    && |s.threads| > 1
    && (v.AsMeant? ==> s.threads[s.current].state == RUNNING)  // AsMeant only
  }

  function Requeue(v: Version, s: State): State
    requires s.current in s.threads
  {
    if Requeues(v, s) then WithState(s, s.current, READY).(queue := s.queue + [s.current]) else s
  }

  /** The thread that a dispatch makes current. */
  function Next(s: State): int {
    if s.queue == [] then s.current else s.queue[0]
  }

  /** The head of the queue, if there is one, has become current and RUNNING. */
  function HeadTaken(s: State): State
    requires Next(s) in s.threads
  {
    if s.queue == [] then s
    else WithState(s, s.queue[0], RUNNING).(current := s.queue[0], queue := s.queue[1..])
  }

  /** The next thread has started its quantum and nothing has been reclaimed yet. */
  function Started(s: State): State
    requires Next(s) in s.threads
  {
    Counted(HeadTaken(s), Next(s)).(total := s.total + 1)
  }

  /** The switch after the requeue: the next thread starts a quantum. A thread that has run before continues behind its
      saved jump point and reclaims the pending thread; a fresh one starts at its entry point. */
  function Dispatch(s: State): Option<State> {
    if Next(s) !in s.threads then None
    else Some(if s.threads[Next(s)].quantums == 0 then Started(s) else Reclaim(Started(s)))
  }

  function Switch(v: Version, s: State): Option<State> {
    if s.current !in s.threads then None else Dispatch(Requeue(v, s))
  }

  function Switched(o: Option<State>): Outcome {
    match o
    case Some(s) => Done(s, Ok(0))
    case None => Crash
  }

  predicate Expired(s: State, t: int) {
    t in s.sleeping && s.sleeping[t] <= s.total
  }

  function WakeOne(s: State, t: int): Option<State> {
    if !Expired(s, t) then Some(s)
    else if t !in s.threads then None
    else
      var woken := if s.threads[t].userBlocked then s else WithState(s, t, READY).(queue := s.queue + [t]);
      Some(woken.(sleeping := s.sleeping - {t}))
  }

  /** The wake loop over the sleepers in the given order. */
  function WakeAll(s: State, order: seq<int>): Option<State> {
    if order == [] then Some(s)
    else
      match WakeAll(s, order[..|order| - 1])
      case None => None
      case Some(s') => WakeOne(s', order[|order| - 1])
  }

  function TimerTick(v: Version, s: State, order: seq<int>): Outcome {
    match WakeAll(s, order)
    case None => Crash
    case Some(s') => Switched(Switch(v, s'))
  }

  /** The smallest tid from `from` on that is not in use, or -1. */
  function FreeTid(threads: map<int, Record>, from: nat): (t: int)
    requires from <= MAX_THREAD_NUM
    ensures t == -1 || (from <= t < MAX_THREAD_NUM && t !in threads)
    ensures forall u :: from <= u < (if t == -1 then MAX_THREAD_NUM else t) ==> u in threads
    decreases MAX_THREAD_NUM - from
  {
    if from == MAX_THREAD_NUM then -1
    else if from !in threads then from
    else FreeTid(threads, from + 1)
  }

  function SpawnThread(s: State): Outcome {
    var t := FreeTid(s.threads, 0);
    if t == -1 then Done(s, Error(ThreadLimit))
    else Done(s.(threads := s.threads[t := Record(READY, 0, false)], queue := s.queue + [t]), Ok(t))
  }

  function LeaveQueue(s: State, t: int): State
    requires t in s.threads
  {
    if s.threads[t].state == READY then s.(queue := Without(s.queue, t)) else s
  }

  /** The running thread `t` about to be switched out: marked for deletion, blocked by itself, or put to sleep. */
  function MarkedForDeletion(s: State, t: int): State
    requires t in s.threads
  {
    WithState(s, t, READY).(pending := t, zombies := s.zombies + {t})
  }

  function UserBlocked(s: State, t: int): State
    requires t in s.threads
  {
    WithFlag(WithState(s, t, BLOCKED), t, true)
  }

  function FallenAsleep(s: State, n: int): State
    requires s.current in s.threads
  {
    WithState(s, s.current, BLOCKED).(sleeping := s.sleeping[s.current := s.total + n])
  }

  function TerminateThread(v: Version, s: State, t: int): Outcome
    requires t in s.threads
  {
    if t == 0 then Exit
    else
      var s1 := LeaveQueue(s, t);
      if t != s.current then Done(Delete(s1.(sleeping := s1.sleeping - {t}), t), Ok(0))
      else if s1.queue == [] then Done(s1, Error(NoThreadsLeft))
      else Switched(Switch(v, MarkedForDeletion(s1, t)))
  }

  function BlockThread(v: Version, s: State, t: int): Outcome
    requires t in s.threads
  {
    var r := s.threads[t];
    if r.userBlocked then Done(s, Ok(0))
    else if r.state != RUNNING then Done(UserBlocked(LeaveQueue(s, t), t), Ok(0))
    else if t == s.current then
      if s.queue == [] then Done(s, Error(NoThreadsLeft))
      else Switched(Switch(v, UserBlocked(s, t)))
    else Done(s, Ok(0))
  }

  function ResumeThread(v: Version, s: State, t: int): Outcome
    requires t in s.threads
  {
    if s.threads[t].state != BLOCKED then Done(s, Ok(0))
    else if t in s.sleeping then Done(WithFlag(s, t, false), Ok(0))
    else
      var s1 := WithState(s, t, READY);
      var s2 := if v.AsMeant? then WithFlag(s1, t, false) else s1;  // AsMeant only
      Done(s2.(queue := s.queue + [t]), Ok(0))
  }

  function SleepThread(v: Version, s: State, n: int): Outcome {
    if s.current !in s.threads || s.total + n > INT_MAX then Crash
    else if s.queue == [] then
      Done(WithState(s, s.current, RUNNING).(sleeping := s.sleeping - {s.current}), Error(NoThreadsLeft))
    else Switched(Switch(v, FallenAsleep(s, n)))
  }

  /** The argument guard shared by the calls that name a thread. */
  function TidGuard(s: State, t: int): Option<Failure> {
    if t < 0 || t >= MAX_THREAD_NUM then Some(InvalidTid)
    else if t !in s.threads then Some(NoSuchThread)
    else None
  }

  function BlockGuard(s: State, t: int): Option<Failure> {
    if t < 0 || t >= MAX_THREAD_NUM then Some(InvalidTid)
    else if t == 0 then Some(CannotBlockMain)
    else if t !in s.threads then Some(NoSuchThread)
    else None
  }

  /** What one action does, guards included. */
  function Step(v: Version, s: State, a: Action): Outcome {
    match a
    case Spawn(hasEntryPoint) =>
      if hasEntryPoint then SpawnThread(s) else Done(s, Error(NullEntryPoint))
    case Terminate(t) =>
      if TidGuard(s, t).Some? then Done(s, Error(TidGuard(s, t).value)) else TerminateThread(v, s, t)
    case Block(t) =>
      if BlockGuard(s, t).Some? then Done(s, Error(BlockGuard(s, t).value)) else BlockThread(v, s, t)
    case Resume(t) =>
      if TidGuard(s, t).Some? then Done(s, Error(TidGuard(s, t).value)) else ResumeThread(v, s, t)
    case Sleep(n) =>
      if n <= 0 then Done(s, Error(NonPositiveQuantums))
      else if s.current == 0 then Done(s, Error(MainCannotSleep))
      else SleepThread(v, s, n)
    case Tick(order) => TimerTick(v, s, order)
  }
}
