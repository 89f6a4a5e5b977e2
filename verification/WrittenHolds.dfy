/** AsWritten: what deadline, flag and status of a thread do over whole runs, sleepers included, and the calls a
    thread makes on itself. */
module WrittenHolds {
  import opened Maps
  import opened Model
  import opened Runs
  import opened Fairness
  import opened Invariant
  import opened Reference
  import opened Sleepers
  import opened Soundness
  import Crowding
  import Safety

  // ---------------------------------------------------------------- the automaton

  datatype Hold = Hold(wakeAt: Option<int>, held: bool, blocked: bool)

  /** A reference automaton for thread `t`, which sees only the clock and who is running. Unlike in AsMeant the three
      parts depend on one another: a block is ignored while the flag is set and does not block the caller itself, a
      resume is ignored unless the thread is blocked and clears the flag only if it is asleep, and a sleeper is not
      blocked. */
  function HoldStep(h: Hold, t: int, total: int, current: int, a: Action): Hold {
    match a
    case Block(u) => if u == t && !h.held then h.(held := true, blocked := current != t) else h
    case Resume(u) =>
      if u != t || !h.blocked then h
      else if h.wakeAt.Some? then h.(held := false)
      else h.(blocked := false)
    case Sleep(n) => if current == t && n > 0 then h.(wakeAt := Some(total + n)) else h
    case Tick(_) =>
      if h.wakeAt.Some? && h.wakeAt.value <= total then Hold(None, h.held, h.blocked && h.held) else h
    case _ => h
  }

  function HoldOf(s: State, t: int): Hold
    requires t in s.threads
  {
    Hold(Deadline(s, t), s.threads[t].userBlocked, s.threads[t].state == BLOCKED)
  }

  function HoldRun(h: Hold, t: int, s: State, acts: seq<Action>): Hold
    decreases |acts|
  {
    if acts == [] then h
    else
      match Step(AsWritten, s, acts[0])
      case Done(n, _) => HoldRun(HoldStep(h, t, s.total, s.current, acts[0]), t, n, acts[1..])
      case _ => h
  }

  lemma StillLive(s: State, a: Action, t: int)
    requires Weak(s) && Safe(s, a) && Step(AsWritten, s, a).Done? && Live(s, t) && a != Terminate(t)
    ensures t !in Step(AsWritten, s, a).next.zombies
  {
    if SelfTermination(s, a) {
      Safety.SelfTerminationStep(AsWritten, s);
    } else {
      Safety.WeakIsBooked(s);
      Safety.ZombieStep(AsWritten, s, a);
    }
  }

  lemma StillPresent(s: State, a: Action, t: int)
    requires Weak(s) && Feasible(s, a) && Live(s, t) && a != Terminate(t)
    ensures PresentAfter(AsWritten, s, a, t)
  {
  }

  /** No BLOCKED thread is dispatched, unless this very tick wakes it. */
  lemma DispatchedReady(s: State, a: Action, t: int)
    requires Weak(s) && Feasible(s, a) && EndsQuantum(s, a) && t == CurrentAfter(AsWritten, s, a) && t in s.threads
    ensures s.threads[t].state != BLOCKED || t in Arrivals(s, a)
  {
    var line := Line(AsWritten, s, a);
    if line != [] {
      assert t in line;
      assert t in s.queue || t in Arrivals(s, a) || t == s.current;
    }
    if t != s.current {
      assert Parked(s, t);
    }
  }

  lemma ArrivesDue(s: State, order: seq<int>, t: int)
    requires Weak(s) && IsOrder(s, order) && t in s.threads
    ensures t in Arrivals(s, Tick(order)) <==>
            t in s.sleeping && s.sleeping[t] <= s.total && !s.threads[t].userBlocked
  {
    WokenMembers(s, order);
  }

  lemma RecordHold(s: State, a: Action, t: int)
    requires Weak(s) && Feasible(s, a) && Live(s, t) && t != 0 && a != Terminate(t)
    ensures Hold(DeadlineAfter(s, a, t), FlagAfter(AsWritten, s, a, t), StateAfter(AsWritten, s, a, t) == BLOCKED) ==
            HoldStep(HoldOf(s, t), t, s.total, s.current, a)
  {
    if EndsQuantum(s, a) && t == CurrentAfter(AsWritten, s, a) {
      DispatchedReady(s, a, t);
    }
    if t == s.current {
      NotAlone(s);
    }
    if a.Tick? {
      ArrivesDue(s, a.order, t);
    }
  }

  /** One step of the scheduler is one step of the automaton. */
  lemma StepHold(s: State, a: Action, t: int)
    requires Weak(s) && Safe(s, a) && Step(AsWritten, s, a).Done?
    requires Live(s, t) && t != 0 && a != Terminate(t)
    ensures Live(Step(AsWritten, s, a).next, t)
    ensures HoldOf(Step(AsWritten, s, a).next, t) == HoldStep(HoldOf(s, t), t, s.total, s.current, a)
  {
    var n := Step(AsWritten, s, a).next;
    StepMeets(AsWritten, s, a);
    assert MeetsFor(AsWritten, s, a, n, t);
    StillPresent(s, a, t);
    StillLive(s, a, t);
    RecordHold(s, a, t);
  }

  /** Over every sound run that does not terminate `t`, sleep calls included, deadline, flag and status of `t` are the
      automaton's, and `t` is running or queued exactly if it is not BLOCKED. */
  lemma {:induction false} HoldRefined(s: State, acts: seq<Action>, t: int)
    requires Weak(s) && SoundRun(AsWritten, s, acts) && RunFrom(AsWritten, s, acts).Done?
    requires Live(s, t) && t != 0 && Terminate(t) !in acts
    ensures var n := RunFrom(AsWritten, s, acts).next;
            && Weak(n) && Live(n, t) && HoldOf(n, t) == HoldRun(HoldOf(s, t), t, s, acts)
            && (n.threads[t].state != BLOCKED <==> t == n.current || t in n.queue)
    decreases |acts|
  {
    if acts == [] {
      if t != s.current {
        assert Parked(s, t);
      }
    } else {
      StepWeak(s, acts[0]);
      StepHold(s, acts[0], t);
      HoldRefined(Step(AsWritten, s, acts[0]).next, acts[1..], t);
    }
  }

  // ---------------------------------------------------------------- calls a thread makes on itself

  /** A set flag makes a block of any live thread but main, the caller included, do nothing. Either version. */
  lemma FlaggedBlockIgnored(v: Version, s: State, t: int)
    requires Weak(s) && Live(s, t) && t != 0 && s.threads[t].userBlocked
    ensures Step(v, s, Block(t)) == Done(s, Ok(0))
  {
    assert BlockGuard(s, t).None?;
  }

  lemma SelfBlockLine(s: State)
    requires Weak(s) && s.current != 0 && !s.threads[s.current].userBlocked
    ensures var a := Block(s.current);
            EndsQuantum(s, a) && s.queue != [] && Line(AsWritten, s, a) == s.queue + [s.current]
  {
    MainQueuedWeak(s);
    NotAlone(s);
  }

  lemma SelfBlockFor(s: State, n: State, t: int)
    requires Weak(s) && s.current != 0 && !s.threads[s.current].userBlocked
    requires MeetsFor(AsWritten, s, Block(s.current), n, t)
    ensures Deadline(n, t) == Deadline(s, t)
    ensures t == s.current ==> t in n.threads && n.threads[t].userBlocked
  {
    if t == s.current {
      StillPresent(s, Block(t), t);
    }
  }

  /** An unflagged thread that blocks itself gets its flag and is last in the queue after the switch, which takes the
      head of the queue. */
  lemma SelfBlockSwitches(s: State) returns (n: State)
    requires Weak(s) && s.current != 0 && !s.threads[s.current].userBlocked
    ensures Step(AsWritten, s, Block(s.current)) == Done(n, Ok(0)) && n.total == s.total + 1
    ensures s.queue != [] && n.current == s.queue[0] && n.queue == s.queue[1..] + [s.current]
    ensures s.current in n.threads && n.threads[s.current].userBlocked && n.sleeping == s.sleeping
  {
    BlockSelfWeak(s);
    n := Step(AsWritten, s, Block(s.current)).next;
    RepliesExactly(AsWritten, s, Block(s.current));
    StepMeets(AsWritten, s, Block(s.current));
    SelfBlockLine(s);
    assert (s.queue + [s.current])[1..] == s.queue[1..] + [s.current];
    forall t
      ensures Deadline(n, t) == Deadline(s, t)
      ensures t == s.current ==> t in n.threads && n.threads[t].userBlocked
    {
      SelfBlockFor(s, n, t);
    }
    SameDeadlines(n, s);
  }

  lemma SameDeadlines(n: State, s: State)
    requires forall t :: Deadline(n, t) == Deadline(s, t)
    ensures n.sleeping == s.sleeping
  {
    forall t ensures t in n.sleeping <==> t in s.sleeping {
      assert Deadline(n, t) == Deadline(s, t);
    }
    forall t | t in n.sleeping ensures n.sleeping[t] == s.sleeping[t] {
      assert Deadline(n, t) == Deadline(s, t);
    }
    SameMap(n.sleeping, s.sleeping);
  }

  lemma SleeperDeadlines(s: State, n: int, m: State)
    requires n > 0 && s.current != 0 && forall t :: MeetsFor(AsWritten, s, Sleep(n), m, t)
    ensures m.sleeping == s.sleeping[s.current := s.total + n]
  {
    var e := s.(sleeping := s.sleeping[s.current := s.total + n]);
    forall t ensures Deadline(m, t) == Deadline(e, t) {
      assert MeetsFor(AsWritten, s, Sleep(n), m, t);
    }
    SameDeadlines(m, e);
  }

  /** A sleep call sets the caller's deadline and no other, whether the caller is still asleep from an earlier call or
      not. */
  lemma SleepSetsDeadline(s: State, n: int)
    requires Weak(s) && s.current != 0 && 0 < n <= INT_MAX - s.total
    ensures Step(AsWritten, s, Sleep(n)).Done?
    ensures Step(AsWritten, s, Sleep(n)).next.sleeping == s.sleeping[s.current := s.total + n]
  {
    SleepWeak(s, n);
    StepMeets(AsWritten, s, Sleep(n));
    SleeperDeadlines(s, n, Step(AsWritten, s, Sleep(n)).next);
  }

  // ---------------------------------------------------------------- the end of a sleep

  /** Some tick of the run finds the deadline `d` due. */
  ghost predicate ExpiredIn(s: State, acts: seq<Action>, d: int)
    decreases |acts|
  {
    acts != [] && ((acts[0].Tick? && d <= s.total)
                   || (Step(AsWritten, s, acts[0]).Done? && ExpiredIn(Step(AsWritten, s, acts[0]).next, acts[1..], d)))
  }

  /** `t` calls sleep again within the run. */
  ghost predicate SleepsAgain(s: State, acts: seq<Action>, t: int)
    decreases |acts|
  {
    acts != [] && ((Sleeps(s, acts[0]) && s.current == t)
                   || (Step(AsWritten, s, acts[0]).Done? &&
                       SleepsAgain(Step(AsWritten, s, acts[0]).next, acts[1..], t)))
  }

  /** A deadline stays as it is until it is found due, the thread sleeps again, or it is terminated. */
  lemma {:induction false} DeadlineStays(s: State, acts: seq<Action>, t: int)
    requires Weak(s) && SoundRun(AsWritten, s, acts) && RunFrom(AsWritten, s, acts).Done?
    requires Live(s, t) && t != 0 && Terminate(t) !in acts
    requires t in s.sleeping && !ExpiredIn(s, acts, s.sleeping[t]) && !SleepsAgain(s, acts, t)
    ensures var n := RunFrom(AsWritten, s, acts).next;
            Weak(n) && Live(n, t) && t in n.sleeping && n.sleeping[t] == s.sleeping[t]
    decreases |acts|
  {
    if acts == [] {
    } else {
      StepWeak(s, acts[0]);
      StepHold(s, acts[0], t);
      var n := Step(AsWritten, s, acts[0]).next;
      assert Deadline(n, t) == Deadline(s, t);
      DeadlineStays(n, acts[1..], t);
    }
  }

  /** The sleep of `t` ends with the step from `b` to the outcome `o`: its entry is erased, and if its flag is clear
      it has exactly one more entry in the ring; if not, its entries and its status are as before. */
  ghost predicate SleepEnds(b: State, o: Outcome, t: int) {
    && o.Done? && Live(b, t) && Live(o.next, t) && t !in o.next.sleeping
    && Entries(o.next, t) == Entries(b, t) + (if b.threads[t].userBlocked then 0 else 1)
    && (o.next.threads[t].state == BLOCKED <==> b.threads[t].state == BLOCKED && b.threads[t].userBlocked)
  }

  lemma DueTick(b: State, order: seq<int>, t: int)
    requires Weak(b) && IsOrder(b, order) && Live(b, t) && t != 0 && t in b.sleeping && b.sleeping[t] <= b.total
    ensures SleepEnds(b, Step(AsWritten, b, Tick(order)), t)
  {
    TickWeak(b, order);
    StepHold(b, Tick(order), t);
    Crowding.TickEntries(b, order, t);
    assert Crowding.WokenNow(b, t) <==> !b.threads[t].userBlocked;
  }

  /** The run `pre` leads from `m` to `b`, and along it the deadline `d` of `t` is not found due, nor does `t` end or
      sleep again. */
  ghost predicate SleepsOn(m: State, pre: seq<Action>, b: State, t: int, d: int) {
    && SoundRun(AsWritten, m, pre) && RunFrom(AsWritten, m, pre) == Done(b, Ok(0))
    && Terminate(t) !in pre && !ExpiredIn(m, pre, d) && !SleepsAgain(m, pre, t)
  }

  lemma FirstDueTick(m: State, pre: seq<Action>, b: State, order: seq<int>, t: int, d: int)
    requires Weak(m) && Live(m, t) && t != 0 && t in m.sleeping && m.sleeping[t] == d
    requires SleepsOn(m, pre, b, t, d) && b.total >= d && IsOrder(b, order)
    ensures t in b.sleeping && b.sleeping[t] == d
    ensures SleepEnds(b, Step(AsWritten, b, Tick(order)), t)
  {
    DeadlineStays(m, pre, t);
    DueTick(b, order, t);
  }

  /** The current thread of `s` calls sleep(n), and `m` comes out of the switch. */
  ghost predicate GoesToSleep(s: State, n: int, m: State) {
    Weak(s) && s.current != 0 && 0 < n <= INT_MAX - s.total && Step(AsWritten, s, Sleep(n)) == Done(m, Ok(0))
  }

  lemma CallerAsleep(s: State, n: int, m: State)
    requires GoesToSleep(s, n, m)
    ensures s.current != 0 && Weak(m) && Live(m, s.current)
    ensures s.current in m.sleeping && m.sleeping[s.current] == s.total + n
  {
    SleepWeak(s, n);
    SleepSetsDeadline(s, n);
    assert Live(m, s.current);
  }

  /** AsWritten, a thread that calls sleep(n) in quantum T keeps that deadline, and no other, up to the first tick that
      finds the total at least T+n, unless it is terminated or sleeps again first. That tick ends its sleep. */
  lemma WokenByFirstDueTick(s: State, n: int, m: State, pre: seq<Action>, b: State, order: seq<int>)
    requires GoesToSleep(s, n, m)
    ensures var t, d := s.current, s.total + n;
            SleepsOn(m, pre, b, t, d) && b.total >= d && IsOrder(b, order) ==>
              t in b.sleeping && b.sleeping[t] == d && SleepEnds(b, Step(AsWritten, b, Tick(order)), t)
  {
    CallerAsleep(s, n, m);
    var t, d := s.current, s.total + n;
    if SleepsOn(m, pre, b, t, d) && b.total >= d && IsOrder(b, order) {
      FirstDueTick(m, pre, b, order, t, d);
    }
  }
}
