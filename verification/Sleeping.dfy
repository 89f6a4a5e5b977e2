/** AsMeant: sleeping and user-blocking are independent holds on a thread, and a sleeper stays off the processor for
    the quantums it asked for. */
module Sleeping {
  import opened Queues
  import opened Model
  import opened Runs
  import opened Invariant
  import opened Waiting
  import Safety
  import Sleepers

  /** What keeps a thread blocked: a deadline, and the user. */
  datatype Hold = Hold(wakeAt: Option<int>, held: bool)

  /** A two-part reference automaton for thread `t`. Of the scheduler it sees only the clock and who is running: the
      user's hold is set by block and cleared by resume, the deadline is set by sleep and cleared by a tick that finds
      it due, and neither affects the other. */
  function HoldStep(h: Hold, t: int, total: int, current: int, a: Action): Hold {
    match a
    case Block(u) => if u == t then h.(held := true) else h
    case Resume(u) => if u == t then h.(held := false) else h
    case Sleep(n) => if current == t && n > 0 then h.(wakeAt := Some(total + n)) else h
    case Tick(_) => if h.wakeAt.Some? && h.wakeAt.value <= total then h.(wakeAt := None) else h
    case _ => h
  }

  function HoldRun(h: Hold, t: int, s: State, acts: seq<Action>): Hold
    decreases |acts|
  {
    if acts == [] then h
    else
      match Step(AsMeant, s, acts[0])
      case Done(n, _) => HoldRun(HoldStep(h, t, s.total, s.current, acts[0]), t, n, acts[1..])
      case _ => h
  }

  /** The two holds as the scheduler stores them. */
  function HoldOf(s: State, t: int): Hold
    requires t in s.threads
  {
    Hold(if t in s.sleeping then Some(s.sleeping[t]) else None, s.threads[t].userBlocked)
  }

  ghost predicate SameHold(s: State, n: State, t: int)
    requires t in s.threads
  {
    t in n.threads && HoldOf(n, t) == HoldOf(s, t)
  }

  lemma DispatchHold(s: State, t: int)
    requires Dispatch(s).Some? && t in s.threads && t != s.pending
    ensures SameHold(s, Dispatch(s).value, t)
  {
    assert SameHold(s, Started(s), t);
  }

  lemma SwitchHold(v: Version, s: State, t: int)
    requires Switch(v, s).Some? && t in s.threads && t != s.pending
    ensures SameHold(s, Switch(v, s).value, t)
  {
    assert SameHold(s, Requeue(v, s), t);
    DispatchHold(Requeue(v, s), t);
  }

  lemma BlockHold(s: State, u: int, t: int)
    requires Inv(AsMeant, s) && u in s.threads && u != 0 && Live(s, t)
    ensures var o := BlockThread(AsMeant, s, u);
            && o.Done? && t in o.next.threads
            && HoldOf(o.next, t) == HoldStep(HoldOf(s, t), t, s.total, s.current, Block(u))
  {
    BlockInv(AsMeant, s, u);
    if u == s.current {
      assert Live(s, s.current) && !s.threads[u].userBlocked;
      SwitchHold(AsMeant, UserBlocked(s, u), t);
    }
  }

  lemma TerminateHold(s: State, u: int, t: int)
    requires Inv(AsMeant, s) && u in s.threads && u != 0 && Live(s, t) && t != u
    ensures TerminateThread(AsMeant, s, u).Done? && SameHold(s, TerminateThread(AsMeant, s, u).next, t)
  {
    if u == s.current {
      TerminateSelfInv(AsMeant, s);
      SwitchHold(AsMeant, MarkedForDeletion(s, u), t);
    }
  }

  lemma SleepHold(s: State, n: int, t: int)
    requires Inv(AsMeant, s) && s.current != 0 && 0 < n <= INT_MAX - s.total && Live(s, t)
    ensures var o := SleepThread(AsMeant, s, n);
            && o.Done? && t in o.next.threads
            && HoldOf(o.next, t) == HoldStep(HoldOf(s, t), t, s.total, s.current, Sleep(n))
  {
    SleepInv(s, n);
    SwitchHold(AsMeant, FallenAsleep(s, n), t);
  }

  lemma WakeHold(s: State, order: seq<int>, t: int)
    requires Inv(AsMeant, s) && IsOrder(s, order) && Live(s, t)
    ensures WakeAll(s, order).Some? && Inv(AsMeant, WakeAll(s, order).value)
    ensures var w := WakeAll(s, order).value;
            && t in w.threads && t != w.pending
            && HoldOf(w, t) == HoldStep(HoldOf(s, t), t, s.total, s.current, Tick(order))
  {
    WakeLoop(s, order);
    assert t in s.threads.Keys;
  }

  lemma TickHold(s: State, order: seq<int>, t: int)
    requires Inv(AsMeant, s) && IsOrder(s, order) && Live(s, t)
    ensures var o := Step(AsMeant, s, Tick(order));
            && o.Done? && t in o.next.threads
            && HoldOf(o.next, t) == HoldStep(HoldOf(s, t), t, s.total, s.current, Tick(order))
  {
    WakeHold(s, order, t);
    var w := WakeAll(s, order).value;
    SwitchInv(AsMeant, w);
    SwitchHold(AsMeant, w, t);
  }

  lemma StillLive(s: State, a: Action, t: int)
    requires Inv(AsMeant, s) && Plain(AsMeant, s, a) && Step(AsMeant, s, a).Done?
    requires Live(s, t) && t != 0 && a != Terminate(t)
    ensures t !in Step(AsMeant, s, a).next.zombies
  {
    Sleepers.InvIsWeak(AsMeant, s);
    if SelfTermination(s, a) {
      Safety.SelfTerminationStep(AsMeant, s);
    } else {
      Safety.ZombieStep(AsMeant, s, a);
    }
  }

  /** One step of the scheduler is one step of the automaton. */
  lemma StepHold(s: State, a: Action, t: int)
    requires Inv(AsMeant, s) && Plain(AsMeant, s, a) && Step(AsMeant, s, a).Done?
    requires Live(s, t) && t != 0 && a != Terminate(t)
    ensures Live(Step(AsMeant, s, a).next, t)
    ensures HoldOf(Step(AsMeant, s, a).next, t) == HoldStep(HoldOf(s, t), t, s.total, s.current, a)
  {
    StepInv(AsMeant, s, a);
    StillLive(s, a, t);
    match a
    case Spawn(_) =>
    case Terminate(u) => if TidGuard(s, u).None? { TerminateHold(s, u, t); }
    case Block(u) => if BlockGuard(s, u).None? { BlockHold(s, u, t); }
    case Resume(_) =>
    case Sleep(n) => if n > 0 && s.current != 0 { SleepHold(s, n, t); }
    case Tick(order) => TickHold(s, order, t);
  }

  predicate Spares(acts: seq<Action>, t: int) {
    Terminate(t) !in acts
  }

  /** Over every plain run that does not terminate `t`, interleaved with anything else, the scheduler's holds on `t` are
      the automaton's; `t` is BLOCKED exactly while at least one of them is on, and otherwise it is running or queued,
      once. */
  lemma {:induction false} HoldRefined(s: State, acts: seq<Action>, t: int)
    requires Inv(AsMeant, s) && PlainRun(AsMeant, s, acts) && RunFrom(AsMeant, s, acts).Done?
    requires Live(s, t) && t != 0 && Spares(acts, t)
    ensures var n, h := RunFrom(AsMeant, s, acts).next, HoldRun(HoldOf(s, t), t, s, acts);
            && Live(n, t) && HoldOf(n, t) == h
            && (n.threads[t].state == BLOCKED <==> h.wakeAt.Some? || h.held)
            && (n.threads[t].state != BLOCKED <==> t == n.current || t in n.queue)
            && NoDup(n.queue) && n.current !in n.queue
    decreases |acts|
  {
    if acts == [] {
    } else {
      StepInv(AsMeant, s, acts[0]);
      StepHold(s, acts[0], t);
      HoldRefined(Step(AsMeant, s, acts[0]).next, acts[1..], t);
    }
  }

  // ---------------------------------------------------------------- the end of a hold

  /** Some tick of the run finds the deadline `d` due. */
  ghost predicate ExpiredIn(s: State, acts: seq<Action>, d: int)
    decreases |acts|
  {
    acts != [] && ((acts[0].Tick? && d <= s.total)
                   || (Step(AsMeant, s, acts[0]).Done? && ExpiredIn(Step(AsMeant, s, acts[0]).next, acts[1..], d)))
  }

  /** Both holds that `t` had in `s` have ended within the run. */
  ghost predicate Released(s: State, acts: seq<Action>, t: int)
    requires t in s.threads
  {
    && (t in s.sleeping ==> ExpiredIn(s, acts, s.sleeping[t]))
    && (s.threads[t].userBlocked ==> Resume(t) in acts)
  }

  lemma {:induction false} HeldUntilReleased(s: State, acts: seq<Action>, t: int)
    requires Inv(AsMeant, s) && PlainRun(AsMeant, s, acts) && RunFrom(AsMeant, s, acts).Done?
    requires Live(s, t) && t != 0 && Spares(acts, t) && Block(t) !in acts && !Released(s, acts, t)
    ensures var n := RunFrom(AsMeant, s, acts).next;
            && Inv(AsMeant, n) && Live(n, t) && n.threads[t].state == BLOCKED
            && HoldOf(n, t) == Hold(
                 if t in s.sleeping && !ExpiredIn(s, acts, s.sleeping[t]) then Some(s.sleeping[t]) else None,
                 s.threads[t].userBlocked && Resume(t) !in acts)
    decreases |acts|
  {
    if acts == [] {
    } else {
      var a, n := acts[0], Step(AsMeant, s, acts[0]).next;
      assert acts == [a] + acts[1..];
      StepInv(AsMeant, s, a);
      StepHold(s, a, t);
      assert s.threads[t].state == BLOCKED && t != s.current;
      HeldUntilReleased(n, acts[1..], t);
    }
  }

  lemma {:induction false} ExpiredAppend(s: State, acts: seq<Action>, a: Action, d: int)
    requires RunFrom(AsMeant, s, acts).Done?
    ensures ExpiredIn(s, acts + [a], d) <==>
            ExpiredIn(s, acts, d) || (a.Tick? && d <= RunFrom(AsMeant, s, acts).next.total)
    decreases |acts|
  {
    var all := acts + [a];
    if acts == [] {
      assert all == [a];
    } else {
      assert all[0] == acts[0] && all[1..] == acts[1..] + [a];
      ExpiredAppend(Step(AsMeant, s, acts[0]).next, acts[1..], a, d);
    }
  }

  lemma {:induction false} PlainSplit(v: Version, s: State, acts: seq<Action>, rest: seq<Action>)
    requires PlainRun(v, s, acts + rest)
    ensures PlainRun(v, s, acts)
    ensures RunFrom(v, s, acts).Done? ==> PlainRun(v, RunFrom(v, s, acts).next, rest)
    decreases |acts|
  {
    if acts == [] {
      assert acts + rest == rest;
    } else {
      assert (acts + rest)[0] == acts[0] && (acts + rest)[1..] == acts[1..] + rest;
      if Step(v, s, acts[0]).Done? {
        PlainSplit(v, Step(v, s, acts[0]).next, acts[1..], rest);
      }
    }
  }

  /** A thread that is asleep, user-blocked or both stays BLOCKED until the later of its expiry and its resume, whatever
      the order and whatever other threads do meanwhile; that very step puts it into the queue once, from which the same
      tick may dispatch it. */
  lemma ReleasedAtTheLater(s: State, pre: seq<Action>, a: Action, t: int)
    requires Inv(AsMeant, s) && PlainRun(AsMeant, s, pre + [a]) && RunFrom(AsMeant, s, pre + [a]).Done?
    requires Live(s, t) && t != 0 && Spares(pre + [a], t) && Block(t) !in pre + [a] && !Released(s, pre, t)
    ensures RunFrom(AsMeant, s, pre).Done?
    ensures var m := RunFrom(AsMeant, s, pre).next;
            Live(m, t) && m.threads[t].state == BLOCKED && m.current != t && t !in m.queue
    ensures var n := RunFrom(AsMeant, s, pre + [a]).next;
            && Live(n, t) && NoDup(n.queue)
            && (n.threads[t].state == BLOCKED <==> !Released(s, pre + [a], t))
            && (n.threads[t].state != BLOCKED ==> if n.current == t then t !in n.queue else t in n.queue)
  {
    RunConcat(AsMeant, s, pre, [a]);
    PlainSplit(AsMeant, s, pre, [a]);
    HeldUntilReleased(s, pre, t);
    var m := RunFrom(AsMeant, s, pre).next;
    StepInv(AsMeant, m, a);
    StepHold(m, a, t);
    if t in s.sleeping {
      ExpiredAppend(s, pre, a, s.sleeping[t]);
    }
    assert Resume(t) in pre + [a] <==> Resume(t) in pre || a == Resume(t);
  }

  // ---------------------------------------------------------------- sleep(n)

  lemma {:induction false} SleeperOff(s: State, acts: seq<Action>, t: int)
    requires Inv(AsMeant, s) && PlainRun(AsMeant, s, acts) && RunFrom(AsMeant, s, acts).Done?
    requires t in s.sleeping && Spares(acts, t) && RunFrom(AsMeant, s, acts).next.total <= s.sleeping[t]
    ensures var n := RunFrom(AsMeant, s, acts).next;
            n.current != t && t !in n.queue && t in n.sleeping && n.sleeping[t] == s.sleeping[t]
    decreases |acts|
  {
    assert Live(s, t) && t != s.current && t !in s.queue;
    if acts == [] {
    } else {
      var n := Step(AsMeant, s, acts[0]).next;
      StepInv(AsMeant, s, acts[0]);
      StepHold(s, acts[0], t);
      StepTime(AsMeant, s, acts[0]);
      RunTime(AsMeant, n, acts[1..]);
      SleeperOff(n, acts[1..], t);
    }
  }

  lemma SleepStarts(s: State, n: int)
    requires Inv(AsMeant, s) && s.current != 0 && 0 < n <= INT_MAX - s.total
    ensures var o := Step(AsMeant, s, Sleep(n));
            && o.Done? && Inv(AsMeant, o.next) && Live(o.next, s.current) && s.current in o.next.sleeping
            && o.next.sleeping[s.current] == s.total + n && !o.next.threads[s.current].userBlocked
  {
    assert Live(s, s.current) && !s.threads[s.current].userBlocked;
    assert Plain(AsMeant, s, Sleep(n));
    SleepInv(s, n);
    StepInv(AsMeant, s, Sleep(n));
    StepHold(s, Sleep(n), s.current);
  }

  /** A thread that calls sleep(n) in quantum T is the current thread in none of the quantums T+1 .. T+n, whatever calls
      and ticks happen, unless it is terminated. */
  lemma SleeperNotScheduled(s: State, n: int, m: State, acts: seq<Action>)
    requires Inv(AsMeant, s) && s.current != 0 && 0 < n <= INT_MAX - s.total
    requires Step(AsMeant, s, Sleep(n)) == Done(m, Ok(0))
    requires PlainRun(AsMeant, m, acts) && RunFrom(AsMeant, m, acts).Done? && Spares(acts, s.current)
    requires RunFrom(AsMeant, m, acts).next.total <= s.total + n
    ensures RunFrom(AsMeant, m, acts).next.current != s.current
    ensures s.current !in RunFrom(AsMeant, m, acts).next.queue
  {
    SleepStarts(s, n);
    SleeperOff(m, acts, s.current);
  }

  /** As long as no tick finds its deadline due, a sleeper stays asleep, whatever happens to its flag. */
  lemma {:induction false} SleeperStays(s: State, acts: seq<Action>, t: int)
    requires Inv(AsMeant, s) && PlainRun(AsMeant, s, acts) && RunFrom(AsMeant, s, acts).Done?
    requires t in s.sleeping && Spares(acts, t) && !ExpiredIn(s, acts, s.sleeping[t])
    ensures var b := RunFrom(AsMeant, s, acts).next;
            Inv(AsMeant, b) && t in b.sleeping && b.sleeping[t] == s.sleeping[t]
    decreases |acts|
  {
    assert Live(s, t) && t != s.current;
    if acts == [] {
    } else {
      StepInv(AsMeant, s, acts[0]);
      StepHold(s, acts[0], t);
      SleeperStays(Step(AsMeant, s, acts[0]).next, acts[1..], t);
    }
  }

  lemma DueTick(b: State, order: seq<int>, t: int)
    requires Inv(AsMeant, b) && Plain(AsMeant, b, Tick(order)) && t in b.sleeping && b.sleeping[t] <= b.total
    ensures var o := Step(AsMeant, b, Tick(order));
            && o.Done? && Live(o.next, t) && NoDup(o.next.queue) && t !in o.next.sleeping
            && (if b.threads[t].userBlocked then o.next.threads[t].state == BLOCKED && t !in o.next.queue
                else o.next.threads[t].state != BLOCKED && (o.next.current == t <==> t !in o.next.queue))
  {
    assert Live(b, t);
    TickInv(AsMeant, b, order);
    StepHold(b, Tick(order), t);
    assert Inv(AsMeant, Step(AsMeant, b, Tick(order)).next);
  }

  lemma SleeperWakes(m: State, pre: seq<Action>, order: seq<int>, t: int)
    requires Inv(AsMeant, m) && PlainRun(AsMeant, m, pre + [Tick(order)])
    requires t in m.sleeping && Spares(pre, t) && RunFrom(AsMeant, m, pre).Done?
    requires !ExpiredIn(m, pre, m.sleeping[t]) && RunFrom(AsMeant, m, pre).next.total >= m.sleeping[t]
    ensures var b, o := RunFrom(AsMeant, m, pre).next, RunFrom(AsMeant, m, pre + [Tick(order)]);
            && Live(b, t) && b.threads[t].state == BLOCKED && b.current != t && t !in b.queue
            && o.Done? && Live(o.next, t) && NoDup(o.next.queue) && t !in o.next.sleeping
            && (if b.threads[t].userBlocked then o.next.threads[t].state == BLOCKED && t !in o.next.queue
                else o.next.threads[t].state != BLOCKED && (o.next.current == t <==> t !in o.next.queue))
  {
    RunConcat(AsMeant, m, pre, [Tick(order)]);
    PlainSplit(AsMeant, m, pre, [Tick(order)]);
    SleeperStays(m, pre, t);
    DueTick(RunFrom(AsMeant, m, pre).next, order, t);
  }

  /** The sleeper is woken by the first tick that finds the total at least T+n, whatever blocks and resumes precede
      it: up to that tick it is BLOCKED. If its flag is clear then, the tick enqueues it exactly once, from where the
      same tick may dispatch it; if not, it stays BLOCKED and out of the queue (until resumed: ReleasedAtTheLater). */
  lemma WokenByFirstDueTick(s: State, n: int, m: State, pre: seq<Action>, order: seq<int>)
    requires Inv(AsMeant, s) && s.current != 0 && 0 < n <= INT_MAX - s.total
    requires Step(AsMeant, s, Sleep(n)) == Done(m, Ok(0))
    requires PlainRun(AsMeant, m, pre + [Tick(order)]) && Spares(pre, s.current)
    requires RunFrom(AsMeant, m, pre).Done? && !ExpiredIn(m, pre, s.total + n)
    requires RunFrom(AsMeant, m, pre).next.total >= s.total + n
    ensures var t, b, o := s.current, RunFrom(AsMeant, m, pre).next, RunFrom(AsMeant, m, pre + [Tick(order)]);
            && Live(b, t) && b.threads[t].state == BLOCKED && b.current != t && t !in b.queue
            && o.Done? && Live(o.next, t) && NoDup(o.next.queue) && t !in o.next.sleeping
            && (if b.threads[t].userBlocked then o.next.threads[t].state == BLOCKED && t !in o.next.queue
                else o.next.threads[t].state != BLOCKED && (o.next.current == t <==> t !in o.next.queue))
  {
    SleepStarts(s, n);
    SleeperWakes(m, pre, order, s.current);
  }
}
