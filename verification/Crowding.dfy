/** AsWritten: what waking does to the ring. A sleeper that is still queued gains an entry each time it is woken, so
    that the waiting time of the other threads has no bound. */
module Crowding {
  import opened Queues
  import opened Model
  import opened Runs
  import opened Invariant
  import opened Fairness
  import opened ShortSleep
  import opened Sleepers
  import opened Soundness
  import opened Waiting
  import Divergence
  import Sleeping

  predicate WokenNow(s: State, t: int) {
    t in s.sleeping && s.sleeping[t] <= s.total && t in s.threads && !s.threads[t].userBlocked
  }

  lemma WokenOnce(s: State, order: seq<int>, t: int)
    requires IsOrder(s, order)
    ensures multiset(WokenBy(s, order))[t] == if WokenNow(s, t) then 1 else 0
  {
    WokenMembers(s, order);
    OnceQueued(WokenBy(s, order), t);
  }

  lemma SwitchRotates(w: State)
    requires AboutToSwitch(w)
    ensures Switch(AsWritten, w).Some? && Ring(Switch(AsWritten, w).value) == Ring(w)[1..] + [Ring(w)[0]]
  {
    SwitchWeak(w);
    if |w.threads| <= 1 {
      WeakLoneMain(w);
      assert Requeue(AsWritten, w) == w && Ring(w) == [0];
    } else {
      SwitchRing(AsWritten, w);
    }
  }

  lemma WakeRing(s: State, order: seq<int>)
    requires IsOrder(s, order) && forall t :: t in s.sleeping ==> t in s.threads
    ensures WakeAll(s, order).Some? && Ring(WakeAll(s, order).value) == Ring(s) + WokenBy(s, order)
  {
    WakeEffect(s, order);
  }

  /** A tick appends the woken sleepers to the ring and rotates it by one. */
  lemma TickRing(s: State, order: seq<int>)
    requires Weak(s) && IsOrder(s, order)
    ensures Step(AsWritten, s, Tick(order)).Done?
    ensures Ring(Step(AsWritten, s, Tick(order)).next) == (Ring(s) + WokenBy(s, order))[1..] + [s.current]
  {
    WakeRing(s, order);
    WakeWeak(s, order);
    var w := WakeAll(s, order).value;
    SwitchRotates(w);
    assert Ring(w)[0] == s.current;
  }

  /** With each tick exactly the threads it wakes gain an entry in the ring, whether they have one already or not. */
  lemma TickEntries(s: State, order: seq<int>, t: int)
    requires Weak(s) && IsOrder(s, order)
    ensures Step(AsWritten, s, Tick(order)).Done?
    ensures Entries(Step(AsWritten, s, Tick(order)).next, t) == Entries(s, t) + if WokenNow(s, t) then 1 else 0
  {
    TickRing(s, order);
    WokenOnce(s, order, t);
    var r := Ring(s) + WokenBy(s, order);
    assert r[0] == s.current;
    UpcomingEntries(r);
  }

  // ---------------------------------------------------------------- a thread that keeps sleeping for one quantum

  /** Nobody sleeps, thread 1 is live and its flag is clear, and the ring has `k` entries. */
  ghost predicate Crowd(s: State, k: nat) {
    Weak(s) && s.sleeping == map[] && Live(s, 1) && !s.threads[1].userBlocked && |Ring(s)| == k
  }

  ghost predicate Leads(s: State, acts: seq<Action>, n: State) {
    SoundRun(AsWritten, s, acts) && RunFrom(AsWritten, s, acts) == Done(n, Ok(0))
  }

  lemma {:induction false} LeadsOn(s: State, a: seq<Action>, m: State, b: seq<Action>, n: State)
    requires Leads(s, a, m) && Leads(m, b, n)
    ensures Leads(s, a + b, n)
    decreases |a|
  {
    if a == [] {
      assert a + b == b;
    } else {
      assert (a + b)[1..] == a[1..] + b;
      LeadsOn(Step(AsWritten, s, a[0]).next, a[1..], m, b, n);
    }
  }

  lemma LeadsOne(s: State, a: Action, n: State)
    requires Safe(s, a) && Step(AsWritten, s, a).Done? && Step(AsWritten, s, a).next == n
    ensures Leads(s, [a], n)
  {
    assert [a][1..] == [];
  }

  lemma CrowdSwitch(s: State, k: nat) returns (n: State)
    requires Crowd(s, k)
    ensures Switch(AsWritten, s) == Some(n) && Crowd(n, k) && n.total == s.total + 1
    ensures Ring(n) == Ring(s)[1..] + [Ring(s)[0]]
  {
    SwitchTurn(AsWritten, s);
    n := Switch(AsWritten, s).value;
    Sleeping.SwitchHold(AsWritten, s, 1);
  }

  lemma CrowdTick(s: State, k: nat) returns (n: State)
    requires Crowd(s, k)
    ensures Leads(s, [Tick([])], n) && Crowd(n, k) && n.total == s.total + 1
    ensures Ring(n) == Ring(s)[1..] + [Ring(s)[0]]
  {
    n := CrowdSwitch(s, k);
    QuietTick(AsWritten, s, []);
    LeadsOne(s, Tick([]), n);
  }

  /** Ticks until `t` is current. */
  lemma {:induction false} TicksTo(s: State, k: nat, t: int) returns (acts: seq<Action>, n: State)
    requires Crowd(s, k) && t in Ring(s)
    ensures Leads(s, acts, n) && Crowd(n, k) && n.current == t && n.total <= s.total + Turns(s, t)
    decreases Turns(s, t)
  {
    if t == s.current {
      acts, n := [], s;
    } else {
      assert t in s.queue;
      var m := CrowdTick(s, k);
      StepCloser(AsWritten, s, Tick([]), t);
      var rest;
      rest, n := TicksTo(m, k, t);
      LeadsOn(s, [Tick([])], m, rest, n);
      acts := [Tick([])] + rest;
    }
  }

  /** What the switch after the sleep call leaves of thread 1. */
  lemma SleptOne(s: State, k: nat)
    requires Crowd(s, k) && s.current == 1
    ensures var o := Switch(AsWritten, FallenAsleep(s, 1));
            o.Some? ==> && o.value.sleeping == map[1 := s.total + 1]
                        && 1 in o.value.threads && !o.value.threads[1].userBlocked
  {
    var b := FallenAsleep(s, 1);
    SwitchTime(AsWritten, b);
    if Switch(AsWritten, b).Some? {
      Sleeping.SwitchHold(AsWritten, b, 1);
    }
  }

  lemma OneSleeps(s: State, k: nat) returns (m: State)
    requires Crowd(s, k) && s.current == 1 && s.total < INT_MAX
    ensures Leads(s, [Sleep(1)], m) && Weak(m) && |Ring(m)| == k && m.total == s.total + 1
    ensures m.sleeping == map[1 := m.total] && 1 in m.threads && !m.threads[1].userBlocked
  {
    m := SleeperQueued(s, 1);
    SleptOne(s, k);
    LeadsOne(s, Sleep(1), m);
  }

  lemma OneWoken(m: State, k: nat) returns (n: State)
    requires Weak(m) && |Ring(m)| == k && m.sleeping == map[1 := m.total] && 1 in m.threads && !m.threads[1].userBlocked
    ensures Leads(m, [Tick([1])], n) && Crowd(n, k + 1) && 1 in Ring(n) && n.total == m.total + 1
  {
    assert IsOrder(m, [1]);
    TickWeak(m, [1]);
    n := Step(AsWritten, m, Tick([1])).next;
    LeadsOne(m, Tick([1]), n);
    TickRing(m, [1]);
    assert [1][..0] == [];
    assert WokenBy(m, [1]) == WokenBy(m, [1][..0]) + [1] == [1];
    TickTime(AsWritten, m, [1]);
    WakeEffect(m, [1]);
    var w := WakeAll(m, [1]).value;
    assert Live(m, 1);
    assert w.sleeping == map[];
    SwitchTime(AsWritten, w);
    Sleeping.SwitchHold(AsWritten, w, 1);
    assert 1 in Ring(m) + [1];
    StillInRing(m, n);
  }

  lemma StillInRing(m: State, n: State)
    requires Weak(n) && Ring(n) == (Ring(m) + [1])[1..] + [m.current]
    ensures 1 in Ring(n) && Live(n, 1)
  {
    assert Ring(n)[|Ring(m)| - 1] == 1;
    RingMembers(n);
  }

  /** Each sleep call for one quantum by thread 1 adds one entry for it to the ring. */
  lemma Grows(s: State, k: nat) returns (n: State)
    requires Crowd(s, k) && s.current == 1 && s.total < INT_MAX
    ensures Leads(s, [Sleep(1), Tick([1])], n) && Crowd(n, k + 1) && 1 in Ring(n) && n.total == s.total + 2
  {
    var m := OneSleeps(s, k);
    n := OneWoken(m, k);
    LeadsOn(s, [Sleep(1)], m, [Tick([1])], n);
    assert [Sleep(1)] + [Tick([1])] == [Sleep(1), Tick([1])];
  }

  lemma FirstCrowd() returns (s: State)
    ensures Leads(Init(), [Spawn(true), Tick([])], s) && Crowd(s, 2) && s.current == 1 && s.total == 2
    ensures 0 in Ring(s)
  {
    s := Divergence.OneRuns();
    var m := Divergence.Spawned1();
    Divergence.Spawn1(AsWritten);
    Divergence.RunOne();
    LeadsOne(Init(), Spawn(true), m);
    LeadsOne(m, Tick([]), s);
    LeadsOn(Init(), [Spawn(true)], m, [Tick([])], s);
    assert [Spawn(true)] + [Tick([])] == [Spawn(true), Tick([])];
    assert Weak(Init());
    RunSound(AsWritten, Init(), [Spawn(true), Tick([])]);
  }

  /** From initialisation thread 1 can give itself any number of entries, and be the running thread then. */
  lemma {:induction false} Grown(k: nat) returns (acts: seq<Action>, s: State)
    requires k <= 40000
    ensures Leads(Init(), acts, s) && Crowd(s, k + 2) && s.current == 1 && s.total <= 2 + 40003 * k
  {
    if k == 0 {
      s := FirstCrowd();
      acts := [Spawn(true), Tick([])];
    } else {
      var init, m := Grown(k - 1);
      var n := Grows(m, k + 1);
      var rest;
      rest, s := TicksTo(n, k + 2, 1);
      LeadsOn(Init(), init, m, [Sleep(1), Tick([1])], n);
      LeadsOn(Init(), init + [Sleep(1), Tick([1])], n, rest, s);
      acts := init + [Sleep(1), Tick([1])] + rest;
    }
  }

  lemma MainLast(q: seq<int>)
    requires q != [] && q[|q| - 1] == 0 && multiset(q)[0] == 1
    ensures 0 in q && Pos(q, 0) == |q| - 1
  {
    var init := q[..|q| - 1];
    assert q == init + [0];
    assert 0 !in multiset(init) && 0 !in init;
    assert forall i :: 0 <= i < |init| ==> q[i] == init[i] && init[i] in init;
  }

  /** Ticks do not reach a thread at position `p` of the queue before its turn. */
  lemma NotBefore(s: State, t: int, acts: seq<Action>)
    requires Weak(s) && s.sleeping == map[] && t in s.queue && t != s.current
    requires AllTicks(acts) && |acts| <= Pos(s.queue, t)
    ensures RunFrom(AsWritten, s, acts).Done? && RunFrom(AsWritten, s, acts).next.current != t
  {
    QuietTicks(AsWritten, s, acts);
    SwitchesPartRound(AsWritten, s, |acts|);
    var n := RunFrom(AsWritten, s, acts).next;
    assert Ring(n)[0] == Ring(s)[|acts|];
    if |acts| > 0 {
      assert s.queue[..Pos(s.queue, t)][|acts| - 1] == Ring(s)[|acts|];
    }
  }

  /** AsWritten, the waiting time has no bound: for every `k` (up to where the total would overflow) a sound run
      leads to a state in which main is queued behind `k` entries and `k` ticks do not get it to run. */
  lemma WaitingUnbounded(k: nat) returns (acts: seq<Action>, s: State)
    requires k <= 40000
    ensures Leads(Init(), acts, s) && Weak(s) && 0 in s.queue && Pos(s.queue, 0) == k
    ensures forall ticks :: AllTicks(ticks) && |ticks| <= k ==>
              RunFrom(AsWritten, s, ticks).Done? && RunFrom(AsWritten, s, ticks).next.current != 0
  {
    var init, m := Grown(k);
    MainInRing(m);
    var rest, n := TicksTo(m, k + 2, 0);
    s := CrowdTick(n, k + 2);
    LeadsOn(Init(), init, m, rest, n);
    LeadsOn(Init(), init + rest, n, [Tick([])], s);
    acts := init + rest + [Tick([])];
    assert s.queue == Ring(s)[1..] && s.queue[|s.queue| - 1] == Ring(n)[0] == 0;
    MainBehind(s);
    forall ticks | AllTicks(ticks) && |ticks| <= k
      ensures RunFrom(AsWritten, s, ticks).Done? && RunFrom(AsWritten, s, ticks).next.current != 0
    {
      NotBefore(s, 0, ticks);
    }
  }

  lemma MainBehind(s: State)
    requires Weak(s) && s.queue != [] && s.queue[|s.queue| - 1] == 0
    ensures s.current != 0 && 0 in s.queue && Pos(s.queue, 0) == |s.queue| - 1
  {
    assert 0 in s.queue && 0 in multiset(s.queue);
    MainLast(s.queue);
  }
}
