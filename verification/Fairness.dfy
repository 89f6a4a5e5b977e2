/** Round robin: uninterrupted ticks hand out quantums evenly, one for each entry in the ring. Both versions. */
module Fairness {
  import opened Queues
  import opened Model
  import opened Runs
  import opened Invariant
  import opened Sleepers
  import opened Waiting

  /** The order in which threads take turns, the current one first. In AsWritten a sleeper may have several entries. */
  function Ring(s: State): seq<int> {
    [s.current] + s.queue
  }

  function Entries(s: State, t: int): nat {
    multiset(Ring(s))[t]
  }

  /** The ring holds the non-blocked non-zombies. */
  lemma RingMembers(s: State)
    requires Weak(s)
    ensures forall t :: t in Ring(s) <==> Live(s, t) && s.threads[t].state != BLOCKED
  {
    forall t ensures t in Ring(s) <==> Live(s, t) && s.threads[t].state != BLOCKED {
      assert t in Ring(s) <==> t == s.current || t in s.queue;
      if t in s.threads && t != s.current {
        assert Parked(s, t);
      }
    }
  }

  /** Where no thread is queued twice each has one entry. */
  lemma OneEntryEach(s: State, t: int)
    requires Core(s)
    ensures NoDup(Ring(s)) && Entries(s, t) == if t in Ring(s) then 1 else 0
  {
    assert s.current !in s.queue;
    NoDupAppend([s.current], s.queue);
    OnceQueued(Ring(s), t);
  }

  /** No sleeper is due within the next `k` ticks. */
  ghost predicate QuietFor(s: State, k: nat) {
    forall t :: t in s.sleeping ==> s.sleeping[t] >= s.total + k
  }

  function Gain(s: State, n: State, t: int): int
    requires t in s.threads && t in n.threads
  {
    n.threads[t].quantums - s.threads[t].quantums
  }

  /** `n` has the live threads of `s`, each has as many more quantums as it occurs among `gainers`, and nothing new is
      pending. */
  ghost predicate Served(s: State, n: State, gainers: seq<int>) {
    && (forall t :: Live(s, t) <==> Live(n, t))
    && (forall t :: Live(s, t) ==> Gain(s, n, t) == multiset(gainers)[t])
    && n.total == s.total + |gainers| && n.sleeping == s.sleeping
    && (n.pending == NO_PENDING || (n.pending == s.pending && 0 !in gainers))
  }

  lemma StartedServed(s: State)
    requires WeakVacated(s)
    ensures Dispatch(s).Some? && Served(s, Dispatch(s).value, [s.queue[0]])
  {
    DispatchWeak(s);
    HeadMember(s.queue);
    var n := Dispatch(s).value;
    assert forall t :: Live(s, t) <==> Live(n, t);
  }

  lemma RequeueServes(s: State, n: State)
    requires Weak(s) && Served(Requeue(AsWritten, s), n, [n.current])
    ensures Served(s, n, [n.current])
  {
    var m := Requeue(AsWritten, s);
    assert forall t :: Live(s, t) <==> Live(m, t);
  }

  /** The running thread is RUNNING, so the versions switch alike. */
  lemma SameSwitch(v: Version, s: State)
    requires Weak(s)
    ensures Switch(v, s) == Switch(AsWritten, s)
  {
  }

  lemma LoneMainServed(s: State)
    requires Weak(s) && |s.threads| <= 1
    ensures var o := Switch(AsWritten, s);
            o.Some? && Served(s, o.value, [o.value.current]) && Ring(o.value) == Ring(s)[1..] + [Ring(s)[0]]
  {
    WeakLoneMain(s);
    assert Requeue(AsWritten, s) == s && Ring(s) == [0];
    var n := Switch(AsWritten, s).value;
    assert forall t :: Live(s, t) <==> Live(n, t);
  }

  /** What one switch does to the ring and to the counts. */
  ghost predicate Turn(s: State, n: State) {
    Ring(n) == Ring(s)[1..] + [Ring(s)[0]] && Served(s, n, [n.current])
  }

  lemma SwitchRing(v: Version, s: State)
    requires s.current in s.threads && Requeues(v, s) && Switch(v, s).Some?
    ensures Ring(Switch(v, s).value) == Ring(s)[1..] + [Ring(s)[0]]
  {
    SwitchQueue(v, s);
  }

  lemma SwitchServes(s: State)
    requires Weak(s) && |s.threads| > 1
    ensures Requeues(AsWritten, s) && Switch(AsWritten, s).Some?
    ensures var n := Switch(AsWritten, s).value; Served(s, n, [n.current])
  {
    RequeueWeak(s);
    var r := Requeue(AsWritten, s);
    StartedServed(r);
    DispatchedHead(r);
    RequeueServes(s, Dispatch(r).value);
  }

  lemma DispatchedHead(s: State)
    requires s.queue != [] && Dispatch(s).Some?
    ensures Dispatch(s).value.current == s.queue[0]
  {
  }

  /** One switch from any state of the invariant, sleepers or not, rotates the ring by one and gives the new head one
      quantum. */
  lemma SwitchTurn(v: Version, s: State)
    requires Weak(s)
    ensures Switch(v, s).Some? && Weak(Switch(v, s).value) && Turn(s, Switch(v, s).value)
  {
    SameSwitch(v, s);
    SwitchWeak(s);
    if |s.threads| <= 1 {
      LoneMainServed(s);
    } else {
      SwitchServes(s);
      SwitchRing(AsWritten, s);
    }
  }

  function Iterate(f: State -> Option<State>, s: State, k: nat): Option<State>
    decreases k
  {
    if k == 0 then Some(s)
    else
      match f(s)
      case None => None
      case Some(m) => Iterate(f, m, k - 1)
  }

  lemma {:induction false} IterateSplit(f: State -> Option<State>, s: State, j: nat, k: nat)
    requires Iterate(f, s, j).Some?
    ensures Iterate(f, s, j + k) == Iterate(f, Iterate(f, s, j).value, k)
    decreases j
  {
    if j == 0 {
    } else {
      IterateSplit(f, f(s).value, j - 1, k);
    }
  }

  function Switching(v: Version): State -> Option<State> {
    s => Switch(v, s)
  }

  /** `k` switches with nothing else in between. */
  function Switches(v: Version, s: State, k: nat): Option<State> {
    Iterate(Switching(v), s, k)
  }

  lemma QuietTick(v: Version, s: State, order: seq<int>)
    requires QuietFor(s, 1)
    ensures Step(v, s, Tick(order)) == Switched(Switch(v, s))
  {
    NoneExpired(s, order);
  }

  /** Ticks that find no sleeper due are switches. */
  lemma {:induction false} QuietTicks(v: Version, s: State, acts: seq<Action>)
    requires AllTicks(acts) && QuietFor(s, |acts|)
    ensures RunFrom(v, s, acts) == Switched(Switches(v, s, |acts|))
    decreases |acts|
  {
    if acts == [] {
    } else {
      assert Step(v, s, acts[0]) == Switched(Switch(v, s)) by {
        QuietTick(v, s, acts[0].order);
      }
      SwitchTime(v, s);
      if Switch(v, s).Some? {
        QuietTicks(v, Switch(v, s).value, acts[1..]);
      }
    }
  }

  lemma ServedThenServed(s: State, m: State, n: State, first: seq<int>, rest: seq<int>)
    requires Served(s, m, first) && Served(m, n, rest)
    ensures Served(s, n, first + rest)
  {
  }

  /** The entries in the order in which they are served. */
  function Upcoming(r: seq<int>): seq<int>
    requires r != []
  {
    r[1..] + [r[0]]
  }

  /** A ring rotated by one, then by `k - 1`, is the ring rotated by `k`; and the order of service composes. */
  lemma RotateOnce(r: seq<int>, k: nat)
    requires 0 < k <= |r|
    ensures var r' := Upcoming(r);
            r'[k - 1..] + r'[..k - 1] == r[k..] + r[..k] && [r'[0]] + Upcoming(r')[..k - 1] == r'[..k]
  {
    var r' := Upcoming(r);
    assert Upcoming(r')[..k - 1] == r'[1..k];
  }

  /** `n` is `s` after `k` switches within one round: the ring has rotated by `k` and the `k` entries next in turn have
      been served. */
  ghost predicate PartRound(s: State, n: State, k: nat) {
    && k <= |Ring(s)|
    && Ring(n) == Ring(s)[k..] + Ring(s)[..k]
    && Served(s, n, Upcoming(Ring(s))[..k])
  }

  lemma PartRoundStep(s: State, m: State, n: State, k: nat)
    requires 0 < k <= |Ring(s)|
    requires Turn(s, m) && PartRound(m, n, k - 1)
    ensures PartRound(s, n, k)
  {
    RotateOnce(Ring(s), k);
    ServedThenServed(s, m, n, [m.current], Upcoming(Ring(m))[..k - 1]);
  }

  lemma {:induction false} SwitchesPartRound(v: Version, s: State, k: nat)
    requires Weak(s) && k <= |Ring(s)|
    ensures Switches(v, s, k).Some? && Weak(Switches(v, s, k).value) && PartRound(s, Switches(v, s, k).value, k)
    decreases k
  {
    if k == 0 {
      assert Ring(s)[0..] + Ring(s)[..0] == Ring(s);
    } else {
      SwitchTurn(v, s);
      var m := Switch(v, s).value;
      assert |Ring(m)| == |Ring(s)|;
      SwitchesPartRound(v, m, k - 1);
      PartRoundStep(s, m, Switches(v, s, k).value, k);
    }
  }

  /** Uninterrupted switches keep the stronger invariant, too. */
  lemma {:induction false} SwitchesCore(v: Version, s: State, k: nat)
    requires Core(s)
    ensures Switches(v, s, k).Some? && Core(Switches(v, s, k).value)
    decreases k
  {
    if k == 0 {
    } else {
      SwitchCore(v, s);
      SwitchesCore(v, Switch(v, s).value, k - 1);
    }
  }

  /** `n` is `s` after a whole round: queue and current are as before, each live thread has one more quantum for each of
      its entries in the ring, the total has grown by the size of the ring, and nothing is pending. */
  ghost predicate FullRound(s: State, n: State) {
    && n.queue == s.queue && n.current == s.current
    && n.total == s.total + |Ring(s)| && n.pending == NO_PENDING && n.sleeping == s.sleeping
    && (forall t :: Live(s, t) <==> Live(n, t))
    && (forall t :: Live(s, t) ==> Gain(s, n, t) == Entries(s, t))
  }

  lemma UpcomingEntries(r: seq<int>)
    requires r != []
    ensures multiset(Upcoming(r)) == multiset(r) && Upcoming(r)[..|r|] == Upcoming(r)
  {
    assert r == [r[0]] + r[1..];
  }

  lemma MainInRing(s: State)
    requires Weak(s)
    ensures 0 in Ring(s)
  {
    if s.current != 0 {
      MainQueuedWeak(s);
    }
  }

  lemma PartRoundFull(s: State, n: State)
    requires Weak(s) && PartRound(s, n, |Ring(s)|)
    ensures FullRound(s, n) && Ring(n) == Ring(s)
  {
    var r := Ring(s);
    UpcomingEntries(r);
    MainInRing(s);
    assert 0 in multiset(r) && 0 in multiset(Upcoming(r));
    assert Ring(n) == r;
    assert n.queue == Ring(n)[1..] && s.queue == r[1..];
  }

  lemma SwitchesFullRound(v: Version, s: State) returns (m: State)
    requires Weak(s)
    ensures Switches(v, s, |Ring(s)|) == Some(m) && Weak(m) && FullRound(s, m) && Ring(m) == Ring(s)
  {
    SwitchesPartRound(v, s, |Ring(s)|);
    m := Switches(v, s, |Ring(s)|).value;
    PartRoundFull(s, m);
  }

  /** One round of ticks, as many as there are entries in the ring. Where no thread is queued twice, each thread of the
      ring gains one quantum. */
  lemma OneRound(v: Version, s: State, acts: seq<Action>)
    requires Weak(s) && AllTicks(acts) && QuietFor(s, |acts|) && |acts| == |Ring(s)|
    ensures RunFrom(v, s, acts).Done? && Weak(RunFrom(v, s, acts).next) && FullRound(s, RunFrom(v, s, acts).next)
    ensures Core(s) ==>
              var n := RunFrom(v, s, acts).next;
              Core(n) && forall t :: Live(s, t) ==> Live(n, t) && Gain(s, n, t) == if t in Ring(s) then 1 else 0
  {
    QuietTicks(v, s, acts);
    var m := SwitchesFullRound(v, s);
    if Core(s) {
      SwitchesCore(v, s, |acts|);
      forall t | Live(s, t) ensures Live(m, t) && Gain(s, m, t) == if t in Ring(s) then 1 else 0 {
        OneEntryEach(s, t);
      }
    }
  }

  /** `n` is `s` after q rounds and p further ticks: the ring has rotated by p, and each live thread has gained q
      quantums for each of its entries and one more for each of them among the p entries next in turn. */
  ghost predicate Rounds(s: State, n: State, q: nat, p: nat) {
    && p <= |Ring(s)|
    && Ring(n) == Ring(s)[p..] + Ring(s)[..p]
    && (forall t :: Live(s, t) <==> Live(n, t))
    && (forall t :: Live(s, t) ==> Gain(s, n, t) == q * Entries(s, t) + multiset(Upcoming(Ring(s))[..p])[t])
  }

  lemma RoundThenRounds(s: State, m: State, n: State, q: nat, p: nat)
    requires FullRound(s, m) && Ring(m) == Ring(s) && Rounds(m, n, q, p)
    ensures Rounds(s, n, q + 1, p)
  {
    forall t | Live(s, t)
      ensures Gain(s, n, t) == (q + 1) * Entries(s, t) + multiset(Upcoming(Ring(s))[..p])[t]
    {
      assert Live(m, t) && Entries(m, t) == Entries(s, t);
      assert (q + 1) * Entries(s, t) == q * Entries(s, t) + Entries(s, t);
    }
  }

  /** `q * n + p`, counted round by round. */
  function Ticks(q: nat, n: nat, p: nat): nat {
    if q == 0 then p else n + Ticks(q - 1, n, p)
  }

  lemma {:induction false} TicksProduct(q: nat, n: nat, p: nat)
    ensures Ticks(q, n, p) == q * n + p
  {
    if q == 0 {
    } else {
      TicksProduct(q - 1, n, p);
      assert q * n == n + (q - 1) * n;
    }
  }

  lemma RoundBefore(v: Version, s: State, m: State, n: State, q: nat, p: nat)
    requires q > 0 && Switches(v, s, |Ring(s)|) == Some(m)
    requires Switches(v, m, Ticks(q - 1, |Ring(s)|, p)) == Some(n)
    ensures Switches(v, s, Ticks(q, |Ring(s)|, p)) == Some(n)
  {
    IterateSplit(Switching(v), s, |Ring(s)|, Ticks(q - 1, |Ring(s)|, p));
  }

  lemma {:induction false} SwitchesRounds(v: Version, s: State, q: nat, p: nat) returns (n: State)
    requires Weak(s) && p < |Ring(s)|
    ensures Switches(v, s, Ticks(q, |Ring(s)|, p)) == Some(n) && Weak(n) && Rounds(s, n, q, p)
    decreases q
  {
    if q == 0 {
      SwitchesPartRound(v, s, p);
      n := Switches(v, s, p).value;
    } else {
      var m := SwitchesFullRound(v, s);
      n := SwitchesRounds(v, m, q - 1, p);
      RoundBefore(v, s, m, n, q, p);
      RoundThenRounds(s, m, n, q - 1, p);
    }
  }

  /** How often the `j`-th thread of a ring without double entries is served by `q` rounds and `p` more ticks. */
  function Share(j: nat, q: nat, p: nat): int {
    q + (if 1 <= j <= p then 1 else 0)
  }

  lemma UpcomingOnce(r: seq<int>, p: nat, j: nat)
    requires NoDup(r) && p < |r| && j < |r|
    ensures multiset(Upcoming(r)[..p])[r[j]] == if 1 <= j <= p then 1 else 0
  {
    var e := Upcoming(r)[..p];
    assert forall i :: 0 <= i < p ==> e[i] == r[i + 1];
    OnceQueued(e, r[j]);
    if 1 <= j <= p {
      assert e[j - 1] == r[j];
    }
  }

  lemma RoundShares(s: State, n: State, q: nat, p: nat, j: nat)
    requires Core(s) && Weak(s) && Rounds(s, n, q, p) && p < |Ring(s)| && j < |Ring(s)|
    ensures Live(s, Ring(s)[j]) && Gain(s, n, Ring(s)[j]) == Share(j, q, p)
  {
    var t := Ring(s)[j];
    assert t in Ring(s);
    RingMembers(s);
    OneEntryEach(s, t);
    UpcomingOnce(Ring(s), p, j);
  }

  /** Round robin for any number of uninterrupted ticks. Where no thread is queued twice, the p threads next in turn
      have gained q + 1 quantums and the others q. */
  lemma RoundRobin(v: Version, s: State, acts: seq<Action>, q: nat, p: nat)
    requires Weak(s) && AllTicks(acts) && QuietFor(s, |acts|)
    requires |acts| == q * |Ring(s)| + p && p < |Ring(s)|
    ensures RunFrom(v, s, acts).Done? && Weak(RunFrom(v, s, acts).next) && Rounds(s, RunFrom(v, s, acts).next, q, p)
    ensures Core(s) ==>
              var n := RunFrom(v, s, acts).next;
              Core(n) && forall j :: 0 <= j < |Ring(s)| ==>
                           Live(s, Ring(s)[j]) && Live(n, Ring(s)[j]) && Gain(s, n, Ring(s)[j]) == Share(j, q, p)
  {
    QuietTicks(v, s, acts);
    TicksProduct(q, |Ring(s)|, p);
    var n := SwitchesRounds(v, s, q, p);
    if Core(s) {
      SwitchesCore(v, s, |acts|);
      forall j | 0 <= j < |Ring(s)|
        ensures Live(s, Ring(s)[j]) && Live(n, Ring(s)[j]) && Gain(s, n, Ring(s)[j]) == Share(j, q, p)
      {
        RoundShares(s, n, q, p, j);
      }
    }
  }

  lemma DivMod(k: nat, n: nat)
    requires n > 0
    ensures k == (k / n) * n + k % n && 0 <= k % n < n && k / n >= 0
  {
  }

  lemma PrefixCount(r: seq<int>, p: nat, t: int)
    requires r != [] && p <= |r|
    ensures multiset(Upcoming(r)[..p])[t] <= multiset(r)[t]
  {
    UpcomingEntries(r);
    assert Upcoming(r) == Upcoming(r)[..p] + Upcoming(r)[p..];
  }

  lemma CrossGains(q: nat, e: nat, f: nat, x: nat, y: nat)
    requires x <= e
    ensures (q * e + x) * f - (q * f + y) * e <= e * f
  {
    assert (q * e + x) * f == q * e * f + x * f;
    assert (q * f + y) * e == q * f * e + y * e;
    assert x * f <= e * f;
  }

  lemma RoundsFair(s: State, n: State, q: nat, p: nat, t: int, u: int)
    requires Rounds(s, n, q, p) && Live(s, t) && Live(s, u)
    ensures Live(n, t) && Live(n, u)
    ensures Gain(s, n, t) * Entries(s, u) - Gain(s, n, u) * Entries(s, t) <= Entries(s, t) * Entries(s, u)
  {
    var e := multiset(Upcoming(Ring(s))[..p]);
    PrefixCount(Ring(s), p, t);
    CrossGains(q, Entries(s, t), Entries(s, u), e[t], e[u]);
  }

  /** After any number of ticks, the gains of any two threads per entry in the ring differ by at most one; so where no
      thread is queued twice, their gains do. */
  lemma FairGains(v: Version, s: State, acts: seq<Action>, t: int, u: int)
    requires Weak(s) && AllTicks(acts) && QuietFor(s, |acts|)
    requires t in Ring(s) && u in Ring(s)
    ensures RunFrom(v, s, acts).Done?
    ensures var n := RunFrom(v, s, acts).next;
            && Live(s, t) && Live(s, u) && Live(n, t) && Live(n, u)
            && Gain(s, n, t) * Entries(s, u) - Gain(s, n, u) * Entries(s, t) <= Entries(s, t) * Entries(s, u)
            && (Core(s) ==> Gain(s, n, t) - Gain(s, n, u) <= 1)
  {
    var k := |Ring(s)|;
    DivMod(|acts|, k);
    RingMembers(s);
    RoundRobin(v, s, acts, |acts| / k, |acts| % k);
    RoundsFair(s, RunFrom(v, s, acts).next, |acts| / k, |acts| % k, t, u);
    if Core(s) {
      OneEntryEach(s, t);
      OneEntryEach(s, u);
    }
  }
}
