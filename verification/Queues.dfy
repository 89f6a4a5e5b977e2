/** The ready queue as a sequence of thread ids: removal, position, and a bound on its length. */
module Queues {

  ghost predicate NoDup(q: seq<int>) {
    forall i, j :: 0 <= i < j < |q| ==> q[i] != q[j]
  }

  /** The queue with every occurrence of `t` dropped. */
  function Without(q: seq<int>, t: int): seq<int> {
    if q == [] then []
    else (if q[0] == t then [] else [q[0]]) + Without(q[1..], t)
  }

  /** How many entries stand in front of the first occurrence of `t`. */
  function Pos(q: seq<int>, t: int): (p: nat)
    requires t in q
    ensures p < |q| && q[p] == t && t !in q[..p]
  {
    if q[0] == t then 0 else 1 + Pos(q[1..], t)
  }

  lemma {:induction false} WithoutMembers(q: seq<int>, t: int)
    ensures forall x :: x in Without(q, t) <==> x in q && x != t
  {
    if q == [] {
    } else {
      WithoutMembers(q[1..], t);
    }
  }

  lemma {:induction false} WithoutAbsent(q: seq<int>, t: int)
    requires t !in q
    ensures Without(q, t) == q
  {
    if q == [] {
    } else {
      WithoutAbsent(q[1..], t);
    }
  }

  lemma {:induction false} WithoutNoDup(q: seq<int>, t: int)
    requires NoDup(q)
    ensures NoDup(Without(q, t))
  {
    if q == [] {
    } else {
      WithoutNoDup(q[1..], t);
      WithoutMembers(q[1..], t);
      var rest := Without(q[1..], t);
      assert q[0] !in rest;
      assert forall i :: 0 <= i < |rest| ==> rest[i] in rest;
    }
  }

  lemma HeadMember(q: seq<int>)
    ensures q == [] || q[0] in q
  {
  }

  lemma NoDupAppend(q: seq<int>, r: seq<int>)
    requires NoDup(q) && NoDup(r) && forall x :: x in q ==> x !in r
    ensures NoDup(q + r)
  {
    forall i, j | 0 <= i < j < |q + r|
      ensures (q + r)[i] != (q + r)[j]
    {
      if i < |q| <= j {
        assert q[i] in q && r[j - |q|] in r;
      }
    }
  }

  lemma {:induction false} WithoutCount(q: seq<int>, t: int, x: int)
    requires x != t
    ensures multiset(Without(q, t))[x] == multiset(q)[x]
  {
    if q == [] {
    } else {
      assert q == [q[0]] + q[1..];
      WithoutCount(q[1..], t, x);
    }
  }

  lemma {:induction false} WithoutPos(q: seq<int>, t: int, x: int)
    requires x in q && x != t
    ensures x in Without(q, t)
    ensures Pos(Without(q, t), x) <= Pos(q, x)
  {
    WithoutMembers(q, t);
    if q[0] != x {
      var rest := Without(q[1..], t);
      WithoutPos(q[1..], t, x);
      assert q[0] != t ==> Without(q, t)[0] == q[0] && Without(q, t)[1..] == rest;
      assert q[0] == t ==> Without(q, t) == rest;
    } else {
      assert Without(q, t)[0] == x;
    }
  }

  /** Removal is an order-preserving filter: what remains keeps its relative order. */
  lemma {:induction false} WithoutKeepsOrder(q: seq<int>, t: int, x: int, y: int)
    requires x in q && y in q && x != t && y != t
    ensures x in Without(q, t) && y in Without(q, t)
    ensures Pos(q, x) < Pos(q, y) <==> Pos(Without(q, t), x) < Pos(Without(q, t), y)
  {
    WithoutMembers(q, t);
    var w, rest := Without(q, t), Without(q[1..], t);
    if q[0] == t {
      assert w == rest;
      WithoutKeepsOrder(q[1..], t, x, y);
    } else {
      assert w[0] == q[0] && w[1..] == rest;
      if q[0] != x && q[0] != y {
        WithoutKeepsOrder(q[1..], t, x, y);
      }
    }
  }

  lemma {:induction false} PosAppend(q: seq<int>, r: seq<int>, t: int)
    requires t in q
    ensures Pos(q + r, t) == Pos(q, t)
  {
    if q[0] != t {
      PosAppend(q[1..], r, t);
      assert (q + r)[1..] == q[1..] + r;
    }
  }

  /** The ids below `n`. */
  ghost function Below(n: nat): (r: set<int>)
    ensures forall t :: t in r <==> 0 <= t < n
    ensures |r| == n
  {
    if n == 0 then {} else Below(n - 1) + {n - 1}
  }

  /** Pigeonhole: distinct entries drawn from `pool` are at most `|pool|` many. */
  lemma {:induction false} DistinctBound(q: seq<int>, pool: set<int>)
    requires NoDup(q)
    requires forall x :: x in q ==> x in pool
    ensures |q| <= |pool|
  {
    if q == [] {
    } else {
      assert forall x :: x in q[1..] ==> x != q[0];
      DistinctBound(q[1..], pool - {q[0]});
      assert q[0] in pool;
    }
  }

  lemma BoundWithout(q: seq<int>, n: nat, c: int)
    requires NoDup(q) && 0 <= c < n && c !in q
    requires forall x :: x in q ==> 0 <= x < n
    ensures |q| < n
  {
    assert |Below(n) - {c}| == n - 1;
    DistinctBound(q, Below(n) - {c});
  }

  lemma AllUsed(used: set<int>, n: nat)
    requires forall t :: t in used ==> 0 <= t < n
    ensures |used| == n <==> forall t :: 0 <= t < n ==> t in used
  {
    var free := Below(n) - used;
    assert used <= Below(n);
    assert |free| == n - |used|;
    if free == {} {
      forall t | 0 <= t < n ensures t in used {
        assert t in Below(n) && t !in free;
      }
    } else {
      var t :| t in free;
      assert 0 <= t < n && t !in used;
    }
  }
}
