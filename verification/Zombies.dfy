/** Calls that name a zombie, and the exact reach of the invariant. Both versions. */
module Zombies {
  import opened Queues
  import opened Model
  import opened Invariant
  import opened Waiting
  import Sleepers

  /** Terminating a zombie again keeps the invariant exactly if its deletion is not pending. It is then gone at once. */
  lemma TerminateExactly(v: Version, s: State, z: int)
    requires Inv(v, s) && z in s.zombies
    ensures Step(v, s, Terminate(z)).Done? && z !in Step(v, s, Terminate(z)).next.threads
    ensures Inv(v, Step(v, s, Terminate(z)).next) <==> z != s.pending
  {
    assert TidGuard(s, z).None? && z != 0 && z != s.current;
    if z != s.pending {
      TerminateOtherInv(v, s, z);
    }
  }

  /** Blocking a zombie is harmless; it is neither queued nor dispatched, and it leaves the map as before. */
  lemma BlockHarmless(v: Version, s: State, z: int)
    requires Inv(v, s) && z in s.zombies
    ensures Step(v, s, Block(z)).Done? && Inv(v, Step(v, s, Block(z)).next)
    ensures var n := Step(v, s, Block(z)).next;
            n.queue == s.queue && n.zombies == s.zombies && n.pending == s.pending && n.current == s.current
  {
    assert BlockGuard(s, z).None? && z != s.current && z !in s.queue && s.threads[z].state != RUNNING;
    WithoutAbsent(s.queue, z);
    BlockOtherInv(v, s, z);
  }

  /** Resuming a zombie keeps the invariant exactly if it has not been blocked; otherwise it is back in the queue. */
  lemma ResumeExactly(v: Version, s: State, z: int)
    requires Inv(v, s) && z in s.zombies
    ensures Step(v, s, Resume(z)).Done?
    ensures Inv(v, Step(v, s, Resume(z)).next) <==> s.threads[z].state != BLOCKED
    ensures s.threads[z].state == BLOCKED ==> Step(v, s, Resume(z)).next.queue == s.queue + [z]
  {
    assert TidGuard(s, z).None? && z !in s.sleeping;
    if s.threads[z].state == BLOCKED {
      var n := Step(v, s, Resume(z)).next;
      assert z in n.queue && z in n.zombies;
    } else {
      ResumeInv(v, s, z);
    }
  }

  /** AsWritten, a sleep call leaves the part of the invariant that is about states without sleepers. */
  lemma WrittenSleepLeaves(s: State, n: int)
    requires Inv(AsWritten, s) && 0 < n <= INT_MAX - s.total && s.current != 0
    ensures Step(AsWritten, s, Sleep(n)).Done? && !Inv(AsWritten, Step(AsWritten, s, Sleep(n)).next)
  {
    Sleepers.InvIsWeak(AsWritten, s);
    Sleepers.SleepWeak(s, n);
    SwitchTime(AsWritten, FallenAsleep(s, n));
    assert s.current in Step(AsWritten, s, Sleep(n)).next.sleeping;
  }

  /** From the invariant no feasible step looks up a missing thread, and the steps that keep it are exactly the plain
      ones. (Sleepers.StepWeakExactly is the counterpart for AsWritten with sleepers.) */
  lemma StepInvExactly(v: Version, s: State, a: Action)
    requires Inv(v, s) && Feasible(s, a)
    ensures !Step(v, s, a).Crash?
    ensures Step(v, s, a).Done? ==> (Inv(v, Step(v, s, a).next) <==> Plain(v, s, a))
  {
    if HarmsZombie(s, a) {
      match a
      case Terminate(z) => TerminateExactly(v, s, z);
      case Resume(z) => ResumeExactly(v, s, z);
    } else if v.AsWritten? && Sleeps(s, a) {
      WrittenSleepLeaves(s, a.numQuantums);
    } else {
      StepInv(v, s, a);
    }
  }
}
