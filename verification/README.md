# A verified model of the user-level thread scheduler

The library multiplexes up to 100 user-level threads over one process. Its scheduler keeps a map of thread objects, a FIFO
ready queue, a map of sleeping threads with their deadlines, the current tid, the tid whose deletion is pending, and a count
of all quantums started. Spawning, terminating, blocking, resuming, sleeping and the timer signal change these in place.

The project has two layers.

**The scheduler as a value.** `Model.State` holds the same fields, and `Model.Step` says what one API call or one timer tick
does to them, guards included. A switch is one atomic step: the outgoing thread is (perhaps) requeued, the head of the queue
starts a quantum, and, if it has run before, it continues behind its saved jump point and reclaims the thread pending
deletion; a thread with no earlier quantum starts at its entry point instead, and reclaims nothing. `Step` takes a version:

- `AsWritten` is the code, line by line.
- `AsMeant` changes it in two places, following the documentation in uthreads.h:60-64 and uthreads.h:84-90. The outgoing
  thread is requeued only if it is still RUNNING (scheduler.cpp:295 requeues it even after scheduler.cpp:228 or
  scheduler.cpp:276 has just made it BLOCKED), and resuming a thread clears its user-block flag (scheduler.cpp:267 leaves it
  set, so that scheduler.cpp:210 later ignores a block).

Dereferencing the null pointer that `threads[tid]` yields for a missing tid, and overflowing the 32-bit deadline at
scheduler.cpp:277, end a run in `Crash`; `terminate(0)` ends it in `Exit`. A tick carries the order in which the unordered map
of sleepers is visited, so that theorems hold for every order.

Where the code and the documentation disagree the code is kept, and the exact condition under which it meets the documentation
is proved:

- *The two versions* move in lockstep exactly as long as no call misfires: `Lockstep.LockstepExactly`.
- *Blocking* takes effect exactly if the target is not the caller and its flag is not left over:
  `Divergence.BlockTakesEffectIff`, sleepers or not.
- *Sleeping.* uthreads.h:84-90 promises that the caller of sleep(n) stays off the processor while n quantums start, whatever
  starts them. The code keeps the promise, whatever other threads do short of terminating the caller, exactly if the caller is
  not next in the queue and n is at most the cost of the queue it joins (`ShortSleep.WrittenSleepExactly`). When neither the
  caller nor the next thread has another queue entry, as is always so without earlier sleepers, that means n = 1, or n = 2 and
  main is not next (`ShortSleep.WrittenSleepIff`).
  If nothing but ticks follows, it means that at least n threads are queued (`Divergence.WrittenSleepTicksIff`).
- *Releasing a terminated thread* happens by main's next dispatch exactly if no other thread terminates itself first, or one
  terminates the leaked thread afterwards: `Reclamation.ReclaimedUnlessOvertaken`.

A *zombie* is a thread that has terminated itself and is still in the map. A step is *feasible* if a tick visits each sleeper
once and no deadline overflows. Three kinds of feasible step lead out of the invariant of one version or the other, and each
has its exact condition:

- terminating the zombie whose deletion is pending, or resuming a zombie that has been blocked (`Zombies.TerminateExactly`,
  `Zombies.ResumeExactly`; `Divergence.ZombieNamedRun` ends in the lookup of a missing thread);
- in `AsWritten`, a sleep call, which leaves the sleeper in the queue. `Invariant.PlainRun` is a run with none of these, and
  `Zombies.StepInvExactly` shows that the plain steps are all the feasible steps that keep the invariant;
- in `AsWritten` with sleepers, where a weaker invariant takes over (`Sleepers.Weak`), a self-termination by a thread that is
  asleep or still queued. `Sleepers.StepWeakExactly` shows that these and the harmful zombie calls are the only ones, and
  `Soundness.AsWrittenSafe` that runs without them are safe; `Divergence.SleeperCrashRun` is a run with one.

A *sound* run (`Soundness.SoundRun`) contains none of the harmful zombie calls and, in `AsWritten`, no such self-termination;
sleep calls are allowed in both versions, and plain runs are sound. `Soundness.StepSoundExactly` has the exact condition for
one step of either version. `Damage.SoundExactlyHarmless` shows what it is worth: the sound steps are exactly those after
which no feasible run of ticks, spawn, block and sleep calls ever looks up a missing thread or gets a terminated thread to run.
Theorems of `AllRuns`, `Waiting.StepCloser` and `Waiting.DispatchedInTurn` hold for
every run whatsoever.

`Model.Step` is told call by call, as the code is. `Reference` tells the same story attribute by attribute (who runs next, the
queue, and for each thread its presence, status, count, flag and deadline), and `Reference.StepMeets` proves the two equal for
every feasible step of either version from every state of the invariant. Which calls fail and why, which end the process and
which are undefined is settled by `Reference.RepliesExactly`, `Reference.ExitsExactly` and `Reference.CrashesExactly`.

**The scheduler as an object.** `Threads.Thread`, `Schedulers.Scheduler` and the entry points in `Uthreads` update their fields
in place, loop for loop, and every method is proved to do exactly what `Model.Step` says for version `AsWritten`
(`Scheduler.Matches` compares process, fields and reply). The theorems about `Step` are thereby theorems about these methods.

| file | content |
|---|---|
| Maps.dfy, Queues.dfy | equality of maps; removal, position and length bounds of the queue |
| Model.dfy, Runs.dfy | the state, one step in either version; finite runs |
| AllRuns.dfy | main stays schedulable, quantums are conserved, bookkeeping is inert: every run, both versions |
| Invariant.dfy, Safety.dfy | the invariant of plain runs and the wake loop; zombies, calls on other threads, tids |
| Sleepers.dfy | the weaker invariant of AsWritten runs with sleep calls |
| Zombies.dfy | calls that name a zombie, and which steps keep the invariant |
| Soundness.dfy, Damage.dfy | sound runs of both versions; what exactly the unsound steps lead to |
| Reference.dfy | each step attribute by attribute; replies, exits and undefined behaviour: both versions |
| Waiting.dfy, Fairness.dfy, Reclamation.dfy | the clock and bounded waiting, round robin, deferred deletion: both versions |
| Sleeping.dfy | sleep and user-block as independent holds: AsMeant |
| WrittenHolds.dfy | deadline, flag and status over whole runs, and a thread's calls on itself: AsWritten |
| ShortSleep.dfy | how soon a thread can run again, and what sleep delivers: AsWritten |
| Lockstep.dfy, Divergence.dfy | where the versions part, and runs that show the failures |
| Crowding.dfy | how sleepers multiply in the ring, and what that does to waiting: AsWritten |
| Threads.dfy, Schedulers.dfy, Uthreads.dfy | the imperative layer |

## Model

| member | source | states |
|---|---|---|
| AllRuns.MainAlwaysSchedulable | scheduler.cpp:193-198 | after every run of either version main is queued exactly once, or current and not queued, and no call whatever can fail with "no threads left to run" |
| AllRuns.TerminateKeepsMain | scheduler.cpp:166-204 | terminating any thread keeps main schedulable and never finds the queue empty |
| AllRuns.BlockKeepsMain | scheduler.cpp:226-239 | blocking any thread but main, the caller included, keeps main schedulable and never finds the queue empty |
| AllRuns.SleepKeepsMain | scheduler.cpp:273-289 | a sleep by any thread but main keeps main schedulable and never finds the queue empty |
| AllRuns.Conservation | scheduler.cpp:319-320 | after every run of either version the total equals the quantum counts of the threads in the map plus the final counts of all deleted threads |
| AllRuns.TerminateBalanced | scheduler.cpp:184-189 | deleting another thread, or marking oneself and switching, conserves quantums |
| AllRuns.SwitchBalanced | scheduler.cpp:292-324 | one switch, reclamation included, adds one quantum to the total and one to the threads |
| AllRuns.BookkeepingIsInert | scheduler.cpp:12-18 | runs do not depend on the two bookkeeping fields that the code does not have |
| Invariant.StepInv | scheduler.cpp:166-324 | every plain step of either version keeps the invariant and looks up no missing thread |
| Invariant.SwitchInv | scheduler.cpp:292-324 | a switch always finds its threads, dispatches a live one and keeps the invariant by itself |
| Invariant.WakeLoop | scheduler.cpp:44-58 | in every state whose sleepers are in the map and for every visiting order, exactly the entries above the total stay, every expired sleeper that is not user-blocked is appended once behind an unchanged queue and nothing else changes; AsMeant: the invariant holds again before the switch |
| Sleepers.WakeWeak | scheduler.cpp:44-58 | AsWritten with sleepers: after the wake loop, in which a thread may be queued a second time, the switch finds a state that it turns back into one of the invariant (Sleepers.SwitchWeak) |
| Invariant.TerminateSelfInv | scheduler.cpp:193-203 | self-termination is a plain dispatch that does not requeue the caller, and keeps the invariant |
| Invariant.LoneMain | scheduler.cpp:295-318 | the case without a requeue is exactly main alone in the map, and then main gets the next quantum itself |
| Sleepers.StepWeakExactly | scheduler.cpp:166-324 | AsWritten with sleepers: no feasible step from the weak invariant looks up a missing thread, and the step keeps the invariant if and only if it neither terminates the pending zombie, nor resumes a blocked zombie, nor is a self-termination by a thread that is asleep or queued |
| Soundness.StepSoundExactly | scheduler.cpp:166-324 | either version, every call: no feasible step looks up a missing thread, and the steps that keep the invariant are exactly the sound ones |
| Soundness.AsWrittenSafe | scheduler.cpp:166-324 | AsWritten, sleep calls included, every sound run from initialisation: no missing lookup; current is live, in the map and the only RUNNING thread; queue entries are live and READY or current, other live READY threads are queued, sleepers are live, main is queued once or current; a pending deletion implies current is not main and in its first quantum |
| Zombies.TerminateExactly | scheduler.cpp:180-189 | either version: terminating a zombie again erases it, and keeps the invariant if and only if its deletion is not pending |
| Zombies.BlockHarmless | scheduler.cpp:206-224 | either version: blocking a zombie keeps the invariant, the queue and what is pending |
| Zombies.ResumeExactly | scheduler.cpp:244-271 | either version: resuming a zombie keeps the invariant if and only if it has not been blocked; otherwise it is queued again |
| Damage.DoomedCrashes | scheduler.cpp:44-58 | either version: if a deleted thread is still running, queued or asleep, some run of ticks alone ends in the lookup of a missing thread |
| Damage.UnsoundStepHarms | scheduler.cpp:193-203 | either version: after every feasible step that is not sound, ticks, spawn calls and sleep(1) calls alone lead to the lookup of a missing thread; after resuming a zombie that is not pending, ticks alone lead to a state in which that zombie is the running thread |
| Damage.SoundExactlyHarmless | scheduler.cpp:166-324 | either version: a step is sound if and only if no feasible run of calls other than terminate and resume, ticks included, leads on from it to the lookup of a missing thread or to a running zombie |
| Zombies.StepInvExactly | scheduler.cpp:166-324 | either version: no feasible step from the invariant looks up a missing thread, and the steps that keep the invariant are exactly the plain ones |
| Reference.StepMeets | scheduler.cpp:147-324 | either version, every feasible step from the invariant: current thread, queue, total and pending mark, and for every thread presence, status, count, flag and deadline, are those of the attribute-wise reference |
| Reference.RepliesExactly | uthreads.cpp:14-72 | either version: a call fails if and only if it is one of the refused calls (null entry point, full map, tid out of range or absent, block of main, sleep for no quantums or by main), with the failure that names the reason and nothing changed; otherwise it reports 0, or the new tid |
| Reference.AcceptedUnlessRefused | uthreads.cpp:14-72 | the calls that the reference lets through are exactly those with no reason to refuse them |
| Reference.ExitsExactly | scheduler.cpp:169-178 | either version: a step ends the process if and only if it is terminate(0), whoever calls |
| Reference.InitRunExits | scheduler.cpp:169-178 | a run from initialisation, whatever its calls, ends the process if and only if it carries out terminate(0) |
| Reference.CrashesExactly | scheduler.cpp:273-277 | from the invariant, with a proper visiting order, a step is undefined if and only if it is a sleep call whose deadline exceeds the largest 32-bit integer |
| Safety.AsWrittenSafeAwake | scheduler.cpp:166-324 | the stronger conclusions for AsWritten runs without sleep calls, every plain run: no missing lookup; the queue is duplicate-free and holds exactly the READY non-zombies; exactly one RUNNING non-zombie, the current thread, which is in the map; a pending deletion implies current is not main and in its first quantum |
| Safety.AsMeantSafe | scheduler.cpp:166-324 | AsMeant, every plain run: stored status equals the status derived from current tid, flag and sleepers; current carries no user-block flag; queue equals the derived READY threads; sleepers are live |
| Safety.SplitTick | scheduler.cpp:61-67 | cutting a tick after the wake loop is harmless, with sleepers too: if nothing, or a nested tick and any sound run after it, takes place before the switch, no missing thread is looked up and the switch restores the invariant; from states of the plain invariant any plain run at all may take place |
| Safety.ZombieStep | scheduler.cpp:301-311 | either version, every state whose zombies are in the map: only self-termination creates zombies or pending deletions; the pending zombie leaves only by leaving the map, any other one only by being terminated by another thread |
| Safety.PendingOverwritten | scheduler.cpp:200-202 | in every sound step a pending tid is overwritten with its thread still in the map exactly when the current thread terminates itself, which is then in its first quantum |
| Safety.ZombiesStayOut | scheduler.cpp:200-203 | through every sound run, sleep calls included, a zombie is neither dispatched nor queued until it has left the map |
| Safety.SelfTerminationStep | scheduler.cpp:193-203 | with or without sleepers, a thread that terminates itself becomes the pending zombie, or has already left the map when the switch resumed a thread that ran before |
| Safety.TerminationErases | scheduler.cpp:180-189 | terminating another thread removes it from map, queue and sleepers, books its count, and leaves every other thread, deadline and queue order alone |
| Safety.BlockingRemoves | scheduler.cpp:214-223 | blocking another thread makes it BLOCKED and flagged and takes it out of the queue, touching nothing else, unless its flag is set already: then nothing happens |
| Safety.ResumingAppends | scheduler.cpp:244-271 | resuming appends a blocked thread that is not asleep to the queue, READY, its flag cleared in AsMeant and left set in AsWritten; a sleeper only loses its flag; other threads are unaffected |
| Safety.SpawnPicksSmallest | scheduler.cpp:147-162 | spawning takes the smallest absent tid below 100 and queues a fresh READY thread last; it fails exactly when live threads plus zombies number 100 |
| Waiting.StepCloser | scheduler.cpp:292-318 | either version, every state and every call that does not block or terminate it: no step pushes a queued thread back, and a switch dispatches it or moves it forward, by exactly one place unless the running thread has lost its object |
| Waiting.QueueBound | scheduler.cpp:35-42 | where no thread is queued twice, a queued thread stands behind fewer than 99 others |
| Waiting.DispatchedInTurn | scheduler.cpp:313-318 | either version, from every state: a thread at position p is current at some point of every run with more than p switches that neither blocks nor terminates it |
| Waiting.BoundedWaiting | scheduler.cpp:292-318 | hence, from every state in which no thread is queued twice, no queued thread waits for more than 99 switches |
| Fairness.SwitchTurn | scheduler.cpp:292-324 | one switch from any state of the invariant rotates the ring by one, gives the new head one quantum and no other live thread any |
| Fairness.OneRound | scheduler.cpp:61-67 | from every state of the invariant, double entries included: with n entries in the ring and no sleeper due, n ticks restore queue and current, add to each live thread one quantum for each of its entries, n to the total, and leave nothing pending; where no thread is queued twice, one quantum to each of the n threads |
| Fairness.RoundRobin | scheduler.cpp:292-324 | after q rounds and p ticks the ring is rotated by p and each thread has gained q quantums per entry and one more for each entry among the next p; where no thread is queued twice, the next p threads have gained q + 1 quantums and the others q |
| Fairness.FairGains | scheduler.cpp:292-324 | after any number of ticks two gains per entry differ by at most one; where no thread is queued twice, two gains do |
| Crowding.TickEntries | scheduler.cpp:44-58 | AsWritten with sleepers: with each tick exactly the threads it wakes gain an entry in the ring, whether they have one already or not |
| Crowding.WaitingUnbounded | scheduler.cpp:44-58 | AsWritten: for every k up to 40000, beyond which the total may overflow, a sound run from initialisation leaves main queued behind k entries, and k ticks do not get it to run; so the bound of 99 needs a queue without double entries |
| Reclamation.ReclaimedUnlessOvertaken | scheduler.cpp:301-311 | in every sound run, sleep calls included: by main's next dispatch, or within main's position plus one switches, a pending thread has left the map if and only if no other thread terminated itself first, or one terminated the leaked thread afterwards |
| Reclamation.LeakedForever | scheduler.cpp:200-201 | a zombie whose pending mark was overwritten stays in the map through every sound run, unless and until another thread terminates it |
| Reclamation.MainWaitsWhilePending | scheduler.cpp:313-318 | while a deletion is pending main is queued, at a position below 99 where no thread is queued twice |
| Sleeping.StepHold | scheduler.cpp:206-289 | AsMeant: one step of the scheduler is one step of a two-part automaton in which sleep deadline and user hold do not affect each other |
| Sleeping.HoldRefined | scheduler.cpp:206-271 | AsMeant: through every plain run the holds on a thread are the automaton's, it is BLOCKED exactly while one is on, and otherwise current or queued, once |
| Sleeping.ReleasedAtTheLater | scheduler.cpp:252-271 | AsMeant: a sleeping, blocked, or sleeping and blocked thread stays BLOCKED until the later of expiry and resume, in either order, and that step enqueues it once |
| Sleeping.SleeperNotScheduled | scheduler.cpp:273-289 | AsMeant: a thread that calls sleep(n) in quantum T is not current in quantums T+1 .. T+n of any plain run that does not terminate it |
| Sleeping.WokenByFirstDueTick | scheduler.cpp:44-58 | AsMeant: through any calls, blocks and resumes of the sleeper included, it stays BLOCKED up to the first tick that finds the total at least T+n, which enqueues it exactly once if its flag is clear then and otherwise leaves it BLOCKED |
| WrittenHolds.StepHold | scheduler.cpp:206-289 | AsWritten, sleepers included: one sound step that does not terminate a thread is one step of a three-part automaton of its deadline, flag and status, which sees only the clock and who is running |
| WrittenHolds.HoldRefined | scheduler.cpp:206-289 | AsWritten: over every sound run that does not terminate it, deadline, flag and status of a thread are the automaton's (the flag is set by an effective block and cleared only by a resume while BLOCKED and asleep), and it is current or queued exactly if it is not BLOCKED |
| WrittenHolds.FlaggedBlockIgnored | scheduler.cpp:210-212 | either version: blocking a live thread whose flag is set, the caller included, changes nothing and reports 0 |
| WrittenHolds.SelfBlockSwitches | scheduler.cpp:226-239 | AsWritten: an unflagged thread that blocks itself is flagged and last in the queue after a switch that counts one quantum and takes the head of the queue |
| WrittenHolds.SleepSetsDeadline | scheduler.cpp:277 | AsWritten: a sleep call sets the caller's deadline to T+n and no other, overwriting an earlier entry |
| WrittenHolds.WokenByFirstDueTick | scheduler.cpp:44-58 | AsWritten: the caller keeps that deadline up to the first tick that finds the total at least T+n, unless it is terminated or sleeps again first; that tick erases its entry and, if its flag is clear, gives it exactly one more entry in the ring |
| Lockstep.LockstepExactly | scheduler.cpp:295-298 | the two versions agree in every state and reply of a run, up to the flags, if and only if no thread blocks itself, is blocked with a left-over flag, or sleeps |
| Lockstep.LockstepFromInit | scheduler.cpp:130-145 | the same for every plain run from initialisation |
| Lockstep.MisfireDisagrees | scheduler.cpp:210-212 | each of these calls makes the versions disagree at once |
| Lockstep.SelfBlockRequeues | scheduler.cpp:226-238 | AsWritten: a thread that blocks itself is back in the queue after the switch |
| Lockstep.SleepRequeues | scheduler.cpp:273-288 | AsWritten: a thread that goes to sleep is last in the queue after the switch |
| Divergence.BlockTakesEffectIff | scheduler.cpp:206-242 | AsWritten, sleepers or not: a block leaves its target BLOCKED exactly if it is not the caller and its flag is not left over |
| ShortSleep.StepNoSooner | scheduler.cpp:166-324 | AsWritten: no step of any kind brings forward the earliest total at which a given thread can be current, as computed from queue and current tid |
| ShortSleep.Comeback | scheduler.cpp:292-324 | AsWritten: that earliest total is reached by a sound run made of ticks and terminations of threads that are neither current nor main nor the one in question |
| ShortSleep.EarliestExactly | scheduler.cpp:292-324 | AsWritten: a queued thread stays off the processor up to a given total, in all runs that do not terminate it, if and only if that total is below the earliest one |
| ShortSleep.SleeperQueued | scheduler.cpp:273-298 | AsWritten, other sleepers or not: the thread that goes to sleep is last in the queue after the switch |
| ShortSleep.WrittenSleepExactly | scheduler.cpp:273-298 | AsWritten: sleep(n) in quantum T keeps the caller off the processor in quantums T+1 .. T+n of every run that does not terminate it, or delete the running thread, if and only if it is not next in the queue and n is at most the cost of the queue it joins |
| ShortSleep.WrittenSleepIff | scheduler.cpp:273-298 | AsWritten, neither the caller nor the next thread having another queue entry: sleep(n) keeps the caller off the processor for n quantums of every run whatever that does not terminate it if and only if n = 1, or n = 2 and main is not next |
| Divergence.WrittenSleepTicksIff | scheduler.cpp:273-298 | AsWritten, no sleepers before: sleep(n) keeps the caller off the processor for n quantums of ticks alone exactly if at least n threads are queued |
| Divergence.LeakRun | scheduler.cpp:200-203 | a run of either version after which a terminated thread stays in the map with nothing pending |
| Divergence.ZombieNamedRun | scheduler.cpp:184-189 | a run of either version that terminates a pending zombie again and ends in the lookup of a missing thread |
| Divergence.SleeperCrashRun | scheduler.cpp:47-49 | an AsWritten run with a sleeper that ends in the lookup of a missing thread |
| Divergence.QueuedTwiceRun | scheduler.cpp:44-58 | an AsWritten run after which the running thread is also at the head of the queue, so that its next sleep(1) gives it the very next quantum |
| Divergence.LeftOverFlagRun | scheduler.cpp:206-212 | an AsWritten run in which a thread is blocked, resumed and blocked again, and stays READY and queued |
| Queues.WithoutKeepsOrder | scheduler.cpp:21-33 | removing a tid keeps the relative order of the others |
| Model.FreeTid | scheduler.cpp:35-42 | the result is absent and every smaller tid is taken, or it is -1 and all are taken |
| Threads.Thread.constructor | thread.cpp:24-30 | a new thread is READY, has no quantums and no user-block flag |
| Threads.Thread.SetState | thread.cpp:60-62 | changes the status and nothing else |
| Threads.Thread.IncrementQuantumCount | thread.cpp:72-74 | adds one quantum and changes nothing else |
| Threads.Thread.SetBlockFlag | thread.cpp:80-82 | changes the flag and nothing else |
| Schedulers.Scheduler.constructor | scheduler.cpp:130-145 | the initial state: main alone, RUNNING, one quantum |
| Schedulers.Scheduler.RemoveFromReadyQueue | scheduler.cpp:21-33 | the draining loop computes the order-preserving filter of the queue |
| Schedulers.Scheduler.NextAvailableTid | scheduler.cpp:35-42 | the counting loop finds the smallest absent tid or -1 |
| Schedulers.Scheduler.WakeSleepingThreads | scheduler.cpp:44-58 | the erasing loop, for every visiting order, is the wake step, missing threads included |
| Schedulers.Scheduler.TimerHandler | scheduler.cpp:61-67 | the handler is the tick step |
| Schedulers.Scheduler.RequeueCurrent | scheduler.cpp:295-298 | the outgoing thread is requeued as the switch step says |
| Schedulers.Scheduler.StartNext | scheduler.cpp:301-323 | dispatch, accounting and reclamation are as the switch step says |
| Schedulers.Scheduler.DoContextSwitch | scheduler.cpp:292-324 | the whole switch is the switch step |
| Schedulers.Scheduler.Spawn | scheduler.cpp:147-162 | is the spawn step; the only new object is the new thread |
| Schedulers.Scheduler.Terminate | scheduler.cpp:166-204 | is the terminate step: exit, deletion of another thread, deferred deletion of the caller |
| Schedulers.Scheduler.Block | scheduler.cpp:206-242 | is the block step, its silent cases and its failure included |
| Schedulers.Scheduler.Resume | scheduler.cpp:244-271 | is the resume step, own tid check included |
| Schedulers.Scheduler.Sleep | scheduler.cpp:273-289 | is the sleep step, undoing its changes when the queue is empty |
| Uthreads.Init | uthreads.cpp:6-12 | fails exactly for a non-positive quantum and otherwise yields the initial state |
| Uthreads.Spawn | uthreads.cpp:14-20 | guard and call together are one step of the model |
| Uthreads.Terminate | uthreads.cpp:22-32 | guards and call together are one step of the model |
| Uthreads.Block | uthreads.cpp:34-48 | guards and call together are one step of the model |
| Uthreads.Resume | uthreads.cpp:50-60 | guards and call together are one step of the model |
| Uthreads.Sleep | uthreads.cpp:62-72 | guards and call together are one step of the model |

## Left out

- Signals inside a call: every API call and every half of a tick is atomic here. The code does not fully ensure this: removeFromReadyQueue unblocks the timer at scheduler.cpp:32 while terminate and block are still running. The cut at scheduler.cpp:65 is covered by Safety.SplitTick.
- ShortSleep.WrittenSleepExactly: covers runs in which the running thread's object stays in the map; a thread whose object has been deleted runs on a deleted stack.
- Damage.UnsoundStepHarms: when a sleeper terminates itself, assumes that the total is further from the largest 32-bit integer than the queue is long, because the continuation makes sleep calls.
- Damage.SoundExactlyHarmless: makes the same assumption, for the same reason.
- Schedulers.Scheduler.DoContextSwitch: does not model the 32-bit width of the quantum counters, which overflow only after two thousand million switches; the deadline of a sleep is checked for overflow.
- Schedulers.Scheduler.Terminate: the deletion of the objects of all threads before the exit is one assignment, because nothing runs after it.
- Schedulers.Scheduler.Sleep: says nothing about the fields after undefined behaviour, where the process is only recorded as crashed.
- Using a deleted thread's stack: when a run that is not plain deletes the current thread the model goes on until the next lookup of its tid.
- Jump buffers, stacks and entry points (thread.cpp:5-22 and thread.cpp:32-47): only the difference between a fresh thread and one that has run before is kept.
- sigaction, setitimer and sigprocmask with their failure exits, and the split of the quantum into seconds and microseconds (scheduler.cpp:70-127).
- The getters, getQuantums and its error path that leaves the timer blocked (scheduler.cpp:327-348), and debugPrintThreads: no further property.
- Memory exhaustion when a stack is allocated (thread.cpp:32-36), demos and tests.
