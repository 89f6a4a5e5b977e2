/** The library's entry points: argument guards in front of the scheduler. Each is one Model.Step of version
    AsWritten. */
module Uthreads {
  import opened Model
  import opened Schedulers

  method Init(quantumUsecs: int) returns (r: Reply, scheduler: Scheduler?)
    ensures quantumUsecs <= 0 <==> r == Error(NonPositiveQuantums)
    ensures r.Error? ==> scheduler == null
    ensures r.Ok? ==> scheduler != null && fresh(scheduler) && fresh(scheduler.threads.Values) && scheduler.Valid()
                      && scheduler.process == Alive && scheduler.Abs() == Model.Init() && r == Ok(0)
  {
    if quantumUsecs <= 0 {
      return Error(NonPositiveQuantums), null;
    }
    scheduler := new Scheduler();
    r := Ok(0);
  }

  method Spawn(scheduler: Scheduler, hasEntryPoint: bool) returns (r: Reply)
    requires scheduler.Valid() && scheduler.process == Alive
    modifies scheduler, scheduler.threads.Values
    ensures scheduler.Valid() && fresh(scheduler.threads.Values - old(scheduler.threads.Values))
    ensures scheduler.Matches(Step(AsWritten, old(scheduler.Abs()), Action.Spawn(hasEntryPoint)), r)
  {
    if !hasEntryPoint {
      return Error(NullEntryPoint);
    }
    r := scheduler.Spawn();
  }

  method Terminate(scheduler: Scheduler, tid: int) returns (r: Reply)
    requires scheduler.Valid() && scheduler.process == Alive
    modifies scheduler, scheduler.threads.Values
    ensures scheduler.Valid() && scheduler.threads.Values <= old(scheduler.threads.Values)
    ensures scheduler.Matches(Step(AsWritten, old(scheduler.Abs()), Action.Terminate(tid)), r)
  {
    if tid < 0 || tid >= MAX_THREAD_NUM {
      return Error(InvalidTid);
    }
    if tid !in scheduler.threads {
      return Error(NoSuchThread);
    }
    r := scheduler.Terminate(tid);
  }

  method Block(scheduler: Scheduler, tid: int) returns (r: Reply)
    requires scheduler.Valid() && scheduler.process == Alive
    modifies scheduler, scheduler.threads.Values
    ensures scheduler.Valid() && scheduler.threads.Values <= old(scheduler.threads.Values)
    ensures scheduler.Matches(Step(AsWritten, old(scheduler.Abs()), Action.Block(tid)), r)
  {
    if tid < 0 || tid >= MAX_THREAD_NUM {
      return Error(InvalidTid);
    }
    if tid == 0 {
      return Error(CannotBlockMain);
    }
    if tid !in scheduler.threads {
      return Error(NoSuchThread);
    }
    r := scheduler.Block(tid);
  }

  method Resume(scheduler: Scheduler, tid: int) returns (r: Reply)
    requires scheduler.Valid() && scheduler.process == Alive
    modifies scheduler, scheduler.threads.Values
    ensures scheduler.Valid() && scheduler.threads.Values <= old(scheduler.threads.Values)
    ensures scheduler.Matches(Step(AsWritten, old(scheduler.Abs()), Action.Resume(tid)), r)
  {
    if tid < 0 || tid >= MAX_THREAD_NUM {
      return Error(InvalidTid);
    }
    if tid !in scheduler.threads {
      return Error(NoSuchThread);
    }
    r := scheduler.Resume(tid);
  }

  method Sleep(scheduler: Scheduler, numQuantums: int) returns (r: Reply)
    requires scheduler.Valid() && scheduler.process == Alive
    modifies scheduler, scheduler.threads.Values
    ensures scheduler.Valid() && scheduler.threads.Values <= old(scheduler.threads.Values)
    ensures scheduler.Matches(Step(AsWritten, old(scheduler.Abs()), Action.Sleep(numQuantums)), r)
  {
    if numQuantums <= 0 {
      return Error(NonPositiveQuantums);
    }
    if scheduler.currentTid == 0 {
      return Error(MainCannotSleep);
    }
    r := scheduler.Sleep(numQuantums);
  }
}
