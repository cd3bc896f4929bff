/**
 * AsyncContext: a per-mod pair of single-thread executors, run here one
 * step at a time. Submitted work waits in a FIFO queue until RunNextJob
 * runs it; delayed and periodic work waits in a timer list until FireTimer
 * fires it. When the context no longer accepts work the task runs inline,
 * before the submitting call returns. A supplier is described by what it
 * does when called: return a value or throw an exception.
 */
module Async {
  import opened Wrappers

  /** A value a supplier can return; `Null` is Java's null. */
  datatype Value = Null | Obj(id: nat)

  datatype Outcome = Returned(value: Value) | Threw(error: Exception)

  datatype FutureState = Pending | Completed(value: Value) | Failed(error: Exception)

  /** The state a pending future reaches when a task with this outcome completes it. */
  function Settle(o: Outcome): (s: FutureState)
    ensures s != Pending
    ensures o.Returned? <==> s.Completed?
    ensures o.Returned? ==> s.value == o.value
    ensures o.Threw? ==> s.error == o.error
  {
    match o
    case Returned(v) => Completed(v)
    case Threw(e) => Failed(e)
  }

  /** runAsync wraps a runnable: null when it returns, its exception when it throws. */
  function RunnableOutcome(thrown: Option<Exception>): (o: Outcome)
    ensures thrown.None? ==> o == Returned(Null)
    ensures thrown.Some? ==> o == Threw(thrown.value)
  {
    match thrown
    case None => Returned(Null)
    case Some(e) => Threw(e)
  }

  /** CompletableFuture: settled at most once. */
  class Future {
    var state: FutureState

    constructor ()
      ensures state == Pending
    {
      state := Pending;
    }

    /** complete / completeExceptionally: true iff this call settled the future. */
    method Complete(o: Outcome) returns (changed: bool)
      modifies this
      ensures changed == old(state).Pending?
      ensures state == if changed then Settle(o) else old(state)
    {
      changed := state.Pending?;
      if changed {
        state := Settle(o);
      }
    }
  }

  /** The exceptions the periodic runs after the first print, for a supplier's first n runs. */
  function Logged(supplier: nat -> Outcome, n: nat): (log: seq<Exception>)
    ensures |log| < n || n == 0
  {
    if n <= 1 then []
    else Logged(supplier, n - 1) + (if supplier(n - 1).Threw? then [supplier(n - 1).error] else [])
  }

  /** Every logged exception comes from a run after the first, in run order. */
  lemma {:induction false} LoggedAreLaterFailures(supplier: nat -> Outcome, n: nat, j: nat)
    requires j < |Logged(supplier, n)|
    ensures exists i :: 1 <= i < n && supplier(i) == Threw(Logged(supplier, n)[j])
  {
    var prev := Logged(supplier, n - 1);
    if j < |prev| {
      LoggedAreLaterFailures(supplier, n - 1, j);
      var i :| 1 <= i < n - 1 && supplier(i) == Threw(prev[j]);
      assert Logged(supplier, n)[j] == prev[j];
    } else {
      assert supplier(n - 1) == Threw(Logged(supplier, n)[j]);
    }
  }

  /**
   * The Runnable scheduleAtFixedRate builds: its `firstRun` latch, the
   * future only the first run settles, and the exceptions later runs print.
   * `supplier(i)` is what the i-th call of the supplier does.
   */
  class FixedRateTask {
    const supplier: nat -> Outcome
    const future: Future
    var firstRun: bool
    var runs: nat
    var log: seq<Exception>

    /** The latch is down exactly after the first run, which settled the future. */
    ghost predicate Valid()
      reads this, future
    {
      (firstRun <==> runs == 0) &&
      future.state == (if runs == 0 then Pending else Settle(supplier(0))) &&
      log == Logged(supplier, runs)
    }

    constructor (supplier: nat -> Outcome, future: Future)
      requires future.state.Pending?
      ensures this.supplier == supplier && this.future == future
      ensures firstRun && runs == 0 && log == [] && Valid()
    {
      this.supplier := supplier;
      this.future := future;
      firstRun := true;
      runs := 0;
      log := [];
    }

    /** run(): call the supplier; the first run settles the future, later exceptions are logged. */
    method Run()
      requires Valid()
      modifies this, future
      ensures Valid() && runs == old(runs) + 1 && !firstRun
      ensures old(runs) > 0 ==> future.state == old(future.state)
    {
      var o := supplier(runs);
      if firstRun {
        var _ := future.Complete(o);
        firstRun := false;
      } else if o.Threw? {
        log := log + [o.error];
      }
      runs := runs + 1;
    }
  }

  /** A task waiting for the executor: supply's wrapper around the supplier. */
  datatype Job = Job(outcome: Outcome, future: Future)

  /** Work waiting for the scheduler. */
  datatype Timer =
    | OneShot(outcome: Outcome, future: Future, delay: int)
    | Periodic(task: FixedRateTask, initialDelay: int, period: int)

  /** The timers the scheduler keeps after shutdown: delayed one-shots run, periodic ones are cancelled. */
  function KeptAfterShutdown(ts: seq<Timer>): (r: seq<Timer>)
    ensures |r| <= |ts|
    ensures forall i :: 0 <= i < |r| ==> r[i].OneShot? && r[i] in ts
    ensures forall t :: t in ts && t.OneShot? ==> t in r
  {
    if ts == [] then []
    else (if ts[0].OneShot? then [ts[0]] else []) + KeptAfterShutdown(ts[1..])
  }

  /** Shutting the scheduler down twice keeps what the first shutdown kept. */
  lemma {:induction false} KeptIdempotent(ts: seq<Timer>)
    ensures KeptAfterShutdown(KeptAfterShutdown(ts)) == KeptAfterShutdown(ts)
  {
    if ts != [] {
      KeptIdempotent(ts[1..]);
      var head := if ts[0].OneShot? then [ts[0]] else [];
      KeptAppend(head, KeptAfterShutdown(ts[1..]));
      assert KeptAfterShutdown(head) == head;
    }
  }

  /** KeptAfterShutdown distributes over concatenation. */
  lemma {:induction false} KeptAppend(a: seq<Timer>, b: seq<Timer>)
    ensures KeptAfterShutdown(a + b) == KeptAfterShutdown(a) + KeptAfterShutdown(b)
  {
    if a != [] {
      assert (a + b)[1..] == a[1..] + b;
      KeptAppend(a[1..], b);
    } else {
      assert a + b == b;
    }
  }

  class AsyncContext {
    /** The names of the worker and scheduler threads. */
    const workerName: string
    const schedulerName: string
    var running: bool
    var executorShutdown: bool
    var schedulerShutdown: bool
    var queue: seq<Job>
    var timers: seq<Timer>

    /** A new context is running, with nothing queued. */
    constructor (threadName: string)
      ensures workerName == threadName + "-Worker" && schedulerName == threadName + "-Scheduler"
      ensures running && !executorShutdown && !schedulerShutdown && queue == [] && timers == []
    {
      workerName := threadName + "-Worker";
      schedulerName := threadName + "-Scheduler";
      running := true;
      executorShutdown := false;
      schedulerShutdown := false;
      queue := [];
      timers := [];
    }

    /** submitOrFallback submits only while this holds. */
    predicate ExecutorAccepts()
      reads this
    {
      running && !executorShutdown
    }

    /** schedule and scheduleAtFixedRate hand work to the scheduler only while this holds. */
    predicate SchedulerAccepts()
      reads this
    {
      running && !schedulerShutdown
    }

    /** The context holds the timers `timers0` and the jobs `queue0`. */
    ghost predicate Holds(timers0: seq<Timer>, queue0: seq<Job>)
      reads this
    {
      timers == timers0 && queue == queue0
    }

    /** The context is shut down from timers `timers0` and jobs `queue0`. */
    ghost predicate ShutFrom(timers0: seq<Timer>, queue0: seq<Job>)
      reads this
    {
      !running && !ExecutorAccepts() && !SchedulerAccepts() &&
      timers == KeptAfterShutdown(timers0) && queue == queue0
    }

    /**
     * supply: a fresh future, either queued behind the executor's earlier
     * work or, in fallback, settled by running the supplier inline.
     */
    method Supply(outcome: Outcome) returns (f: Future)
      modifies this`queue
      ensures fresh(f)
      ensures old(ExecutorAccepts()) ==> queue == old(queue) + [Job(outcome, f)] && f.state == Pending
      ensures !old(ExecutorAccepts()) ==> queue == old(queue) && f.state == Settle(outcome)
    {
      f := new Future();
      if ExecutorAccepts() {
        queue := queue + [Job(outcome, f)];
      } else {
        var _ := f.Complete(outcome);
      }
    }

    /** runAsync: supply of a supplier that runs the runnable and returns null. */
    method RunAsync(thrown: Option<Exception>) returns (f: Future)
      modifies this`queue
      ensures fresh(f)
      ensures old(ExecutorAccepts()) ==> queue == old(queue) + [Job(RunnableOutcome(thrown), f)] && f.state == Pending
      ensures !old(ExecutorAccepts()) ==> queue == old(queue) && f.state == Settle(RunnableOutcome(thrown))
    {
      f := Supply(RunnableOutcome(thrown));
    }

    /** The executor runs its oldest job, which settles that job's future if still pending. */
    method RunNextJob()
      requires queue != []
      modifies this`queue, queue[0].future
      ensures queue == old(queue[1..])
      ensures old(queue[0].future.state).Pending? ==> old(queue[0].future).state == Settle(old(queue[0].outcome))
      ensures !old(queue[0].future.state).Pending? ==> old(queue[0].future).state == old(queue[0].future.state)
    {
      var job := queue[0];
      queue := queue[1..];
      var _ := job.future.Complete(job.outcome);
    }

    /** schedule: like supply, but through the scheduler; in fallback the delay is ignored. */
    method Schedule(outcome: Outcome, delay: int) returns (f: Future)
      modifies this`timers
      ensures fresh(f)
      ensures old(SchedulerAccepts()) ==> timers == old(timers) + [OneShot(outcome, f, delay)] && f.state == Pending
      ensures !old(SchedulerAccepts()) ==> timers == old(timers) && f.state == Settle(outcome)
    {
      f := new Future();
      if SchedulerAccepts() {
        timers := timers + [OneShot(outcome, f, delay)];
      } else {
        var _ := f.Complete(outcome);
      }
    }

    /**
     * scheduleAtFixedRate: the future of the first run. In fallback the task
     * runs once inline and is never repeated. A scheduler that accepts work
     * rejects a period that is not positive with IllegalArgumentException,
     * which reaches the caller.
     */
    method ScheduleAtFixedRate(supplier: nat -> Outcome, initialDelay: int, period: int)
      returns (r: Result<Future>, ghost task: FixedRateTask?)
      modifies this`timers
      ensures old(SchedulerAccepts()) && period <= 0 ==> r.Err? && r.error.IllegalArgument? && timers == old(timers)
      ensures r.Ok? ==> fresh(r.value) && task != null && fresh(task) && task.future == r.value && task.supplier == supplier
      ensures old(SchedulerAccepts()) && period > 0 ==>
        r.Ok? && timers == old(timers) + [Periodic(task, initialDelay, period)] && r.value.state == Pending && task.Valid()
      ensures !old(SchedulerAccepts()) ==>
        r.Ok? && timers == old(timers) && task.runs == 1 && r.value.state == Settle(supplier(0)) && task.Valid()
    {
      var f := new Future();
      var t := new FixedRateTask(supplier, f);
      task := t;
      if SchedulerAccepts() {
        if period <= 0 {
          r := Err(IllegalArgument("period <= 0"));
          return;
        }
        timers := timers + [Periodic(t, initialDelay, period)];
      } else {
        t.Run();
      }
      r := Ok(f);
    }

    /**
     * The scheduler fires timer i: a one-shot settles its future and is
     * removed; a periodic task runs again and stays.
     */
    method FireTimer(i: nat)
      requires i < |timers|
      requires timers[i].Periodic? ==> timers[i].task.Valid()
      modifies this`timers, if timers[i].OneShot? then {timers[i].future} else {timers[i].task, timers[i].task.future}
      ensures old(timers[i]).OneShot? ==> timers == old(timers[..i] + timers[i + 1..])
      ensures old(timers[i]).OneShot? && old(timers[i].future.state).Pending? ==>
        old(timers[i].future).state == Settle(old(timers[i].outcome))
      ensures old(timers[i]).Periodic? ==>
        timers == old(timers) && old(timers[i].task).Valid() && old(timers[i].task).runs == old(timers[i].task.runs) + 1
    {
      var t := timers[i];
      match t
      case OneShot(o, f, _) =>
        timers := timers[..i] + timers[i + 1..];
        var _ := f.Complete(o);
      case Periodic(task, _, _) =>
        task.Run();
    }

    /**
     * shutdown: `running` falls first, then both executors stop accepting.
     * Queued jobs and delayed one-shots are still run; periodic tasks are
     * cancelled.
     */
    method Shutdown()
      modifies this`running, this`executorShutdown, this`schedulerShutdown, this`timers
      ensures !running && executorShutdown && schedulerShutdown
      ensures !ExecutorAccepts() && !SchedulerAccepts()
      ensures timers == KeptAfterShutdown(old(timers))
    {
      running := false;
      executorShutdown := true;
      schedulerShutdown := true;
      timers := KeptAfterShutdown(timers);
    }
  }

  /**
   * Fixed-rate latch over n runs: the future holds the first run's result
   * and the log holds exactly the later runs' exceptions.
   */
  method RunFixedRate(supplier: nat -> Outcome, n: nat) returns (state: FutureState, log: seq<Exception>)
    ensures n == 0 ==> state == Pending
    ensures n > 0 ==> state == Settle(supplier(0))
    ensures log == Logged(supplier, n)
  {
    var f := new Future();
    var t := new FixedRateTask(supplier, f);
    var i := 0;
    while i < n
      invariant 0 <= i <= n && t.Valid() && t.runs == i
    {
      t.Run();
      i := i + 1;
    }
    state := f.state;
    log := t.log;
  }

  /** After shutdown every supply runs inline: no job is ever queued or dropped. */
  method SupplyAfterShutdown(ctx: AsyncContext, o: Outcome) returns (state: FutureState)
    modifies ctx
    ensures state == Settle(o) && ctx.queue == old(ctx.queue)
  {
    ctx.Shutdown();
    var f := ctx.Supply(o);
    state := f.state;
  }
}
