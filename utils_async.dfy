/**
 * UtilsAsync: the process-wide table of AsyncContexts, one per mod id.
 * An entry is created on first request and lives until shutdownAll.
 */
module AsyncRegistry {
  import opened Async

  class UtilsAsync {
    var contexts: map<string, AsyncContext>

    /** The contexts the table holds. */
    function Contexts(): set<AsyncContext>
      reads this
    {
      set k | k in contexts :: contexts[k]
    }

    constructor ()
      ensures contexts == map[]
    {
      contexts := map[];
    }

    /** createContext: the mod's context, made with `threadName` only if none exists. */
    method CreateContext(modId: string, threadName: string) returns (ctx: AsyncContext)
      modifies this`contexts
      ensures modId in old(contexts) ==> ctx == old(contexts[modId]) && contexts == old(contexts)
      ensures modId !in old(contexts) ==>
        fresh(ctx) && contexts == old(contexts)[modId := ctx] &&
        ctx.workerName == threadName + "-Worker" && ctx.schedulerName == threadName + "-Scheduler" &&
        ctx.ExecutorAccepts() && ctx.SchedulerAccepts() && ctx.queue == [] && ctx.timers == []
    {
      if modId in contexts {
        ctx := contexts[modId];
      } else {
        ctx := new AsyncContext(threadName);
        contexts := contexts[modId := ctx];
      }
    }

    /**
     * getContext: never null; a missing entry is created with the base name
     * `modId + "-Worker"`, so its threads are `modId-Worker-Worker` and
     * `modId-Worker-Scheduler`.
     */
    method GetContext(modId: string) returns (ctx: AsyncContext)
      modifies this`contexts
      ensures modId in contexts && ctx == contexts[modId]
      ensures modId in old(contexts) ==> ctx == old(contexts[modId]) && contexts == old(contexts)
      ensures modId !in old(contexts) ==>
        fresh(ctx) && contexts == old(contexts)[modId := ctx] &&
        ctx.workerName == modId + "-Worker-Worker" && ctx.schedulerName == modId + "-Worker-Scheduler" &&
        ctx.ExecutorAccepts() && ctx.SchedulerAccepts()
    {
      ctx := CreateContext(modId, modId + "-Worker");
    }

    /**
     * One step of shutdownAll: c, found with the timers and jobs it had when
     * shutdownAll began or as an earlier shutdown left them, ends with what
     * one shutdown keeps.
     */
    method ShutdownContext(c: AsyncContext, ghost timers0: seq<Timer>, ghost queue0: seq<Job>)
      requires c.Holds(timers0, queue0) || c.ShutFrom(timers0, queue0)
      modifies c`running, c`executorShutdown, c`schedulerShutdown, c`timers
      ensures c.ShutFrom(timers0, queue0)
    {
      KeptIdempotent(timers0);
      c.Shutdown();
    }

    /**
     * shutdownAll: every context in the table is shut down, so none accepts
     * work and none keeps a periodic task, while queued jobs and delayed
     * one-shots stay to be run; the table is emptied. A context held under
     * two ids is shut down twice, which changes nothing the first did not.
     */
    method ShutdownAll()
      modifies this`contexts, Contexts()
      ensures contexts == map[]
      ensures forall k :: k in old(contexts) ==>
        var c := old(contexts[k]);
        !c.running && !c.ExecutorAccepts() && !c.SchedulerAccepts() &&
        c.timers == KeptAfterShutdown(old(c.timers)) && c.queue == old(c.queue)
    {
      var todo := contexts.Keys;
      while todo != {}
        invariant todo <= contexts.Keys && contexts == old(contexts)
        invariant forall k :: k in contexts ==>
          var c := contexts[k];
          c.Holds(old(c.timers), old(c.queue)) || c.ShutFrom(old(c.timers), old(c.queue))
        invariant forall k :: k in contexts && k !in todo ==>
          var c := contexts[k];
          c.ShutFrom(old(c.timers), old(c.queue))
        decreases |todo|
      {
        var k :| k in todo;
        ShutdownContext(contexts[k], old(contexts[k].timers), old(contexts[k].queue));
        todo := todo - {k};
      }
      contexts := map[];
    }
  }
}
