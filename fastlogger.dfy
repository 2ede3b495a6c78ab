/**
 * The `Logger` class: its handler list (fixed at construction), the entries
 * waiting in `log_queue`, the entries of put tasks not yet run, `_stop_event`,
 * `_queue_task`, the clock readings taken so far and everything observable so
 * far (lines written, failures reported, callback invocations, in order).
 * `Logger.Create` builds it as fastlog.py does: the as-written delivery and
 * the put task per async `log` call. Each method is proved against a
 * transition in module Pipeline, where its properties are proved.
 */
module FastLogger {
  import opened Wrappers
  import opened Levels
  import opened Records
  import opened Config
  import opened Formatters
  import opened Handlers
  import opened Pipeline

  class Logger {
    const setup: Setup
    var clockReads: nat
    var trace: seq<Effect>
    var queue: seq<Entry>
    var pending: seq<Entry>
    var stopEvent: Option<bool>
    var task: Task

    function State(): LoggerState
      reads this
    {
      LoggerState(clockReads, trace, queue, pending, stopEvent, task)
    }

    ghost predicate Valid()
      reads this
    {
      Wf(setup, State())
    }

    /** `__init__` once every handler has been built: nothing queued or pending, no stop event, no task. */
    constructor (config: LoggerConfig, handlers: seq<HandlerSpec>, strftime: Strftime, clock: nat -> Instant,
                 delivery: Delivery, enqueue: Enqueue)
      requires BuildHandlers(config.handlers) == Success(handlers)
      ensures Valid() && State() == InitialState()
      ensures setup.handlers == handlers && setup.callback == config.callback && setup.asyncMode == config.asyncMode
      ensures setup.strftime == strftime && setup.clock == clock
      ensures setup.delivery == delivery && setup.enqueue == enqueue
    {
      setup := Setup(handlers, config.callback, config.asyncMode, strftime, clock, delivery, enqueue);
      clockReads, trace, queue, pending := 0, [], [], [];
      stopEvent, task := None, NoTask;
    }

    /**
     * `Logger(config)`: build one handler per configuration, in order, and
     * fail with the first configuration's error, as `__init__` raises it.
     */
    static method Create(config: LoggerConfig, strftime: Strftime, clock: nat -> Instant) returns (r: Result<Logger, string>)
      ensures r.Success? <==> BuildHandlers(config.handlers).Success?
      ensures r.Failure? ==> r.error == BuildHandlers(config.handlers).error
      ensures r.Success? ==>
        && fresh(r.value) && r.value.Valid() && r.value.State() == InitialState()
        && r.value.setup.handlers == BuildHandlers(config.handlers).value
        && r.value.setup.asyncMode == config.asyncMode
        && r.value.setup.callback == config.callback
        && r.value.setup.strftime == strftime && r.value.setup.clock == clock
        && r.value.setup.delivery == AsWrittenDelivery && r.value.setup.enqueue == SpawnPut
    {
      var cfgs := config.handlers;
      var handlers: seq<HandlerSpec> := [];
      for k := 0 to |cfgs|
        invariant |handlers| == k
        invariant forall j :: 0 <= j < k ==> CreateHandler(cfgs[j]).Success? && handlers[j] == CreateHandler(cfgs[j]).value
      {
        var h := CreateHandler(cfgs[k]);
        if h.Failure? {
          assert BuildHandlers(cfgs).Failure?;
          ghost var first: int :| FirstFailure(cfgs, first) && BuildHandlers(cfgs).error == CreateHandler(cfgs[first]).error;
          assert 0 <= first < |cfgs|;
          return Failure(h.error);
        }
        handlers := handlers + [h.value];
      }
      assert BuildHandlers(cfgs).value == handlers;
      var logger := new Logger(config, handlers, strftime, clock, AsWrittenDelivery, SpawnPut);
      r := Success(logger);
    }

    /** `_emit_log`: one record, created now, delivered to the handlers in order. */
    method EmitLog(e: Entry)
      modifies this`clockReads, this`trace
      ensures clockReads == old(clockReads) + 1
      ensures trace == old(trace) + Deliver(setup, EntryRecord(e, setup.clock(old(clockReads))))
    {
      var rec := EntryRecord(e, setup.clock(clockReads));
      clockReads := clockReads + 1;
      trace := trace + Deliver(setup, rec);
    }

    /** `_process_log_entry`: emit, then the callback; a raised callback becomes one ERROR record. */
    method ProcessLogEntry(e: Entry)
      modifies this`clockReads, this`trace
      ensures State() == Apply(old(State()), ProcessEntry(setup, old(clockReads), e))
    {
      ghost var before := State();
      ghost var written := Deliver(setup, EntryRecord(e, setup.clock(clockReads)));
      EmitLog(e);
      if setup.callback.Some? {
        trace := trace + [Called(e)];
        var err := setup.callback.value(e);
        if err.Some? {
          var rec := ErrorRecord(err.value, setup.clock(clockReads));
          clockReads := clockReads + 1;
          trace := trace + Deliver(setup, rec);
          assert trace == before.trace + (written + [Called(e)] + Deliver(setup, rec));
        } else {
          assert trace == before.trace + (written + [Called(e)]);
        }
      }
    }

    /** `log(level, message, **context)`. */
    method Log(level: LogLevel, message: string, context: Context)
      requires Valid()
      modifies this
      ensures Valid()
      ensures State() == AfterLog(setup, old(State()), level, message, context)
    {
      // The guard `LEVEL_MAP[level] < self.logger.level` never holds (Levels.LoggerLevelAdmitsAll).
      var e := MakeEntry(setup, clockReads, level, message, context);
      clockReads := clockReads + 1;
      if !setup.asyncMode {
        ProcessLogEntry(e);
      } else if setup.enqueue == SpawnPut {
        // `asyncio.create_task(self.log_queue.put(log_entry))`: the put runs later.
        pending := pending + [e];
      } else {
        Put(e);
      }
      assert Wf(setup, AfterLog(setup, old(State()), level, message, context)) by {
        LogBuildsOneEntry(setup, old(State()), level, message, context);
      }
    }

    method Debug(message: string, context: Context)
      requires Valid()
      modifies this
      ensures Valid() && State() == AfterLog(setup, old(State()), DEBUG, message, context)
    {
      Log(DEBUG, message, context);
    }

    method Info(message: string, context: Context)
      requires Valid()
      modifies this
      ensures Valid() && State() == AfterLog(setup, old(State()), INFO, message, context)
    {
      Log(INFO, message, context);
    }

    method Warning(message: string, context: Context)
      requires Valid()
      modifies this
      ensures Valid() && State() == AfterLog(setup, old(State()), WARNING, message, context)
    {
      Log(WARNING, message, context);
    }

    method Error(message: string, context: Context)
      requires Valid()
      modifies this
      ensures Valid() && State() == AfterLog(setup, old(State()), ERROR, message, context)
    {
      Log(ERROR, message, context);
    }

    method Critical(message: string, context: Context)
      requires Valid()
      modifies this
      ensures Valid() && State() == AfterLog(setup, old(State()), CRITICAL, message, context)
    {
      Log(CRITICAL, message, context);
    }

    /** `log_queue.put_nowait(e)`: append, and wake a drain task suspended in `get()`. */
    method Put(e: Entry)
      modifies this`queue, this`task
      ensures State() == PutEntry(old(State()), e)
    {
      queue := queue + [e];
      if task == Waiting {
        task := Scheduled(|pending|);
      }
    }

    /** `start()`. */
    method Start()
      requires Valid()
      modifies this
      ensures Valid() && State() == AfterStart(setup, old(State()))
    {
      if setup.asyncMode {
        stopEvent := Some(false);
        task := Scheduled(|pending|);
      }
    }

    /**
     * `_process_log_queue` from where it stands when the event loop resumes
     * it: at the loop test, or in a `get()` that an arriving entry has woken
     * (with the queue non-empty, both amount to the same).
     */
    method ProcessLogQueue()
      requires Valid() && task == Scheduled(0)
      modifies this
      ensures State() == RunDrain(setup, old(State()))
    {
      while stopEvent != Some(true) || queue != []
        invariant stopEvent == old(stopEvent) && pending == old(pending) && task == Scheduled(0)
        invariant RunDrain(setup, State()) == RunDrain(setup, old(State()))
        decreases |queue|
      {
        if queue == [] {
          // `await self.log_queue.get()` suspends on the empty queue.
          task := Waiting;
          return;
        }
        ghost var before := State();
        var e := queue[0];
        queue := queue[1..];
        ProcessLogEntry(e);
        assert State() == Dequeue(setup, before);
      }
      task := Finished;
    }

    /** One callback of the event loop: the drain task, if it is at the head of the ready queue, or else the next put task. */
    method RunNextJob()
      requires Valid() && HasJob(State())
      modifies this
      ensures Valid() && State() == RunJob(setup, old(State()))
    {
      if task == Scheduled(0) {
        ProcessLogQueue();
      } else {
        // A put task: `put` on an unbounded queue completes without suspending.
        var e := pending[0];
        pending := pending[1..];
        if task.Scheduled? {
          task := Scheduled(task.ahead - 1);
        }
        Put(e);
      }
    }

    /** The caller awaits something else, such as `asyncio.sleep(1)`: the event loop runs this logger's jobs until none is left. */
    method Sleep()
      requires Valid()
      modifies this
      ensures Valid() && State() == RunUntilIdle(setup, old(State()))
    {
      while HasJob(State())
        invariant Valid()
        invariant RunUntilIdle(setup, State()) == RunUntilIdle(setup, old(State()))
        decreases Measure(State())
      {
        RunNextJob();
      }
    }

    /**
     * `await self._queue_task`: the event loop runs jobs until the drain task
     * returns or no job is left; once it returns, the jobs already ready run
     * before the awaiting caller resumes.
     */
    method AwaitTask()
      requires Valid()
      modifies this
      ensures Valid() && State() == RunUntilDone(setup, old(State()))
    {
      if task == Finished {
        // Awaiting a task that has already returned resumes at once.
        return;
      }
      while task != Finished && HasJob(State())
        invariant Valid()
        invariant task != Finished ==> RunUntilDone(setup, State()) == RunUntilDone(setup, old(State()))
        invariant task == Finished ==> RunUntilIdle(setup, State()) == RunUntilDone(setup, old(State()))
        decreases Measure(State())
      {
        OneJob(setup, State());
        RunNextJob();
      }
      if task == Finished {
        Sleep();
      }
    }

    /** `shutdown()`; `completed` is false when the await on the drain task would never return. */
    method Shutdown() returns (completed: bool)
      requires Valid()
      modifies this
      ensures Valid() && (State(), completed) == AfterShutdown(setup, old(State()))
    {
      completed := true;
      if setup.asyncMode && stopEvent.Some? {
        stopEvent := Some(true);
        // `_queue_task` exists whenever `_stop_event` does.
        AwaitTask();
        completed := task == Finished;
      }
    }
  }
}
