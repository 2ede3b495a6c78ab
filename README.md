# fastlog: a verified model of the event pipeline

This project models the core of `fastlog.py` in Dafny: the structured logger `Logger` and what it depends on. Callers log a message at a severity with free-form `key=value` context. The logger builds one entry dict per call. In synchronous mode it hands the entry to the handlers right away. In asynchronous mode `log` schedules a task that puts the entry on `log_queue`, and a drain task (`_process_log_queue`) takes entries off the queue. The optional user callback runs once per processed entry.

The model covers:

- **Severities.** The `LogLevel` enum, its parser `LogLevel.from_str`, `LEVEL_MAP`, and the standard library's level names (`levels.dfy`).
- **Configuration.** `HandlerConfig`, and how `LoggerConfig` fills in defaults (`config.dfy`).
- **Handler selection.** `_create_handler`, the handler-building loop in `__init__`, and a corrected delivery of one record to every eligible handler in list order (`handlers.dfy`).
- **Formatters.** `PlainFormatter.format` and `JSONFormatter.format` as their authors evidently intended, plus a decoder for the JSON document that proves its round trip (`formatters.dfy`).
- **The formatters and the delivery as the source writes them** (`aswritten.dfy`). This covers the record that the standard library shares between handlers, and the extra format that `RotatingFileHandler.shouldRollover` performs. Four of the findings below come from this module.
- **The logger's state changes and the asyncio event loop as pure functions** (`pipeline.dfy`). This covers `log`, `_process_log_entry`, `start`, `shutdown`, the drain task, the put task that each async `log` call creates, and the caller's own awaits. The properties of the pipeline are proved here for either delivery and either enqueue style.
- **The class `FastLogger.Logger`** (`fastlogger.dfy`). Its fields are:
  - the handler list;
  - the queue;
  - the entries of put tasks that have not run yet;
  - `_stop_event` and `_queue_task`;
  - the clock readings taken so far;
  - the trace of observable effects.

  `Logger.Create` builds it as the source does: the as-written delivery, and one put task per async `log` call. Each method is proved to produce exactly the new state that the matching function in `Pipeline` computes. `ProcessLogQueue` is the source's drain loop as a `while` loop.

Observable behaviour is a trace of effects, in order:

- `Wrote(i, line)`: handler `i` wrote `line`.
- `Called(entry)`: the callback was invoked with `entry`.
- `HandleError(i)`: handler `i` failed, and the standard library reported the failure through `handleError`.

`LinesTo(trace, i)` is what handler `i` received. `Calls(trace)` is the callback's invocation log.

**The event loop.** Only this logger's tasks are modelled. A drain task is one of:

- not created;
- ready, behind a number of pending put tasks;
- suspended in `log_queue.get()` on an empty queue;
- returned.

A put task, when it runs, appends its entry and wakes a suspended drain task. The woken task joins the back of the ready queue. A turn of the drain task runs without suspending while entries are queued. Once the queue is empty, the turn returns if the stop event is set and suspends in `get()` otherwise.

`await self._queue_task` in `shutdown` runs jobs until the drain task has returned or no job is left. When the task returns, the awaiting caller is scheduled behind the jobs already ready, so those jobs run before `shutdown` resumes. Awaiting a task that has already returned resumes at once. A caller's `await asyncio.sleep(...)` runs jobs until none is left.

**Two behaviours that follow from the code:**

- **Timestamps.** Every formatter formats `record.created`. That is the moment `_emit_log` creates the standard-library record, which in async mode is the moment the entry is drained. The entry's own `"timestamp"` field (fastlog.py:242) is never rendered. The model therefore reads the clock separately in `log`, in `_emit_log`, and for the record of a callback error.
- **Shutdown.** `shutdown` does not always drain the queue to completion, for two reasons:
  - The loop at fastlog.py:274-277 can be suspended in `log_queue.get()` on an empty queue. Setting the stop event does not wake it, so `await self._queue_task` (fastlog.py:226) never returns.
  - A put task created by `log` after the drain task became ready runs only after that task has returned. Its entry is left in the queue and never processed.

  `Pipeline.AfterShutdown` returns a flag saying whether the `await` returns. `Pipeline.ShutdownCompletesIff` says exactly when it does, and `Pipeline.ShutdownDrains` says what has then been processed.

Foreign parts are parameters of the model:

- `strftime`, a function from pattern and instant to text;
- the clock, the instant returned by the n-th reading;
- the callback, which returns `None` when it returns normally, or `Some(message)` when it raises.

JSON lines are kept as the document given to `json.dumps`.

## Model

| member | source | states |
|---|---|---|
| Levels.Lookup | fastlog.py:39-40 | a member is found iff one has exactly that name, and the one found bears it |
| Levels.FromStr | fastlog.py:24-41 | success gives the member named by the upper-cased input; failure happens only when no member has that name, and its message is `Unknown log level: ` followed by the upper-cased input |
| Levels.FromStrCaseInsensitive | fastlog.py:38 | parsing the lower-cased or upper-cased input gives the same result as the input itself |
| Levels.NameRoundTrip | fastlog.py:18-22 | every member's value names it under `LogLevel[...]` and parses back to it, in any case |
| Levels.Rank | fastlog.py:132-138 | `LEVEL_MAP`: each member's numeric standard-library level; its property is `Levels.RankStrictlyIncreasing` |
| Levels.RankStrictlyIncreasing | fastlog.py:132-138 | numeric levels strictly increase in the order DEBUG < INFO < WARNING < ERROR < CRITICAL |
| Levels.StdLevelNameOfRank | fastlog.py:286-287 | the standard library's `levelname` for a member's numeric level is the member's name |
| Levels.LoggerLevelAdmitsAll | fastlog.py:237-238 | the logger's own level is DEBUG's rank, the lowest, so the early return in `log` never fires |
| Config.DefaultHandlerConfig | fastlog.py:67-77 | the default `HandlerConfig()`: CONSOLE, INFO, PLAIN, no filename, no rotation, rotate count 5; its use is stated by `Config.NewLoggerConfig` |
| Config.NewLoggerConfig | fastlog.py:107-123 | the handler list is never empty; a given non-empty list is kept; a missing or empty one becomes one CONSOLE/INFO/PLAIN handler with rotate count 5 and no file or rotation settings; callback and mode are kept |
| Handlers.CreateHandler | fastlog.py:160-205 | construction succeeds iff the handler is CONSOLE, or FILE with a filename whose rotation settings the chosen handler accepts (size rotation, no time rotation, or a `rotate_when` that `Handlers.WhenError` accepts); a FILE handler without a filename fails with the "requires a filename" error, a time-rotating one with a rejected `rotate_when` fails with that interval's error, and any other type fails with the "Unsupported handler type" error; the threshold is `LEVEL_MAP[level]`; the JSON formatter is chosen iff the format is JSON, with the configured timestamp pattern; CONSOLE gives a stream; FILE gives size rotation iff `rotate_size` is truthy, else time rotation iff `rotate_when` is truthy, else a plain file, with the configured file, size or interval and backup count |
| Handlers.WhenError | fastlog.py:185-191 | the `ValueError` that `TimedRotatingFileHandler` raises for its `when` argument: none iff the upper-cased value is S, M, H, D, MIDNIGHT or W0 to W6; otherwise a message ending in the upper-cased value |
| Handlers.RolloverIntervalShape | fastlog.py:185-191 | the accepted intervals are exactly S, M, H, D, MIDNIGHT and `W` followed by a digit from 0 to 6 |
| Handlers.DailyRotationRejected | fastlog.py:185-191 | a file handler with `rotate_when="daily"` and no size rotation fails with `Invalid rollover interval specified: DAILY` |
| Handlers.MidnightRotationAccepted | fastlog.py:185-191 | a file handler with `rotate_when="midnight"` and no size rotation builds a time-rotating handler on its file with that interval and its backup count |
| Handlers.SizeRotationWins | fastlog.py:178-191 | a file handler with both rotation triggers set rotates by size |
| Handlers.BuildHandlers | fastlog.py:152-154 | building succeeds iff every configuration builds, giving one handler per configuration in order; on failure the error is that of the first configuration that fails |
| Handlers.Emit | fastlog.py:286-290 | the corrected delivery: each eligible handler, in list order, writes its own rendering of an unshared record; its properties are `Handlers.EmitFromWrites` and `Handlers.EmitLines` |
| Handlers.EmitFromWrites | fastlog.py:286-290 | the corrected delivery produces only writes, each by an eligible handler in range with that handler's rendering of the record, in strictly increasing handler order |
| Handlers.EmitLines | fastlog.py:286-290 | with the corrected delivery a handler receives exactly one line, its rendering, for a record at or above its threshold, and nothing for one below it |
| Handlers.OrderedDeliveryLines | fastlog.py:286-290 | in any delivery that reaches handlers in list order, a handler receives at most one line, and none when the record is below its threshold |
| Records.CallsOfNoCalls | fastlog.py:286-290 | effects without a callback invocation add nothing to the callback's log |
| Records.LinesToNone | fastlog.py:286-290 | a handler no effect writes to has received no line |
| Formatters.ContextTextEmpty | fastlog.py:372-374 | an empty context renders as the empty string |
| Formatters.ContextOrderPreserved | fastlog.py:372-374 | the rendered context keeps insertion order: the text for `a + b` is the text for `a`, a space, then the text for `b` |
| Formatters.ContextRecoverable | fastlog.py:372-374 | when no item contains a space, splitting the context text on spaces gives back the `k=v` items in order |
| Formatters.PlainFormat | fastlog.py:356-375 | the corrected plain line, with the handler's own timestamp pattern; its properties are `Formatters.PlainTimestampRecoverable` and `Formatters.PlainTimestampVisible` |
| Formatters.PlainTimestampRecoverable | fastlog.py:356-375 | the corrected plain line opens with `[`, and the text up to the first `]` is the handler's own rendering of the creation time, whenever that rendering has no `]` |
| Formatters.PlainTimestampVisible | fastlog.py:369-371 | two timestamp patterns that render the creation time differently (without `]`) give different corrected plain lines |
| Formatters.ContextJson | fastlog.py:409 | the context becomes a JSON object with one member per item |
| Formatters.JsonFormat | fastlog.py:403-411 | the JSON document is an object whose keys are exactly level, timestamp, message and context, in that order |
| Formatters.ContextJsonRoundTrip | fastlog.py:409 | the context object reads back as the original context, in insertion order |
| Formatters.JsonRoundTrip | fastlog.py:403-411 | reading the document back gives the level name, the formatted timestamp, the message and the original context |
| AsWritten.PlainFormatAsWritten | fastlog.py:359-375 | as written, the plain format succeeds iff the record's context attribute still holds the mapping, and afterwards the attribute holds the joined text; on a string it fails with the `.items()` error and leaves the attribute alone |
| AsWritten.JsonFormatAsWritten | fastlog.py:393-411 | as written, the JSON document has exactly the keys level, timestamp, message and context, and it equals the corrected document while the attribute still holds the record's own context |
| AsWritten.HandleAsWritten | fastlog.py:286-290 | one eligible handler as written has one effect, its own write or reported failure, never a callback call; a context attribute that is still a mapping comes back unchanged |
| AsWritten.EmitAsWritten | fastlog.py:286-290 | the delivery as written, with one record shared by all handlers; its properties are `AsWritten.EmitAsWrittenOrdered`, `AsWritten.EmitAsWrittenReaches` and `AsWritten.AfterPlainHandler` |
| AsWritten.EmitAsWrittenOrdered | fastlog.py:286-290 | the as-written delivery reaches each eligible handler at most once, in list order, and never invokes the callback |
| AsWritten.EmitAsWrittenReaches | fastlog.py:286-290 | as written, every eligible handler either writes a line or reports a failure through `handleError` |
| AsWritten.JsonContextAsWritten | fastlog.py:409 | as written, the JSON `context` member is whatever the shared record's attribute holds: the object for a mapping, a string once a plain formatter has replaced it |
| AsWritten.PlainAsWrittenIgnoresPattern | fastlog.py:369-375 | as written, the plain output does not depend on the configured timestamp pattern |
| AsWritten.AfterPlainHandler | fastlog.py:372-374 | once a plain handler has run on a record, every later write for it is a JSON line whose context is the joined string; every later eligible plain handler reports a failure; every later eligible JSON handler writes its document with that string |
| AsWritten.AfterPlainWrites | fastlog.py:372-374 | once the shared record's context holds the joined string, every write of the rest of the delivery is a JSON line whose context is that string |
| AsWritten.AfterPlainReaches | fastlog.py:372-374 | once the shared record's context holds the joined string, a later eligible plain handler reports a failure and a later eligible JSON handler writes its document with that string |
| AsWritten.PlainTimestampFinding | fastlog.py:356-375 | as written, a handler configured with `%d/%m/%Y` prints the library default `%Y-%m-%d %H:%M:%S,mmm`, which differs from the line the configuration asks for |
| AsWritten.SharedRecordFinding | fastlog.py:372-374 | with a plain console handler before a JSON file handler, the file gets `"context": "user=admin"`, which does not read back as a context; the corrected delivery reads back the original context |
| AsWritten.SecondPlainHandlerFinding | fastlog.py:372-374 | as written, the second of two eligible plain handlers writes nothing and reports an error; the corrected delivery writes its line |
| AsWritten.RotatingPlainFinding | fastlog.py:178-184 | as written, a plain size-rotating file handler with a positive size limit only reports a failure, because its rollover check formats the record first; the corrected delivery writes its line |
| Pipeline.MakeEntry | fastlog.py:240-245 | the entry's `"level"` item, the member's value, looks up under `LogLevel[...]` to exactly the level logged |
| Pipeline.EntryRecord | fastlog.py:279-290 | the record `_emit_log` builds has the numeric level `LEVEL_MAP[level]`, the member's name as level name, and the entry's message and context, created at the given instant |
| Pipeline.ErrorRecord | fastlog.py:265-266 | the callback-error record has level 40 named ERROR, no context, and the message `Callback error: ` followed by the error text |
| Pipeline.DeliverOrdered | fastlog.py:286-290 | either delivery reaches eligible handlers at most once each, in list order, and never invokes the callback |
| Pipeline.DeliverLines | fastlog.py:286-290 | under either delivery a handler below the record's level gets nothing and none gets more than one line; an eligible one gets a line or, as written, possibly a reported failure; the corrected delivery gives exactly the handler's own rendering |
| Pipeline.ProcessEntry | fastlog.py:252-266 | `_process_log_entry`: emit, then the callback, then an ERROR record if it raised; its properties are `Pipeline.ProcessEntryCalls`, `Pipeline.ProcessEntryOrder` and `Pipeline.ProcessEntryLines` |
| Pipeline.ProcessEntryCalls | fastlog.py:261-266 | processing an entry invokes the callback exactly once with that entry when one is configured, and never otherwise; the error record does not reach the callback |
| Pipeline.ProcessEntryOrder | fastlog.py:252-266 | the effects are the delivery of the entry's record, then the callback call, then only the delivery of the callback-error record, present iff the callback raised |
| Pipeline.ProcessEntryLines | fastlog.py:261-266 | a handler's lines from one entry are those of the entry's record, then those of the callback-error record iff the callback raised |
| Pipeline.AfterLog | fastlog.py:228-250 | `log`: build the entry; in async mode queue it (through a put task, or at once when corrected), otherwise process it; its properties are `Pipeline.LogBuildsOneEntry` and `Pipeline.SyncLogLines` |
| Pipeline.LogBuildsOneEntry | fastlog.py:228-250 | each call builds exactly one entry with the given level, message and context; in async mode nothing observable happens, and the entry joins the pending puts as written, or is queued at once (waking a suspended drain task) when corrected; sync mode leaves the queue empty, and the callback log grows by that entry iff a callback is configured |
| Pipeline.SyncLogLines | fastlog.py:247-250 | in sync mode a handler gets the lines of the entry's record and then those of the callback-error record: at most one each, none for a level below its threshold, and none from the error record when ERROR is below it |
| Pipeline.SyncLogLinesCorrected | fastlog.py:247-250 | with the corrected delivery, a handler at threshold L gets its own rendering for a call at rank at least L and nothing below it, then the callback-error line iff the callback raised and ERROR is at least L |
| Pipeline.AfterStart | fastlog.py:207-215 | `start` keeps the invariant and changes no trace, queue, pending put or clock; in async mode it creates an unset stop event and a ready drain task |
| Pipeline.RunDrain | fastlog.py:268-277 | a turn of the drain task leaves the queue empty, the stop event and the pending puts alone; it returns iff the stop event is set and is otherwise suspended in `get()` |
| Pipeline.RunDrainProcesses | fastlog.py:274-277 | a turn of the drain task produces exactly the effects of processing each queued entry once, in FIFO order |
| Pipeline.RunDrainExit | fastlog.py:274-275 | the drain task returns iff the stop event is set, and never while an entry is queued |
| Pipeline.PutEntry | fastlog.py:248 | `log_queue.put`: append the entry and wake a suspended drain task; its properties are `Pipeline.RunPut` and `Pipeline.LogBuildsOneEntry` |
| Pipeline.Dequeue | fastlog.py:275-277 | one iteration of the drain loop: take the head of the queue and process it; its property is `Pipeline.RunDrainProcesses` |
| Pipeline.RunPut | fastlog.py:248 | a put task's turn moves the first pending entry to the back of the queue |
| Pipeline.RunJob | fastlog.py:248 | each job of the event loop keeps the invariant and the stop event and strictly decreases the remaining work |
| Pipeline.RunUntilDone | fastlog.py:226 | awaiting the drain task keeps the invariant and the stop event; it stops when no job is left or the task had already returned, and when the task returns during the await, the put tasks still ready run before the caller resumes, so none is left pending |
| Pipeline.RunUntilIdle | fastlog.py:248 | a caller's sleep keeps the invariant and the stop event and leaves no job of this logger to run |
| Pipeline.FlushFinished | fastlog.py:248 | once the drain task has returned, the pending put tasks still run, appending their entries to the queue in order, and nothing processes them |
| Pipeline.BlockedGetIsStuck | fastlog.py:274-275 | a `get()` suspended on an empty queue with no put pending stays suspended, whatever the stop event |
| Pipeline.PutsAhead | fastlog.py:248 | the put tasks scheduled ahead of a ready drain task run first, each appending its entry, with the same outcome for an await or a sleep |
| Pipeline.DoneFromScheduled | fastlog.py:268-277 | a ready drain task with the stop event set processes the queue and the puts ahead of it, in order, and returns; the later puts then run before the caller resumes, leaving their entries in the queue, never processed |
| Pipeline.DoneFromWaiting | fastlog.py:268-277 | a suspended drain task with puts pending and the stop event set is woken by the first put, processes every pending entry in order, and returns |
| Pipeline.DrainAllCalls | fastlog.py:274-277 | processing a queue head first invokes the callback with exactly the queued entries, in order, when one is configured |
| Pipeline.DrainAllAppend | fastlog.py:274-277 | processing two queues one after the other is processing their concatenation |
| Pipeline.SleepDrains | fastlog.py:268-277 | with the stop event unset, once the caller lets the event loop run, every queued and every pending entry has been processed, in order, and the drain task is suspended on the empty queue |
| Pipeline.AfterShutdown | fastlog.py:217-226 | `shutdown` keeps the invariant; its flag says whether the `await` returns |
| Pipeline.ShutdownCompletesIff | fastlog.py:217-226 | `shutdown` returns iff it is not the case that, in async mode after `start`, the drain task is suspended on an empty queue with no put pending |
| Pipeline.ShutdownDrains | fastlog.py:217-226 | a `shutdown` that returns on an unfinished task has processed the queue and the entries of the puts that ran before the task returned, in order, exactly once; all of them for a suspended task, those ahead of it for a ready one; the entries of the remaining puts are left in the queue, never processed, and no put is pending; the callback log grew by exactly the processed entries |
| Pipeline.LostEntryFinding | fastlog.py:248 | as written, an entry logged while the drain task is ready is left at the back of the queue when `shutdown` returns, with the task returned and no put pending, and the callback never sees it |
| Pipeline.LogThenShutdownProcesses | fastlog.py:248 | with the corrected enqueue, an entry logged before `shutdown` is processed: `shutdown` returns with nothing queued or pending, and the callback log ends with the entry |
| Pipeline.SettledShutdownHangs | fastlog.py:274-277 | as written, `shutdown` after the caller has let the logger settle never returns |
| Pipeline.AfterShutdownWaking | fastlog.py:217-226 | the corrected `shutdown`, which also wakes a suspended drain task, keeps the invariant |
| Pipeline.ShutdownWakingCompletes | fastlog.py:217-226 | the corrected `shutdown` always returns, and an unfinished task first processes the queue and the puts that run before it, in order; the entries of the later puts are left in the queue |
| Pipeline.ShutdownNoOp | fastlog.py:223 | without async mode, or before `start`, `shutdown` changes nothing and returns |
| Pipeline.ShutdownIdempotent | fastlog.py:217-226 | a second `shutdown` after one that returned changes nothing and returns |
| FastLogger.Logger.constructor | fastlog.py:140-158 | a new logger holds the built handlers, the callback, the mode, the clock and `strftime`, with an empty queue, no pending put, no stop event and no task |
| FastLogger.Logger.Create | fastlog.py:140-158 | `Logger(config)` succeeds iff every handler configuration builds, holding the handlers in order, the callback, the mode, the clock, `strftime` and the as-written delivery and enqueue; otherwise it fails with the first configuration's error |
| FastLogger.Logger.EmitLog | fastlog.py:279-290 | `_emit_log` reads the clock once and appends exactly the delivery of the entry's record to all handlers |
| FastLogger.Logger.ProcessLogEntry | fastlog.py:252-266 | `_process_log_entry` changes the state exactly as `Pipeline.ProcessEntry` does |
| FastLogger.Logger.Log | fastlog.py:228-250 | `log` keeps the invariant and changes the state exactly as `Pipeline.AfterLog` does |
| FastLogger.Logger.Debug | fastlog.py:292-300 | `log` at DEBUG |
| FastLogger.Logger.Info | fastlog.py:302-310 | `log` at INFO |
| FastLogger.Logger.Warning | fastlog.py:312-320 | `log` at WARNING |
| FastLogger.Logger.Error | fastlog.py:322-330 | `log` at ERROR |
| FastLogger.Logger.Critical | fastlog.py:332-340 | `log` at CRITICAL |
| FastLogger.Logger.Put | fastlog.py:248 | the body of a put task appends the entry and wakes a suspended drain task, exactly as `Pipeline.PutEntry` |
| FastLogger.Logger.Start | fastlog.py:207-215 | `start` keeps the invariant and ends in the state `Pipeline.AfterStart` computes |
| FastLogger.Logger.ProcessLogQueue | fastlog.py:268-277 | the drain loop, resumed at the head of the ready queue, ends in the state `Pipeline.RunDrain` computes: returned or suspended in `get()` |
| FastLogger.Logger.RunNextJob | fastlog.py:248 | one job of the event loop, the drain task or the next put task, exactly as `Pipeline.RunJob` |
| FastLogger.Logger.Sleep | fastlog.py:248 | a caller's sleep ends in the state `Pipeline.RunUntilIdle` computes |
| FastLogger.Logger.AwaitTask | fastlog.py:226 | `await self._queue_task` resumes at once on a returned task and otherwise runs jobs until the task returns or none is left, then lets the jobs still ready run, ending in the state `Pipeline.RunUntilDone` computes |
| FastLogger.Logger.Shutdown | fastlog.py:217-226 | `shutdown` ends in the state `Pipeline.AfterShutdown` computes and reports whether its `await` returns |

## Left out

- asyncio is modelled only as far as this logger's own tasks go. The event loop's ready queue holds the drain task and the put tasks created by `log`. `Logger.RunNextJob` runs one of them, and `Logger.AwaitTask` is the await in `shutdown`. `Logger.Sleep` stands for any await of the caller that lets the loop run until this logger has nothing left. Other tasks of the program, and a sleep too short to run every job, are left out.
- The duration passed to `asyncio.sleep` is not modelled. A sleep runs every job of this logger.
- When `start` is called twice, the new task replaces the old one in the model. The first task, which the source leaves running, is not modelled.
- `log_queue.task_done()` does not change anything the logger observes.
- Directory creation (`mkdir`), file opening and the rollover itself (`doRollover`, with its renaming and backups) are left out; they are file I/O. Only which handler kind is chosen, with its arguments, is modelled, together with the extra `format` call in `RotatingFileHandler.shouldRollover`.
- AsWritten.HandleAsWritten: the rollover check is taken to format the record on every call. Recent Python versions skip that format when the log path is not a regular file, and from 3.13 also while the file is still empty, so there the first line written to a fresh file gets through. `TimedRotatingFileHandler.shouldRollover` formats nothing, so it is not affected.
- Handlers.CreateHandler: the `OSError` from `mkdir` or from opening the log file is not modelled; construction of a FILE handler with a filename succeeds unless its rotation interval is rejected. Upper-casing `rotate_when` is ASCII-only. The `interval`, `utc` and `atTime` arguments of `TimedRotatingFileHandler` keep their defaults in the source and are not modelled.
- Pipeline.AfterLog: every async `log` call is taken to run on the event loop's thread, with the loop running. The `RuntimeError` that `asyncio.create_task` raises when no loop is running is left out.
- Pipeline.ProcessEntry: the callback is taken to have no effect on the logger or on the entry. A callback that logs through the same logger (re-entrant logging, which can end in `RecursionError` in sync mode), or that mutates the entry dict it is given, is left out. Its only modelled outcomes are returning normally or raising with a message.
- `datetime.now()`, `datetime.fromtimestamp` and `strftime` are parameters: a clock and a formatting function.
- `json.dumps` quoting and escaping are left out. A JSON line is the ordered document given to `json.dumps`.
- The process-wide logger registry (`logging.getLogger("AdvancedLogger")`, `handlers.clear()`) is left out, and so is propagation to the root logger. The model owns its handler list directly.
- Context values are limited to `str`, `int`, `bool` and `None`. Floats and arbitrary objects, with their `str` and JSON forms, are left out.
- Levels.FromStr: upper-casing is ASCII-only. Python's `str.upper` also maps non-ASCII letters.
- An entry holds its `LogLevel` member. The dict's `"level"` item is that member's value, and `LogLevel[...]` maps it back (`Levels.NameRoundTrip`). So the `KeyError` that `_emit_log` would raise for a dict with an unknown level string is not modelled. `log` never builds such a dict.
- The lock that `Handler.handle` takes around each emit is left out. The model is sequential.
- The repository's example programs are left out. They are demos that wrap the logger.

## Findings

| source | as written | input that shows it | evidently intended | confidence | as-written member | corrected member |
|---|---|---|---|---|---|---|
| fastlog.py:356-375 | `PlainFormatter` stores its pattern as `asctime`, but the base `Formatter.format` recomputes `asctime` with the default `datefmt`, so the plain timestamp is always `%Y-%m-%d %H:%M:%S,mmm` | a plain handler with `timestamp_format="%d/%m/%Y"` logging `info("started", user="admin")` | the configured pattern is used | high, not executed | AsWritten.PlainTimestampFinding | Formatters.PlainTimestampVisible |
| fastlog.py:372-374 | `PlainFormatter` replaces the `context` attribute of the record that all handlers share with the joined string, so a later JSON handler writes `"context": "user=admin"` | a CONSOLE/DEBUG/PLAIN handler followed by a FILE/INFO/JSON handler, sync mode, `info("started", user="admin")` | the JSON line carries `"context": {"user": "admin"}` | high, not executed | AsWritten.SharedRecordFinding | Formatters.JsonRoundTrip |
| fastlog.py:372-374 | for the same reason, a second eligible plain handler calls `.items()` on a string, and the call fails through `handleError` | two CONSOLE/DEBUG/PLAIN handlers, any call | both handlers write the line | high, not executed | AsWritten.SecondPlainHandlerFinding | Handlers.EmitLines |
| fastlog.py:178-184 | a plain `RotatingFileHandler` with `maxBytes` above zero formats the record in `shouldRollover`, which replaces the context; the format in `emit` then fails | a FILE/DEBUG/PLAIN handler with `rotate_size` 10485760, any call | the handler writes the line | medium, not executed | AsWritten.RotatingPlainFinding | Handlers.EmitLines |
| fastlog.py:248 | `log` schedules `log_queue.put` as a new task, which runs after a drain task that is already ready; once that task returns, the entry is never processed | async mode: `start()`, `info("x")`, `shutdown()` with no await in between | every entry logged before `shutdown` is processed | high, not executed | Pipeline.LostEntryFinding | Pipeline.LogThenShutdownProcesses |
| fastlog.py:274-277 | the drain loop suspends in `log_queue.get()` on an empty queue, and `shutdown` only sets the stop event, so `await self._queue_task` (fastlog.py:226) never returns | async mode: `start()`, `info("x")`, `await asyncio.sleep(1)`, `shutdown()` | `shutdown` returns once the queue is drained | high, not executed | Pipeline.SettledShutdownHangs | Pipeline.ShutdownWakingCompletes |
