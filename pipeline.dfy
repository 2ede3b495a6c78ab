/**
 * The `Logger` as a state machine over plain values: what `log`,
 * `_process_log_entry`, `start` and `shutdown` do to the logger's state, and
 * how the asyncio event loop runs the tasks these create: the drain task
 * `_process_log_queue` and the put task each async `log` call schedules.
 * Module FastLogger implements these transitions as methods of a class and
 * proves each against the function here.
 */
module Pipeline {
  import opened Wrappers
  import opened Levels
  import opened Records
  import opened Config
  import opened Formatters
  import opened Handlers
  import opened AsWritten

  /**
   * How a record reaches the handlers: as fastlog.py and the standard
   * library do it (module AsWritten), or with the formatter defects
   * corrected (Handlers.Emit).
   */
  datatype Delivery = AsWrittenDelivery | CorrectedDelivery

  /**
   * How `log` hands an entry to the queue in async mode: as written, it
   * schedules a task that runs `log_queue.put(entry)` later; corrected, the
   * entry is appended at once, as `log_queue.put_nowait(entry)` does.
   */
  datatype Enqueue = SpawnPut | PutNowait

  /**
   * What stays fixed after construction: the handlers in order, the callback,
   * the mode, the two foreign functions, `strftime` and the clock (the
   * instant returned by the n-th reading of the clock), and the two choices
   * above.
   */
  datatype Setup = Setup(
    handlers: seq<HandlerSpec>,
    callback: Option<Callback>,
    asyncMode: bool,
    strftime: Strftime,
    clock: nat -> Instant,
    delivery: Delivery,
    enqueue: Enqueue)

  /**
   * Where the drain task `_queue_task` is: not created; in the event loop's
   * ready queue behind the first `ahead` pending put tasks; suspended in
   * `log_queue.get()` on an empty queue; or returned.
   */
  datatype Task = NoTask | Scheduled(ahead: nat) | Waiting | Finished

  /**
   * The logger's changing state: clock readings so far, everything observable
   * so far, the entries in `log_queue`, the entries of put tasks that have not
   * run yet (in the order the event loop runs them), `_stop_event` and
   * `_queue_task`.
   */
  datatype LoggerState = LoggerState(
    clockReads: nat,
    trace: seq<Effect>,
    queue: seq<Entry>,
    pending: seq<Entry>,
    stopEvent: Option<bool>,
    task: Task)

  /** The invariant every logger keeps. */
  predicate Wf(s: Setup, st: LoggerState) {
    && (!s.asyncMode ==> st.queue == [] && st.pending == [] && st.stopEvent.None? && st.task == NoTask)
    && (s.enqueue == PutNowait ==> st.pending == [])
    && (st.stopEvent.None? <==> st.task == NoTask)
    && (st.task.Scheduled? ==> st.task.ahead <= |st.pending|)
    && (st.task == Waiting ==> st.queue == [])
  }

  /** The state right after `__init__`: nothing queued or pending, no stop event, no task. */
  function InitialState(): LoggerState {
    LoggerState(0, [], [], [], None, NoTask)
  }

  /** The dict `log` builds; its timestamp is the clock's `tick`-th reading. */
  function MakeEntry(s: Setup, tick: nat, level: LogLevel, message: string, context: Context): (e: Entry)
    ensures Lookup(Name(e.level)) == Some(level)
  {
    NameRoundTrip(level);
    Entry(level, s.strftime(ENTRY_TIMESTAMP_FORMAT, s.clock(tick)), message, context)
  }

  /**
   * The record `_emit_log` passes to the handlers: level
   * `LEVEL_MAP[LogLevel[entry["level"]]]`, where the lookup gives back the
   * entry's member, and context from `extra`.
   */
  function EntryRecord(e: Entry, created: Instant): (r: LogRecord)
    ensures r.levelno == Rank(e.level) && r.levelname == Name(e.level)
    ensures r.message == e.message && r.context == e.context && r.created == created
  {
    StdLevelNameOfRank(e.level);
    var n := Rank(e.level);
    LogRecord(n, StdLevelName(n), e.message, created, e.context)
  }

  const CALLBACK_ERROR_PREFIX: string := "Callback error: "

  /** The record of `self.logger.error(f"Callback error: {e}")`: level ERROR, no context. */
  function ErrorRecord(error: string, created: Instant): (r: LogRecord)
    ensures r.levelno == 40 && r.levelname == "ERROR" && r.context == [] && r.created == created
    ensures |CALLBACK_ERROR_PREFIX| <= |r.message| && r.message[..|CALLBACK_ERROR_PREFIX|] == CALLBACK_ERROR_PREFIX
    ensures r.message[|CALLBACK_ERROR_PREFIX|..] == error
  {
    LogRecord(Rank(ERROR), StdLevelName(Rank(ERROR)), CALLBACK_ERROR_PREFIX + error, created, [])
  }

  /** One record delivered to the handlers in order, as the setup's delivery does it. */
  function Deliver(s: Setup, rec: LogRecord): seq<Effect> {
    match s.delivery
    case AsWrittenDelivery => EmitAsWritten(s.handlers, s.strftime, rec)
    case CorrectedDelivery => Emit(s.handlers, s.strftime, rec)
  }

  /** The clock readings used and the effects produced by one piece of work. */
  datatype Step = Step(clockReads: nat, effects: seq<Effect>)

  /**
   * `_process_log_entry`: emit to the handlers, then invoke the callback once;
   * if it raises, one ERROR record goes to the handlers (not to the callback).
   */
  function ProcessEntry(s: Setup, tick: nat, e: Entry): Step
  {
    var written := Deliver(s, EntryRecord(e, s.clock(tick)));
    match s.callback
    case None => Step(tick + 1, written)
    case Some(cb) =>
      match cb(e)
      case None => Step(tick + 1, written + [Called(e)])
      case Some(err) =>
        Step(tick + 2, written + [Called(e)] + Deliver(s, ErrorRecord(err, s.clock(tick + 1))))
  }

  function Apply(st: LoggerState, step: Step): LoggerState {
    st.(clockReads := step.clockReads, trace := st.trace + step.effects)
  }

  /**
   * `log_queue.put_nowait(e)`, which is also what a put task does when it
   * runs: append, and wake a drain task suspended in `get()`; the woken task
   * joins the back of the ready queue.
   */
  function PutEntry(st: LoggerState, e: Entry): LoggerState {
    st.(queue := st.queue + [e], task := if st.task == Waiting then Scheduled(|st.pending|) else st.task)
  }

  /**
   * `log(level, message, **context)`: in async mode, schedule the put as
   * written or enqueue at once as corrected; otherwise process the entry
   * before returning.
   */
  function AfterLog(s: Setup, st: LoggerState, level: LogLevel, message: string, context: Context): LoggerState {
    var e := MakeEntry(s, st.clockReads, level, message, context);
    var st1 := st.(clockReads := st.clockReads + 1);
    if !s.asyncMode then Apply(st1, ProcessEntry(s, st1.clockReads, e))
    else match s.enqueue
      case SpawnPut => st1.(pending := st.pending + [e])
      case PutNowait => PutEntry(st1, e)
  }

  /**
   * `start()`: in async mode, a fresh unset stop event and a new drain task,
   * which joins the back of the ready queue; nothing runs yet.
   */
  function AfterStart(s: Setup, st: LoggerState): (r: LoggerState)
    requires Wf(s, st)
    ensures Wf(s, r)
    ensures r.trace == st.trace && r.queue == st.queue && r.pending == st.pending && r.clockReads == st.clockReads
    ensures s.asyncMode ==> r.stopEvent == Some(false) && r.task.Scheduled?
  {
    if s.asyncMode then st.(stopEvent := Some(false), task := Scheduled(|st.pending|)) else st
  }

  predicate StopSet(st: LoggerState) {
    st.stopEvent == Some(true)
  }

  /** The event loop has a job of this logger to run: the drain task at the head, or a put task. */
  predicate HasJob(st: LoggerState) {
    st.task == Scheduled(0) || st.pending != []
  }

  function Measure(st: LoggerState): nat {
    2 * |st.pending| + (if st.task.Scheduled? then 1 else 0)
  }

  /** Take the head of the queue and process it. */
  function Dequeue(s: Setup, st: LoggerState): LoggerState
    requires st.queue != []
  {
    Apply(st.(queue := st.queue[1..]), ProcessEntry(s, st.clockReads, st.queue[0]))
  }

  /**
   * A turn of the drain task: `_process_log_queue` runs without suspending
   * while entries are queued (`get()` on a non-empty queue returns at once),
   * processing each; with the queue empty it returns if the stop event is
   * set, and suspends in `get()` otherwise. Nothing else runs meanwhile.
   */
  function RunDrain(s: Setup, st: LoggerState): (r: LoggerState)
    requires st.stopEvent.Some?
    ensures r.queue == [] && r.pending == st.pending && r.stopEvent == st.stopEvent
    ensures r.task == if StopSet(st) then Finished else Waiting
    ensures Wf(s, st) ==> Wf(s, r)
    decreases |st.queue|
  {
    if st.queue == [] then st.(task := if StopSet(st) then Finished else Waiting)
    else RunDrain(s, Dequeue(s, st))
  }

  /** A put task's turn: its entry goes to the queue. */
  function RunPut(st: LoggerState): (r: LoggerState)
    requires st.pending != [] && st.task != Scheduled(0)
    ensures r.pending == st.pending[1..] && r.queue == st.queue + [st.pending[0]]
  {
    var st1 := st.(pending := st.pending[1..], task := if st.task.Scheduled? then Scheduled(st.task.ahead - 1) else st.task);
    PutEntry(st1, st.pending[0])
  }

  /** One callback of the event loop: the head of the ready queue runs. */
  function RunJob(s: Setup, st: LoggerState): (r: LoggerState)
    requires Wf(s, st) && HasJob(st)
    ensures Wf(s, r) && r.stopEvent == st.stopEvent && Measure(r) < Measure(st)
  {
    if st.task == Scheduled(0) then RunDrain(s, st) else RunPut(st)
  }

  /**
   * `await self._queue_task`: the event loop runs jobs until the drain task
   * has returned or none is left. The task's return schedules the awaiting
   * caller behind the jobs already ready, so the put tasks still pending run
   * before the caller resumes. Awaiting a task that has already returned
   * resumes at once.
   */
  function RunUntilDone(s: Setup, st: LoggerState): (r: LoggerState)
    requires Wf(s, st)
    ensures Wf(s, r) && r.stopEvent == st.stopEvent
    ensures r.task == Finished || !HasJob(r)
    ensures st.task != Finished && r.task == Finished ==> r.pending == []
    decreases Measure(st)
  {
    if st.task != Finished && HasJob(st) then
      var next := RunJob(s, st);
      if next.task == Finished then RunUntilIdle(s, next) else RunUntilDone(s, next)
    else st
  }

  /**
   * The caller awaits something else, such as `asyncio.sleep(1)`, long
   * enough for the event loop to run every job of this logger.
   */
  function RunUntilIdle(s: Setup, st: LoggerState): (r: LoggerState)
    requires Wf(s, st)
    ensures Wf(s, r) && r.stopEvent == st.stopEvent && !HasJob(r)
    ensures st.task == Finished ==> r.task == Finished
    decreases Measure(st)
  {
    if HasJob(st) then RunUntilIdle(s, RunJob(s, st)) else st
  }

  /**
   * `shutdown()`: in async mode after `start`, set the stop event and await
   * the drain task while the event loop runs the ready jobs. The flag says
   * whether the await returns; it does not when the task ends up suspended
   * on an empty queue with no put left to wake it.
   */
  function AfterShutdown(s: Setup, st: LoggerState): (r: (LoggerState, bool))
    requires Wf(s, st)
    ensures Wf(s, r.0)
  {
    if s.asyncMode && st.stopEvent.Some? then
      var st1 := RunUntilDone(s, st.(stopEvent := Some(true)));
      (st1, st1.task == Finished)
    else (st, true)
  }

  /**
   * `shutdown()` corrected: after setting the stop event it also wakes a
   * drain task suspended in `get()` (as putting a sentinel entry would), so
   * the task sees the event and returns.
   */
  function AfterShutdownWaking(s: Setup, st: LoggerState): (r: (LoggerState, bool))
    requires Wf(s, st)
    ensures Wf(s, r.0)
  {
    if s.asyncMode && st.stopEvent.Some? then
      var st1 := st.(stopEvent := Some(true));
      var st2 := if st1.task == Waiting then st1.(task := Scheduled(|st1.pending|)) else st1;
      var st3 := RunUntilDone(s, st2);
      (st3, st3.task == Finished)
    else (st, true)
  }

  /** Processing a whole queue, head first. */
  function DrainAll(s: Setup, tick: nat, q: seq<Entry>): Step
    decreases |q|
  {
    if q == [] then Step(tick, [])
    else
      var a := ProcessEntry(s, tick, q[0]);
      var b := DrainAll(s, a.clockReads, q[1..]);
      Step(b.clockReads, a.effects + b.effects)
  }

  // ---------------------------------------------------------------
  // Delivering one record

  /** Either delivery is one ordered pass over the handlers with no callback invocation. */
  lemma DeliverOrdered(s: Setup, rec: LogRecord)
    ensures OrderedDelivery(s.handlers, 0, rec, Deliver(s, rec))
    ensures Calls(Deliver(s, rec)) == []
  {
    if s.delivery == AsWrittenDelivery {
      EmitAsWrittenOrdered(s.handlers, 0, s.strftime, rec, Mapping(rec.context));
    } else {
      EmitWrites(s.handlers, s.strftime, rec);
      OrderedDeliveryOfWrites(s.handlers, 0, s.strftime, rec, Deliver(s, rec));
    }
    CallsOfNoCalls(Deliver(s, rec));
  }

  /**
   * Threshold filtering: a handler the record's level does not reach gets
   * nothing, none gets more than one line, an eligible one is reached (with
   * a line, or, as written, possibly a `handleError`), and the corrected
   * delivery writes exactly the handler's own rendering.
   */
  lemma DeliverLines(s: Setup, rec: LogRecord, i: nat)
    ensures var D, hs := Deliver(s, rec), s.handlers;
      && |LinesTo(D, i)| <= 1
      && (!(i < |hs| && Eligible(hs[i], rec)) ==> LinesTo(D, i) == [])
      && (i < |hs| && Eligible(hs[i], rec) ==> LinesTo(D, i) != [] || HandleError(i) in D)
      && (s.delivery == CorrectedDelivery ==>
           LinesTo(D, i) == (if i < |hs| && Eligible(hs[i], rec) then [Render(hs[i].formatter, s.strftime, rec)] else []))
  {
    DeliverOrdered(s, rec);
    OrderedDeliveryLines(s.handlers, 0, rec, Deliver(s, rec), i);
    if s.delivery == CorrectedDelivery {
      EmitLines(s.handlers, s.strftime, rec, i);
    } else if i < |s.handlers| && Eligible(s.handlers[i], rec) {
      EmitAsWrittenReaches(s.handlers, 0, s.strftime, rec, Mapping(rec.context), i);
    }
  }

  // ---------------------------------------------------------------
  // Processing one entry

  /** The callback runs exactly once per processed entry, and only when configured. */
  lemma ProcessEntryCalls(s: Setup, tick: nat, e: Entry)
    ensures Calls(ProcessEntry(s, tick, e).effects) == if s.callback.Some? then [e] else []
  {
    var written := Deliver(s, EntryRecord(e, s.clock(tick)));
    DeliverOrdered(s, EntryRecord(e, s.clock(tick)));
    if s.callback.Some? {
      CallsAppend(written, [Called(e)]);
      assert Calls([Called(e)]) == [e] by {
        assert [Called(e)][..0] == [];
      }
      var err := s.callback.value(e);
      if err.Some? {
        var again := Deliver(s, ErrorRecord(err.value, s.clock(tick + 1)));
        DeliverOrdered(s, ErrorRecord(err.value, s.clock(tick + 1)));
        CallsAppend(written + [Called(e)], again);
      }
    }
  }

  /**
   * Ordering: first the entry's delivery in handler order, then the callback,
   * then nothing but the delivery of the callback-error record, if any.
   */
  lemma ProcessEntryOrder(s: Setup, tick: nat, e: Entry)
    ensures var E, W := ProcessEntry(s, tick, e).effects, Deliver(s, EntryRecord(e, s.clock(tick)));
      && |W| <= |E|
      && E[..|W|] == W
      && (forall k :: 0 <= k < |W| ==> !W[k].Called?)
      && (s.callback.None? ==> E == W)
      && (s.callback.Some? ==>
        && |W| < |E| && E[|W|] == Called(e)
        && (forall k :: |W| < k < |E| ==> !E[k].Called?)
        && E[|W| + 1..] == match s.callback.value(e)
           case None => []
           case Some(err) => Deliver(s, ErrorRecord(err, s.clock(tick + 1))))
  {
    DeliverOrdered(s, EntryRecord(e, s.clock(tick)));
    if s.callback.Some? && s.callback.value(e).Some? {
      DeliverOrdered(s, ErrorRecord(s.callback.value(e).value, s.clock(tick + 1)));
    }
  }

  /** A handler's lines from one entry: those of the entry's record, then those of the callback-error record, if any. */
  lemma ProcessEntryLines(s: Setup, tick: nat, e: Entry, i: nat)
    ensures var err := if s.callback.Some? then s.callback.value(e) else None;
      LinesTo(ProcessEntry(s, tick, e).effects, i) ==
        LinesTo(Deliver(s, EntryRecord(e, s.clock(tick))), i)
        + (if err.Some? then LinesTo(Deliver(s, ErrorRecord(err.value, s.clock(tick + 1))), i) else [])
  {
    var written := Deliver(s, EntryRecord(e, s.clock(tick)));
    var E := ProcessEntry(s, tick, e).effects;
    if s.callback.None? {
      assert E == written;
    } else {
      var err := s.callback.value(e);
      LinesToCall(written, e, i);
      if err.None? {
        assert E == written + [Called(e)];
      } else {
        var again := Deliver(s, ErrorRecord(err.value, s.clock(tick + 1)));
        assert E == written + [Called(e)] + again;
        LinesToAppend(written + [Called(e)], again, i);
      }
    }
  }

  // ---------------------------------------------------------------
  // log

  /**
   * Every call builds exactly one entry: in async mode, as written, it joins
   * the pending puts and nothing runs yet; with the corrected enqueue it is
   * queued at once, waking a suspended drain task; in sync mode it is
   * processed before the call returns.
   */
  lemma LogBuildsOneEntry(s: Setup, st: LoggerState, level: LogLevel, message: string, context: Context)
    requires Wf(s, st)
    ensures var e, r := MakeEntry(s, st.clockReads, level, message, context), AfterLog(s, st, level, message, context);
      && Wf(s, r)
      && e.level == level && e.message == message && e.context == context
      && (s.asyncMode ==> r.trace == st.trace && r.stopEvent == st.stopEvent)
      && (s.asyncMode && s.enqueue == SpawnPut ==>
           r.pending == st.pending + [e] && r.queue == st.queue && r.task == st.task)
      && (s.asyncMode && s.enqueue == PutNowait ==>
           && r.queue == st.queue + [e] && r.pending == []
           && r.task == if st.task == Waiting then Scheduled(0) else st.task)
      && (!s.asyncMode ==> r.queue == [] && Calls(r.trace) == Calls(st.trace) + (if s.callback.Some? then [e] else []))
  {
    var e := MakeEntry(s, st.clockReads, level, message, context);
    var r := AfterLog(s, st, level, message, context);
    var st1 := st.(clockReads := st.clockReads + 1);
    if !s.asyncMode {
      var p := ProcessEntry(s, st.clockReads + 1, e);
      assert r == Apply(st1, p);
      ProcessEntryCalls(s, st.clockReads + 1, e);
      CallsAppend(st.trace, p.effects);
    }
  }

  /** A handler's lines from one record: at most one, and none below its threshold. */
  lemma RecordLines(s: Setup, rec: LogRecord, i: nat)
    ensures var L := LinesTo(Deliver(s, rec), i);
      && |L| <= 1
      && (!(i < |s.handlers| && rec.levelno >= s.handlers[i].threshold) ==> L == [])
  {
    DeliverLines(s, rec, i);
  }

  /** In sync mode a call adds to a handler the lines of the entry's record, then those of the callback-error record. */
  lemma SyncLogSplit(s: Setup, st: LoggerState, level: LogLevel, message: string, context: Context, i: nat)
    requires !s.asyncMode
    ensures var e := MakeEntry(s, st.clockReads, level, message, context);
      var err := if s.callback.Some? then s.callback.value(e) else None;
      LinesTo(AfterLog(s, st, level, message, context).trace, i) ==
        LinesTo(st.trace, i)
        + LinesTo(Deliver(s, EntryRecord(e, s.clock(st.clockReads + 1))), i)
        + (if err.Some? then LinesTo(Deliver(s, ErrorRecord(err.value, s.clock(st.clockReads + 2))), i) else [])
  {
    var e := MakeEntry(s, st.clockReads, level, message, context);
    SyncLogTrace(s, st, level, message, context);
    ProcessEntryLines(s, st.clockReads + 1, e, i);
    LinesToAppend(st.trace, ProcessEntry(s, st.clockReads + 1, e).effects, i);
  }

  /**
   * In sync mode, one call adds to handler `i` the lines of the entry's
   * record and then those of the callback-error record: at most one each,
   * and none when the level (ERROR for the second) is below the handler's
   * threshold.
   */
  lemma SyncLogLines(s: Setup, st: LoggerState, level: LogLevel, message: string, context: Context, i: nat)
    requires !s.asyncMode
    ensures var e := MakeEntry(s, st.clockReads, level, message, context);
      var err := if s.callback.Some? then s.callback.value(e) else None;
      var hs := s.handlers;
      var mine := LinesTo(Deliver(s, EntryRecord(e, s.clock(st.clockReads + 1))), i);
      var bad := if err.Some? then LinesTo(Deliver(s, ErrorRecord(err.value, s.clock(st.clockReads + 2))), i) else [];
      && LinesTo(AfterLog(s, st, level, message, context).trace, i) == LinesTo(st.trace, i) + mine + bad
      && |mine| <= 1 && |bad| <= 1
      && (!(i < |hs| && Rank(level) >= hs[i].threshold) ==> mine == [])
      && (!(i < |hs| && Rank(ERROR) >= hs[i].threshold) ==> bad == [])
  {
    var e := MakeEntry(s, st.clockReads, level, message, context);
    SyncLogSplit(s, st, level, message, context, i);
    SyncLogTrace(s, st, level, message, context);
    RecordLines(s, EntryRecord(e, s.clock(st.clockReads + 1)), i);
    if s.callback.Some? && s.callback.value(e).Some? {
      RecordLines(s, ErrorRecord(s.callback.value(e).value, s.clock(st.clockReads + 2)), i);
    }
  }

  /**
   * With the corrected delivery, a handler at threshold L receives, for a
   * sync call at `level`, its own rendering of the record iff
   * `Rank(level) >= L`, then the callback-error line iff the callback
   * raised and ERROR is at or above L; nothing else.
   */
  lemma SyncLogLinesCorrected(s: Setup, st: LoggerState, level: LogLevel, message: string, context: Context, i: nat)
    requires !s.asyncMode && s.delivery == CorrectedDelivery
    ensures var e := MakeEntry(s, st.clockReads, level, message, context);
      var rec := EntryRecord(e, s.clock(st.clockReads + 1));
      var cbFailed := s.callback.Some? && s.callback.value(e).Some?;
      LinesTo(AfterLog(s, st, level, message, context).trace, i) ==
        LinesTo(st.trace, i)
        + (if i < |s.handlers| && Rank(level) >= s.handlers[i].threshold
           then [Render(s.handlers[i].formatter, s.strftime, rec)] else [])
        + (if cbFailed && i < |s.handlers| && Rank(ERROR) >= s.handlers[i].threshold
           then [Render(s.handlers[i].formatter, s.strftime, ErrorRecord(s.callback.value(e).value, s.clock(st.clockReads + 2)))] else [])
  {
    var e := MakeEntry(s, st.clockReads, level, message, context);
    SyncLogSplit(s, st, level, message, context, i);
    SyncLogTrace(s, st, level, message, context);
    DeliverLines(s, EntryRecord(e, s.clock(st.clockReads + 1)), i);
    if s.callback.Some? && s.callback.value(e).Some? {
      DeliverLines(s, ErrorRecord(s.callback.value(e).value, s.clock(st.clockReads + 2)), i);
    }
  }

  lemma SyncLogTrace(s: Setup, st: LoggerState, level: LogLevel, message: string, context: Context)
    requires !s.asyncMode
    ensures var e := MakeEntry(s, st.clockReads, level, message, context);
      && e.level == level
      && EntryRecord(e, s.clock(st.clockReads + 1)).levelno == Rank(level)
      && AfterLog(s, st, level, message, context).trace == st.trace + ProcessEntry(s, st.clockReads + 1, e).effects
  {
  }

  // ---------------------------------------------------------------
  // The drain task and the event loop

  lemma {:induction false} DrainAllCalls(s: Setup, tick: nat, q: seq<Entry>)
    ensures Calls(DrainAll(s, tick, q).effects) == if s.callback.Some? then q else []
    decreases |q|
  {
    if q != [] {
      var a := ProcessEntry(s, tick, q[0]);
      var b := DrainAll(s, a.clockReads, q[1..]);
      assert DrainAll(s, tick, q).effects == a.effects + b.effects;
      ProcessEntryCalls(s, tick, q[0]);
      DrainAllCalls(s, a.clockReads, q[1..]);
      CallsAppend(a.effects, b.effects);
      assert [q[0]] + q[1..] == q;
    }
  }

  /** Draining two queues one after the other is draining their concatenation. */
  lemma {:induction false} DrainAllAppend(s: Setup, tick: nat, q1: seq<Entry>, q2: seq<Entry>)
    ensures var a := DrainAll(s, tick, q1);
      var b := DrainAll(s, a.clockReads, q2);
      DrainAll(s, tick, q1 + q2) == Step(b.clockReads, a.effects + b.effects)
    decreases |q1|
  {
    if q1 == [] {
      assert q1 + q2 == q2;
    } else {
      var h := ProcessEntry(s, tick, q1[0]);
      assert (q1 + q2)[0] == q1[0];
      assert (q1 + q2)[1..] == q1[1..] + q2;
      DrainAllAppend(s, h.clockReads, q1[1..], q2);
      var a := DrainAll(s, h.clockReads, q1[1..]);
      var b := DrainAll(s, a.clockReads, q2);
      assert h.effects + (a.effects + b.effects) == (h.effects + a.effects) + b.effects;
    }
  }

  /** A turn of the drain task processes the queue in FIFO order, each entry exactly once. */
  lemma {:induction false} RunDrainProcesses(s: Setup, st: LoggerState)
    requires st.stopEvent.Some?
    ensures var r, d := RunDrain(s, st), DrainAll(s, st.clockReads, st.queue);
      r.trace == st.trace + d.effects && r.clockReads == d.clockReads
    decreases |st.queue|
  {
    if st.queue == [] {
      assert st.trace + [] == st.trace;
    } else {
      var a := ProcessEntry(s, st.clockReads, st.queue[0]);
      var next := Dequeue(s, st);
      RunDrainProcesses(s, next);
      var d := DrainAll(s, a.clockReads, st.queue[1..]);
      assert next.trace == st.trace + a.effects && next.clockReads == a.clockReads && next.queue == st.queue[1..];
      assert st.trace + a.effects + d.effects == st.trace + (a.effects + d.effects);
    }
  }

  /** The drain task never returns while an entry is queued, nor while the stop event is unset. */
  lemma RunDrainExit(s: Setup, st: LoggerState)
    requires Wf(s, st) && st.task == Scheduled(0)
    ensures RunJob(s, st).task == Finished <==> StopSet(st)
    ensures RunJob(s, st).queue == []
  {
  }

  /** A `get()` suspended on an empty queue with no put pending stays suspended: the event loop has nothing to run. */
  lemma BlockedGetIsStuck(s: Setup, st: LoggerState)
    requires Wf(s, st) && st.task == Waiting && st.pending == []
    ensures !HasJob(st) && RunUntilDone(s, st) == st && RunUntilIdle(s, st) == st
  {
  }

  /** The state once the put tasks ahead of a ready drain task have run. */
  function Ahead(st: LoggerState): LoggerState
    requires st.task.Scheduled? && st.task.ahead <= |st.pending|
  {
    st.(queue := st.queue + st.pending[..st.task.ahead], pending := st.pending[st.task.ahead..], task := Scheduled(0))
  }

  /**
   * While the drain task has not returned, awaiting it and sleeping both run
   * the next job first; if that job is the drain task returning, the await
   * goes on like a sleep.
   */
  lemma OneJob(s: Setup, st: LoggerState)
    requires Wf(s, st) && HasJob(st) && st.task != Finished
    ensures RunUntilDone(s, st) ==
      if RunJob(s, st).task == Finished then RunUntilIdle(s, RunJob(s, st)) else RunUntilDone(s, RunJob(s, st))
    ensures RunUntilIdle(s, st) == RunUntilIdle(s, RunJob(s, st))
  {
  }

  /** Once the drain task has returned, the pending put tasks only move their entries to the queue, in order. */
  lemma {:induction false} FlushFinished(s: Setup, st: LoggerState)
    requires Wf(s, st) && st.task == Finished
    ensures RunUntilIdle(s, st) == st.(queue := st.queue + st.pending, pending := [])
    decreases |st.pending|
  {
    if st.pending == [] {
      assert st.queue + st.pending == st.queue;
    } else {
      var next := RunPut(st);
      assert RunUntilIdle(s, st) == RunUntilIdle(s, next);
      FlushFinished(s, next);
      assert next.queue + next.pending == st.queue + st.pending by {
        assert st.pending == [st.pending[0]] + st.pending[1..];
      }
      assert next.(queue := next.queue + next.pending, pending := []) == st.(queue := st.queue + st.pending, pending := []);
    }
  }

  lemma TakeStep(q: seq<Entry>, p: seq<Entry>, a: nat)
    requires 0 < a <= |p|
    ensures (q + [p[0]]) + p[1..][..a - 1] == q + p[..a]
    ensures p[1..][a - 1..] == p[a..]
  {
    assert p[..a] == [p[0]] + p[1..][..a - 1];
  }

  /** The put tasks ahead of a ready drain task run first, each appending its entry. */
  lemma {:induction false} PutsAhead(s: Setup, st: LoggerState)
    requires Wf(s, st) && st.task.Scheduled?
    ensures Wf(s, Ahead(st))
    ensures RunUntilDone(s, st) == RunUntilDone(s, Ahead(st))
    ensures RunUntilIdle(s, st) == RunUntilIdle(s, Ahead(st))
    decreases st.task.ahead
  {
    var a := st.task.ahead;
    if a == 0 {
      assert st.queue + st.pending[..0] == st.queue;
      assert st.pending[0..] == st.pending;
      assert Ahead(st) == st;
    } else {
      var next := RunPut(st);
      OneJob(s, st);
      assert RunJob(s, st) == next;
      PutsAhead(s, next);
      TakeStep(st.queue, st.pending, a);
      assert Ahead(next) == Ahead(st);
    }
  }

  /**
   * `r` is `st` once the drain task has processed the queue and the first
   * `n` pending entries, in order, and returned, and the remaining put tasks
   * have queued their entries, which nothing processes.
   */
  ghost predicate DrainedBy(s: Setup, st: LoggerState, r: LoggerState, n: nat) {
    && n <= |st.pending|
    && var d := DrainAll(s, st.clockReads, st.queue + st.pending[..n]);
    && r.task == Finished && r.queue == st.pending[n..] && r.pending == []
    && r.trace == st.trace + d.effects && r.clockReads == d.clockReads
  }

  lemma DrainedCalls(s: Setup, st: LoggerState, r: LoggerState, n: nat)
    requires DrainedBy(s, st, r, n)
    ensures s.callback.Some? ==> Calls(r.trace) == Calls(st.trace) + st.queue + st.pending[..n]
  {
    var d := DrainAll(s, st.clockReads, st.queue + st.pending[..n]);
    DrainAllCalls(s, st.clockReads, st.queue + st.pending[..n]);
    CallsAppend(st.trace, d.effects);
  }

  /**
   * A ready drain task with the stop event set: the puts ahead of it run,
   * then it processes everything queued and returns; the puts behind it run
   * before the await resumes, and their entries stay queued.
   */
  lemma DoneFromScheduled(s: Setup, st: LoggerState)
    requires Wf(s, st) && st.task.Scheduled? && StopSet(st)
    ensures DrainedBy(s, st, RunUntilDone(s, st), st.task.ahead)
  {
    PutsAhead(s, st);
    var h := Ahead(st);
    OneJob(s, h);
    RunDrainProcesses(s, h);
    var w := RunDrain(s, h);
    FlushFinished(s, w);
    assert w.queue + w.pending == st.pending[st.task.ahead..];
  }

  /** A suspended drain task with puts pending and the stop event set: the first put wakes it behind all the others. */
  lemma DoneFromWaiting(s: Setup, st: LoggerState)
    requires Wf(s, st) && st.task == Waiting && st.pending != [] && StopSet(st)
    ensures DrainedBy(s, st, RunUntilDone(s, st), |st.pending|)
  {
    var n := |st.pending| - 1;
    var next := RunPut(st);
    OneJob(s, st);
    assert RunJob(s, st) == next;
    DoneFromScheduled(s, next);
    assert next.queue + next.pending[..n] == st.queue + st.pending[..n + 1];
    assert next.pending[n..] == [] == st.pending[n + 1..];
  }

  /**
   * At work, with the stop event unset: once the caller lets the event loop
   * run, every queued and every pending entry has been processed, in order,
   * and the drain task waits in `get()` on the empty queue.
   */
  lemma SleepDrains(s: Setup, st: LoggerState)
    requires Wf(s, st) && st.stopEvent == Some(false) && (st.task.Scheduled? || st.task == Waiting)
    ensures var r, d := RunUntilIdle(s, st), DrainAll(s, st.clockReads, st.queue + st.pending);
      && r.queue == [] && r.pending == [] && r.task == Waiting
      && r.trace == st.trace + d.effects && r.clockReads == d.clockReads
  {
    if st.task == Waiting {
      SleepFromWaiting(s, st);
    } else {
      SleepFromScheduled(s, st);
    }
  }

  /** `r` is `st` with every queued and pending entry processed, in order, and the drain task suspended. */
  ghost predicate Settled(s: Setup, st: LoggerState, r: LoggerState) {
    var d := DrainAll(s, st.clockReads, st.queue + st.pending);
    && r.queue == [] && r.pending == [] && r.task == Waiting
    && r.trace == st.trace + d.effects && r.clockReads == d.clockReads
  }

  lemma {:induction false} SleepFromWaiting(s: Setup, st: LoggerState)
    requires Wf(s, st) && st.stopEvent == Some(false) && st.task == Waiting
    ensures Settled(s, st, RunUntilIdle(s, st))
    decreases |st.pending|, 0
  {
    if st.pending == [] {
      assert st.queue + st.pending == [];
      assert st.trace + [] == st.trace;
    } else {
      var next := RunPut(st);
      assert RunUntilIdle(s, st) == RunUntilIdle(s, next);
      SleepFromScheduled(s, next);
      assert next.queue + next.pending == st.queue + st.pending;
    }
  }

  lemma {:induction false} SleepFromScheduled(s: Setup, st: LoggerState)
    requires Wf(s, st) && st.stopEvent == Some(false) && st.task.Scheduled?
    ensures Settled(s, st, RunUntilIdle(s, st))
    decreases |st.pending|, 1
  {
    SleepFirstTurn(s, st);
    var w := RunDrain(s, Ahead(st));
    SleepFromWaiting(s, w);
    SettledAfter(s, st, w, RunUntilIdle(s, w), st.task.ahead);
  }

  /** Settling the rest after a first drain turn that took the queue and the first `a` pending entries. */
  lemma SettledAfter(s: Setup, st: LoggerState, w: LoggerState, r: LoggerState, a: nat)
    requires a <= |st.pending|
    requires var d := DrainAll(s, st.clockReads, st.queue + st.pending[..a]);
      w.trace == st.trace + d.effects && w.clockReads == d.clockReads
    requires w.queue == [] && w.pending == st.pending[a..]
    requires Settled(s, w, r)
    ensures Settled(s, st, r)
  {
    var q, p := st.queue, st.pending;
    var d1 := DrainAll(s, st.clockReads, q + p[..a]);
    var d2 := DrainAll(s, d1.clockReads, p[a..]);
    assert w.queue + w.pending == p[a..];
    DrainAllAppend(s, st.clockReads, q + p[..a], p[a..]);
    ConcatAt(q, p, a);
    assert st.trace + d1.effects + d2.effects == st.trace + (d1.effects + d2.effects);
  }

  lemma ConcatAt(q: seq<Entry>, p: seq<Entry>, a: nat)
    requires a <= |p|
    ensures q + p[..a] + p[a..] == q + p
  {
    assert p[..a] + p[a..] == p;
  }

  /** A ready drain task with the stop event unset: the puts ahead of it run, then it processes the queue and suspends. */
  lemma SleepFirstTurn(s: Setup, st: LoggerState)
    requires Wf(s, st) && st.stopEvent == Some(false) && st.task.Scheduled?
    ensures var a := st.task.ahead;
      var w, d := RunDrain(s, Ahead(st)), DrainAll(s, st.clockReads, st.queue + st.pending[..a]);
      && Wf(s, w) && RunUntilIdle(s, st) == RunUntilIdle(s, w)
      && w.task == Waiting && w.queue == [] && w.pending == st.pending[a..] && w.stopEvent == st.stopEvent
      && w.trace == st.trace + d.effects && w.clockReads == d.clockReads
  {
    PutsAhead(s, st);
    var h := Ahead(st);
    assert RunUntilIdle(s, h) == RunUntilIdle(s, RunDrain(s, h));
    RunDrainProcesses(s, h);
  }

  // ---------------------------------------------------------------
  // shutdown

  /** `shutdown()` returns unless the drain task is suspended on an empty queue with no put pending. */
  lemma ShutdownCompletesIff(s: Setup, st: LoggerState)
    requires Wf(s, st)
    ensures AfterShutdown(s, st).1 <==> !(s.asyncMode && st.stopEvent.Some? && st.task == Waiting && st.pending == [])
  {
    if s.asyncMode && st.stopEvent.Some? {
      var st1 := st.(stopEvent := Some(true));
      if st1.task.Scheduled? {
        DoneFromScheduled(s, st1);
      } else if st1.task == Waiting && st1.pending != [] {
        DoneFromWaiting(s, st1);
      }
    }
  }

  /**
   * What a returning `shutdown()` has done to a task that had not already
   * finished: the drain task processed the queue and then the entries of the
   * put tasks that ran before it, in order, and returned. The put tasks
   * scheduled behind a ready drain task run before `shutdown()` resumes, and
   * their entries are left in the queue, never processed; a suspended task is
   * woken by the first put, behind all the others, and so takes every one.
   */
  lemma ShutdownDrains(s: Setup, st: LoggerState)
    requires Wf(s, st) && s.asyncMode && st.stopEvent.Some? && st.task != Finished
    requires AfterShutdown(s, st).1
    ensures var r := AfterShutdown(s, st).0;
      var n := if st.task.Scheduled? then st.task.ahead else |st.pending|;
      var d := DrainAll(s, st.clockReads, st.queue + st.pending[..n]);
      && r.queue == st.pending[n..] && r.pending == []
      && r.trace == st.trace + d.effects && r.clockReads == d.clockReads
      && r.task == Finished && StopSet(r)
      && (s.callback.Some? ==> Calls(r.trace) == Calls(st.trace) + st.queue + st.pending[..n])
  {
    var st1 := st.(stopEvent := Some(true));
    var r := AfterShutdown(s, st).0;
    var n := if st.task.Scheduled? then st.task.ahead else |st.pending|;
    assert r == RunUntilDone(s, st1);
    if st.task.Scheduled? {
      DoneFromScheduled(s, st1);
    } else {
      ShutdownCompletesIff(s, st);
      DoneFromWaiting(s, st1);
    }
    assert DrainedBy(s, st1, r, n);
    DrainedCalls(s, st1, r, n);
  }

  /**
   * Finding: as written, an entry logged while the drain task is ready to
   * run (right after `start()`, for one) is lost by `shutdown()`: its put
   * task runs only after the drain task has returned, so the entry is left
   * in the queue, never processed, and never reaches the callback.
   */
  lemma LostEntryFinding(s: Setup, st: LoggerState, level: LogLevel, message: string, context: Context)
    requires Wf(s, st) && s.asyncMode && s.enqueue == SpawnPut && st.task.Scheduled?
    ensures var e := MakeEntry(s, st.clockReads, level, message, context);
      var (r, completed) := AfterShutdown(s, AfterLog(s, st, level, message, context));
      && completed && r.task == Finished && r.pending == []
      && r.queue != [] && r.queue[|r.queue| - 1] == e
      && (s.callback.Some? ==> Calls(r.trace) == Calls(st.trace) + st.queue + st.pending[..st.task.ahead])
  {
    var e := MakeEntry(s, st.clockReads, level, message, context);
    var st2 := AfterLog(s, st, level, message, context);
    LogBuildsOneEntry(s, st, level, message, context);
    ShutdownCompletesIff(s, st2);
    ShutdownDrains(s, st2);
    var a := st.task.ahead;
    assert st2.pending[..a] == st.pending[..a];
    assert st2.pending[a..] == st.pending[a..] + [e];
  }

  /**
   * With the corrected enqueue, an entry logged before `shutdown()` is
   * processed: shutdown returns with everything queued, the new entry last,
   * handed to the callback in order.
   */
  lemma LogThenShutdownProcesses(s: Setup, st: LoggerState, level: LogLevel, message: string, context: Context)
    requires Wf(s, st) && s.asyncMode && s.enqueue == PutNowait && st.stopEvent.Some? && st.task != Finished
    ensures var e := MakeEntry(s, st.clockReads, level, message, context);
      var (r, completed) := AfterShutdown(s, AfterLog(s, st, level, message, context));
      && completed && r.task == Finished && r.queue == [] && r.pending == []
      && (s.callback.Some? ==> Calls(r.trace) == Calls(st.trace) + st.queue + [e])
  {
    var st2 := AfterLog(s, st, level, message, context);
    LogBuildsOneEntry(s, st, level, message, context);
    assert st2.task.Scheduled? && st2.task.ahead == 0;
    ShutdownCompletesIff(s, st2);
    ShutdownDrains(s, st2);
    assert st2.pending[..0] == [];
  }

  /**
   * Finding: as written, `shutdown()` after the caller has let the logger
   * settle (the order of the repository's async example program: log, sleep, shut
   * down) never returns: the drain task waits in `get()` on the empty queue
   * with nothing left to wake it.
   */
  lemma SettledShutdownHangs(s: Setup, st: LoggerState)
    requires Wf(s, st) && st.stopEvent == Some(false) && (st.task.Scheduled? || st.task == Waiting)
    ensures !AfterShutdown(s, RunUntilIdle(s, st)).1
  {
    SleepDrains(s, st);
    ShutdownCompletesIff(s, RunUntilIdle(s, st));
  }

  /**
   * Corrected: a `shutdown()` that wakes a suspended drain task always
   * returns, and a task not yet finished first processes the queue and the
   * puts that run before it, in order.
   */
  lemma ShutdownWakingCompletes(s: Setup, st: LoggerState)
    requires Wf(s, st)
    ensures AfterShutdownWaking(s, st).1
    ensures s.asyncMode && st.stopEvent.Some? && st.task != Finished ==>
      var r := AfterShutdownWaking(s, st).0;
      var n := if st.task.Scheduled? then st.task.ahead else |st.pending|;
      var d := DrainAll(s, st.clockReads, st.queue + st.pending[..n]);
      && r.task == Finished && r.queue == st.pending[n..] && r.pending == []
      && r.trace == st.trace + d.effects && r.clockReads == d.clockReads
  {
    if s.asyncMode && st.stopEvent.Some? {
      var st1 := st.(stopEvent := Some(true));
      if st1.task == Waiting {
        var st2 := st1.(task := Scheduled(|st1.pending|));
        DoneFromScheduled(s, st2);
        assert st2.queue + st2.pending[..|st.pending|] == st.queue + st.pending[..|st.pending|];
      } else if st1.task.Scheduled? {
        DoneFromScheduled(s, st1);
      }
    }
  }

  /** Without async mode, or before `start`, `shutdown()` does nothing and returns. */
  lemma ShutdownNoOp(s: Setup, st: LoggerState)
    requires Wf(s, st) && (!s.asyncMode || st.stopEvent.None?)
    ensures AfterShutdown(s, st) == (st, true)
  {
  }

  /** A second `shutdown()` after one that returned changes nothing and returns too. */
  lemma ShutdownIdempotent(s: Setup, st: LoggerState)
    requires Wf(s, st) && AfterShutdown(s, st).1
    ensures AfterShutdown(s, AfterShutdown(s, st).0) == (AfterShutdown(s, st).0, true)
  {
    var r := AfterShutdown(s, st).0;
    if s.asyncMode && st.stopEvent.Some? {
      assert r.task == Finished && StopSet(r);
      assert r.(stopEvent := Some(true)) == r;
    }
  }
}
