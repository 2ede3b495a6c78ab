/**
 * `Logger._create_handler` as a decision from a `HandlerConfig` to an
 * abstract handler, the construction loop of `Logger.__init__`, and the
 * delivery of one record to the handler list in order (the standard library's
 * `Logger.callHandlers`, with `Handler.handle` forwarding a record iff its
 * level is at least the handler's).
 */
module Handlers {
  import opened Wrappers
  import opened Text
  import opened Levels
  import opened Records
  import opened Config
  import opened Formatters

  /** Which handler class is instantiated, with the arguments the rotation behaviour depends on. */
  datatype HandlerKind =
    | Stream
    | SizeRotating(filename: string, maxBytes: int, backupCount: int)
    | TimedRotating(filename: string, when: string, backupCount: int)
    | PlainFile(filename: string)

  /** A constructed handler: its kind, its `setLevel` threshold and its formatter. */
  datatype HandlerSpec = HandlerSpec(kind: HandlerKind, threshold: int, formatter: Formatter)

  const NO_FILENAME_ERROR: string := "File handler requires a filename."

  /** The rollover intervals `TimedRotatingFileHandler` accepts, once upper-cased. */
  const ROLLOVER_INTERVALS: set<string> := {"S", "M", "H", "D", "MIDNIGHT", "W0", "W1", "W2", "W3", "W4", "W5", "W6"}

  /** The accepted rollover intervals by shape: a named unit, or `W` and a weekday digit. */
  lemma RolloverIntervalShape(w: string)
    ensures w in ROLLOVER_INTERVALS <==>
      || w == "S" || w == "M" || w == "H" || w == "D" || w == "MIDNIGHT"
      || (|w| == 2 && w[0] == 'W' && '0' <= w[1] <= '6')
  {
    if |w| == 2 && w[0] == 'W' && '0' <= w[1] <= '6' {
      assert w == ['W', w[1]];
    }
  }

  /**
   * The check `TimedRotatingFileHandler.__init__` makes of `when`: `None`
   * when it accepts it, else the message of the `ValueError` it raises.
   */
  function WhenError(when: string): (r: Option<string>)
    ensures r.None? <==> Upper(when) in ROLLOVER_INTERVALS
    ensures r.Some? ==> |r.value| >= |when| && r.value[|r.value| - |when|..] == Upper(when)
  {
    var w := Upper(when);
    RolloverIntervalShape(w);
    if w == "S" || w == "M" || w == "H" || w == "D" || w == "MIDNIGHT" then None
    else if |w| > 0 && w[0] == 'W' then
      if |w| != 2 then Some("You must specify a day for weekly rollover from 0 to 6 (0 is Monday): " + w)
      else if !('0' <= w[1] <= '6') then Some("Invalid day specified for weekly rollover: " + w)
      else None
    else Some("Invalid rollover interval specified: " + w)
  }

  /** `Logger._create_handler`, without the directory creation and file opening. */
  function CreateHandler(cfg: HandlerConfig): (r: Result<HandlerSpec, string>)
    ensures r.Success? <==>
      || cfg.handlerType == CONSOLE
      || (&& cfg.handlerType == FILE && cfg.filename.Some?
          && (SizeTruthy(cfg.rotateSize) || !WhenTruthy(cfg.rotateWhen) || WhenError(cfg.rotateWhen.value).None?))
    ensures cfg.handlerType == FILE && cfg.filename.None? ==> r == Failure(NO_FILENAME_ERROR)
    ensures (cfg.handlerType == FILE && cfg.filename.Some? && !SizeTruthy(cfg.rotateSize) && WhenTruthy(cfg.rotateWhen)
             && WhenError(cfg.rotateWhen.value).Some?) ==> r == Failure(WhenError(cfg.rotateWhen.value).value)
    ensures cfg.handlerType.Other? ==> r == Failure("Unsupported handler type: " + cfg.handlerType.repr)
    ensures r.Success? ==> r.value.threshold == Rank(cfg.level)
    ensures r.Success? ==> r.value.formatter.timestampFormat == cfg.timestampFormat
    ensures r.Success? ==> (r.value.formatter.style == JsonStyle <==> cfg.format == JSON)
    ensures r.Success? ==> (r.value.kind == Stream <==> cfg.handlerType == CONSOLE)
    ensures r.Success? && cfg.handlerType == FILE ==>
      && (r.value.kind.SizeRotating? <==> SizeTruthy(cfg.rotateSize))
      && (r.value.kind.TimedRotating? <==> !SizeTruthy(cfg.rotateSize) && WhenTruthy(cfg.rotateWhen))
      && (r.value.kind.PlainFile? <==> !SizeTruthy(cfg.rotateSize) && !WhenTruthy(cfg.rotateWhen))
      && r.value.kind.filename == cfg.filename.value
    ensures r.Success? && r.value.kind.SizeRotating? ==>
      r.value.kind.maxBytes == cfg.rotateSize.value && r.value.kind.backupCount == cfg.rotateCount
    ensures r.Success? && r.value.kind.TimedRotating? ==>
      r.value.kind.when == cfg.rotateWhen.value && r.value.kind.backupCount == cfg.rotateCount
  {
    var kind: Result<HandlerKind, string> :=
      match cfg.handlerType
      case CONSOLE => Success(Stream)
      case FILE =>
        if cfg.filename.None? then Failure(NO_FILENAME_ERROR)
        else if SizeTruthy(cfg.rotateSize) then
          Success(SizeRotating(cfg.filename.value, cfg.rotateSize.value, cfg.rotateCount))
        else if WhenTruthy(cfg.rotateWhen) then
          match WhenError(cfg.rotateWhen.value)
          case Some(e) => Failure(e)
          case None => Success(TimedRotating(cfg.filename.value, cfg.rotateWhen.value, cfg.rotateCount))
        else Success(PlainFile(cfg.filename.value))
      case Other(repr) => Failure("Unsupported handler type: " + repr);
    match kind
    case Failure(e) => Failure(e)
    case Success(k) =>
      var style := if cfg.format == JSON then JsonStyle else PlainStyle;
      Success(HandlerSpec(k, Rank(cfg.level), Formatter(style, cfg.timestampFormat)))
  }

  /** `rotate_when="daily"` is not an interval the time-rotating handler knows, so construction fails. */
  lemma DailyRotationRejected(cfg: HandlerConfig)
    requires cfg.handlerType == FILE && cfg.filename.Some? && !SizeTruthy(cfg.rotateSize)
    requires cfg.rotateWhen == Some("daily")
    ensures CreateHandler(cfg) == Failure("Invalid rollover interval specified: DAILY")
  {
    var w := Upper("daily");
    assert w == "DAILY";
    assert w[0] == 'D' && |w| == 5;
    assert w != "S" && w != "M" && w != "H" && w != "D" && w != "MIDNIGHT";
    assert "Invalid rollover interval specified: " + w == "Invalid rollover interval specified: DAILY";
    assert WhenError("daily") == Some("Invalid rollover interval specified: DAILY");
  }

  /** The interval is read case-insensitively: `"midnight"` is accepted as `MIDNIGHT`. */
  lemma MidnightRotationAccepted(cfg: HandlerConfig)
    requires cfg.handlerType == FILE && cfg.filename.Some? && !SizeTruthy(cfg.rotateSize)
    requires cfg.rotateWhen == Some("midnight")
    ensures CreateHandler(cfg).Success? && CreateHandler(cfg).value.kind == TimedRotating(cfg.filename.value, "midnight", cfg.rotateCount)
  {
    assert Upper("midnight") == "MIDNIGHT";
  }

  /** Size rotation takes precedence: a file handler with both triggers set rotates by size. */
  lemma SizeRotationWins(cfg: HandlerConfig)
    requires cfg.handlerType == FILE && cfg.filename.Some?
    requires SizeTruthy(cfg.rotateSize) && WhenTruthy(cfg.rotateWhen)
    ensures CreateHandler(cfg).Success? && CreateHandler(cfg).value.kind.SizeRotating?
  {
  }

  /**
   * The handlers `Logger.__init__` attaches, one per configuration in order,
   * or the error of the first configuration that cannot be built.
   */
  function BuildHandlers(cfgs: seq<HandlerConfig>): (r: Result<seq<HandlerSpec>, string>)
    ensures r.Success? <==> forall k :: 0 <= k < |cfgs| ==> CreateHandler(cfgs[k]).Success?
    ensures r.Success? ==> |r.value| == |cfgs|
    ensures r.Success? ==> forall k :: 0 <= k < |cfgs| ==> r.value[k] == CreateHandler(cfgs[k]).value
    ensures r.Failure? ==> exists k :: FirstFailure(cfgs, k) && r.error == CreateHandler(cfgs[k]).error
  {
    if cfgs == [] then Success([])
    else
      match CreateHandler(cfgs[0])
      case Failure(e) =>
        assert FirstFailure(cfgs, 0);
        Failure(e)
      case Success(h) =>
        match BuildHandlers(cfgs[1..])
        case Failure(e) =>
          FirstFailureShift(cfgs, e);
          Failure(e)
        case Success(rest) => Success([h] + rest)
  }

  /** Configuration `k` is the first that cannot be built. */
  ghost predicate FirstFailure(cfgs: seq<HandlerConfig>, k: int) {
    0 <= k < |cfgs| && CreateHandler(cfgs[k]).Failure?
    && forall j :: 0 <= j < k ==> CreateHandler(cfgs[j]).Success?
  }

  lemma FirstFailureShift(cfgs: seq<HandlerConfig>, e: string)
    requires cfgs != [] && CreateHandler(cfgs[0]).Success?
    requires exists k :: FirstFailure(cfgs[1..], k) && e == CreateHandler(cfgs[1..][k]).error
    ensures exists k :: FirstFailure(cfgs, k) && e == CreateHandler(cfgs[k]).error
  {
    var k :| FirstFailure(cfgs[1..], k) && e == CreateHandler(cfgs[1..][k]).error;
    assert FirstFailure(cfgs, k + 1);
  }

  /** The standard library's per-handler check: the record's level is at least the handler's. */
  predicate Eligible(h: HandlerSpec, rec: LogRecord) {
    rec.levelno >= h.threshold
  }

  /** Delivery to handlers `i..`: each eligible one writes its rendering, in list order. */
  function EmitFrom(hs: seq<HandlerSpec>, i: nat, strftime: Strftime, rec: LogRecord): seq<Effect>
    decreases |hs| - i
  {
    if i >= |hs| then []
    else
      var here := if Eligible(hs[i], rec) then [Wrote(i, Render(hs[i].formatter, strftime, rec))] else [];
      here + EmitFrom(hs, i + 1, strftime, rec)
  }

  /** One record delivered to the whole handler list. */
  function Emit(hs: seq<HandlerSpec>, strftime: Strftime, rec: LogRecord): seq<Effect> {
    EmitFrom(hs, 0, strftime, rec)
  }

  /**
   * Effects `r` only write: each is a line from an eligible handler at or
   * after `i`, its own rendering, and the handlers come in list order.
   */
  ghost predicate OrderedWrites(hs: seq<HandlerSpec>, i: nat, strftime: Strftime, rec: LogRecord, r: seq<Effect>) {
    && (forall k :: 0 <= k < |r| ==>
      && r[k].Wrote?
      && i <= r[k].handler < |hs|
      && Eligible(hs[r[k].handler], rec)
      && r[k].line == Render(hs[r[k].handler].formatter, strftime, rec))
    && (forall a, b :: 0 <= a < b < |r| ==> r[a].handler < r[b].handler)
  }

  lemma {:induction false} EmitFromWrites(hs: seq<HandlerSpec>, i: nat, strftime: Strftime, rec: LogRecord)
    ensures OrderedWrites(hs, i, strftime, rec, EmitFrom(hs, i, strftime, rec))
    decreases |hs| - i
  {
    if i < |hs| {
      var here := if Eligible(hs[i], rec) then [Wrote(i, Render(hs[i].formatter, strftime, rec))] else [];
      var rest := EmitFrom(hs, i + 1, strftime, rec);
      EmitFromWrites(hs, i + 1, strftime, rec);
      assert OrderedWrites(hs, i, strftime, rec, rest);
      assert OrderedWrites(hs, i, strftime, rec, here);
      assert forall k :: 0 <= k < |rest| ==> rest[k].handler > i;
      OrderedWritesAppend(hs, i, strftime, rec, here, rest);
    }
  }

  lemma OrderedWritesAppend(hs: seq<HandlerSpec>, i: nat, strftime: Strftime, rec: LogRecord, a: seq<Effect>, b: seq<Effect>)
    requires OrderedWrites(hs, i, strftime, rec, a) && OrderedWrites(hs, i, strftime, rec, b)
    requires forall x, y :: 0 <= x < |a| && 0 <= y < |b| ==> a[x].handler < b[y].handler
    ensures OrderedWrites(hs, i, strftime, rec, a + b)
  {
    var r := a + b;
    assert forall k :: |a| <= k < |r| ==> r[k] == b[k - |a|];
  }

  /** Delivery to the whole list only writes, in handler order. */
  lemma EmitWrites(hs: seq<HandlerSpec>, strftime: Strftime, rec: LogRecord)
    ensures OrderedWrites(hs, 0, strftime, rec, Emit(hs, strftime, rec))
  {
    EmitFromWrites(hs, 0, strftime, rec);
  }

  /**
   * Effects `r` are one record's delivery: no callback invocation, each
   * effect belongs to an eligible handler at or after `i`, and the handlers
   * come in list order, so none is reached twice.
   */
  ghost predicate OrderedDelivery(hs: seq<HandlerSpec>, i: nat, rec: LogRecord, r: seq<Effect>) {
    && (forall k :: 0 <= k < |r| ==>
      && !r[k].Called?
      && i <= r[k].handler < |hs|
      && Eligible(hs[r[k].handler], rec))
    && (forall a, b :: 0 <= a < b < |r| ==> r[a].handler < r[b].handler)
  }

  lemma OrderedDeliveryOfWrites(hs: seq<HandlerSpec>, i: nat, strftime: Strftime, rec: LogRecord, r: seq<Effect>)
    requires OrderedWrites(hs, i, strftime, rec, r)
    ensures OrderedDelivery(hs, i, rec, r)
  {
  }

  /** In an ordered delivery a handler receives at most one line, and none below its threshold. */
  lemma {:induction false} OrderedDeliveryLines(hs: seq<HandlerSpec>, i0: nat, rec: LogRecord, r: seq<Effect>, i: nat)
    requires OrderedDelivery(hs, i0, rec, r)
    ensures |LinesTo(r, i)| <= 1
    ensures !(i < |hs| && Eligible(hs[i], rec)) ==> LinesTo(r, i) == []
    decreases |r|
  {
    if r != [] {
      var p := r[..|r| - 1];
      var last := r[|r| - 1];
      assert forall k :: 0 <= k < |p| ==> p[k] == r[k];
      assert OrderedDelivery(hs, i0, rec, p);
      OrderedDeliveryLines(hs, i0, rec, p, i);
      if last.Wrote? && last.handler == i {
        assert forall k :: 0 <= k < |p| ==> p[k].handler < i;
        LinesToNone(p, i);
      }
    }
  }

  lemma {:induction false} EmitFromLines(hs: seq<HandlerSpec>, j: nat, strftime: Strftime, rec: LogRecord, i: nat)
    ensures LinesTo(EmitFrom(hs, j, strftime, rec), i) ==
      if j <= i < |hs| && Eligible(hs[i], rec) then [Render(hs[i].formatter, strftime, rec)] else []
    decreases |hs| - j
  {
    if j < |hs| {
      var here := if Eligible(hs[j], rec) then [Wrote(j, Render(hs[j].formatter, strftime, rec))] else [];
      LinesToAppend(here, EmitFrom(hs, j + 1, strftime, rec), i);
      EmitFromLines(hs, j + 1, strftime, rec, i);
      if here != [] {
        assert here[..0] == [];
      }
    }
  }

  /**
   * Threshold filtering: a handler receives exactly one line, its own
   * rendering, for a record at or above its threshold, and nothing below it.
   */
  lemma EmitLines(hs: seq<HandlerSpec>, strftime: Strftime, rec: LogRecord, i: nat)
    ensures LinesTo(Emit(hs, strftime, rec), i) ==
      if i < |hs| && Eligible(hs[i], rec) then [Render(hs[i].formatter, strftime, rec)] else []
  {
    EmitFromLines(hs, 0, strftime, rec, i);
  }
}
