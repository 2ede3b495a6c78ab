/**
 * The values that flow through the pipeline: context values, the entry dict
 * `Logger.log` builds, the standard library's `LogRecord` that `_emit_log`
 * creates from it, JSON documents, rendered lines and the observable effects
 * of processing.
 */
module Records {
  import opened Text
  import opened Levels

  /** The scalar context values covered: `str`, `int`, `bool` and `None`. */
  datatype Value = Str(s: string) | Int(i: int) | Bool(b: bool) | NoneValue

  /** `str(v)`, as `f"{k}={v}"` renders it. */
  function Display(v: Value): string {
    match v
    case Str(s) => s
    case Int(i) => IntToString(i)
    case Bool(b) => if b then "True" else "False"
    case NoneValue => "None"
  }

  /** The `**context` keyword arguments, in insertion order. */
  type Context = seq<(string, Value)>

  /** `datetime.now().strftime(...)` pattern used for the entry's own timestamp. */
  const ENTRY_TIMESTAMP_FORMAT: string := "%Y-%m-%d %H:%M:%S"

  /**
   * The dict built by `Logger.log`. Its `"level"` item is the member's value
   * `Name(level)`, which `LogLevel[...]` maps back to `level`
   * (Levels.NameRoundTrip), so the entry keeps the member itself.
   */
  datatype Entry = Entry(level: LogLevel, timestamp: string, message: string, context: Context)

  /** A clock reading (`record.created`), in milliseconds since the epoch. */
  datatype Instant = Instant(epochMillis: int)

  /** The part of a standard-library `LogRecord` the formatters read. */
  datatype LogRecord = LogRecord(levelno: int, levelname: string, message: string, created: Instant, context: Context)

  /** A decoded JSON document; objects keep their members in order. */
  datatype Json = JNull | JBool(b: bool) | JInt(i: int) | JString(s: string) | JObject(members: seq<(string, Json)>)

  /** What a handler writes: a plain text line, or a JSON document before `json.dumps`. */
  datatype Line = PlainLine(text: string) | JsonLine(doc: Json)

  /**
   * One observable effect, in the order it happens: a line written by the
   * handler at position `handler`, one invocation of the callback, or a
   * failed `emit` that the standard library reports through `handleError`.
   */
  datatype Effect = Wrote(handler: nat, line: Line) | Called(entry: Entry) | HandleError(handler: nat)

  /** The lines written to handler `i`, in order. */
  function LinesTo(effects: seq<Effect>, i: nat): seq<Line> {
    if effects == [] then []
    else
      var last := effects[|effects| - 1];
      LinesTo(effects[..|effects| - 1], i) + (if last.Wrote? && last.handler == i then [last.line] else [])
  }

  /** The entries the callback was invoked with, in order. */
  function Calls(effects: seq<Effect>): seq<Entry> {
    if effects == [] then []
    else
      var last := effects[|effects| - 1];
      Calls(effects[..|effects| - 1]) + (if last.Called? then [last.entry] else [])
  }

  lemma {:induction false} LinesToAppend(a: seq<Effect>, b: seq<Effect>, i: nat)
    ensures LinesTo(a + b, i) == LinesTo(a, i) + LinesTo(b, i)
    decreases |b|
  {
    if b == [] {
      assert a + b == a;
    } else {
      assert (a + b)[..|a + b| - 1] == a + b[..|b| - 1];
      LinesToAppend(a, b[..|b| - 1], i);
    }
  }

  /** A callback invocation writes no line. */
  lemma LinesToCall(a: seq<Effect>, e: Entry, i: nat)
    ensures LinesTo(a + [Called(e)], i) == LinesTo(a, i)
  {
    assert (a + [Called(e)])[..|a|] == a;
  }

  lemma {:induction false} CallsAppend(a: seq<Effect>, b: seq<Effect>)
    ensures Calls(a + b) == Calls(a) + Calls(b)
    decreases |b|
  {
    if b == [] {
      assert a + b == a;
    } else {
      assert (a + b)[..|a + b| - 1] == a + b[..|b| - 1];
      CallsAppend(a, b[..|b| - 1]);
    }
  }

  /** Effects without a callback invocation contribute no callback entry. */
  lemma {:induction false} CallsOfNoCalls(effects: seq<Effect>)
    requires forall k :: 0 <= k < |effects| ==> !effects[k].Called?
    ensures Calls(effects) == []
  {
    if effects != [] {
      CallsOfNoCalls(effects[..|effects| - 1]);
    }
  }

  /** A handler that no effect writes to has received no line. */
  lemma {:induction false} LinesToNone(effects: seq<Effect>, i: nat)
    requires forall k :: 0 <= k < |effects| && effects[k].Wrote? ==> effects[k].handler != i
    ensures LinesTo(effects, i) == []
  {
    if effects != [] {
      LinesToNone(effects[..|effects| - 1], i);
    }
  }
}
