/**
 * `PlainFormatter.format` and `JSONFormatter.format`, as pure functions of a
 * record that they leave unchanged and of the handler's configured timestamp
 * pattern. The shapes the source actually produces, which differ in both
 * respects, are in module AsWritten.
 */
module Formatters {
  import opened Wrappers
  import opened Text
  import opened Records

  datatype Style = PlainStyle | JsonStyle

  /** A formatter instance: which of the two classes, built with which `timestamp_format`. */
  datatype Formatter = Formatter(style: Style, timestampFormat: string)

  /** `datetime.fromtimestamp(t).strftime(pattern)`, a foreign function supplied by the caller. */
  type Strftime = (string, Instant) -> string

  /** One `f"{k}={v}"` item. */
  function PairText(p: (string, Value)): string {
    p.0 + "=" + Display(p.1)
  }

  function PairTexts(c: Context): (r: seq<string>)
    ensures |r| == |c|
  {
    seq(|c|, i requires 0 <= i < |c| => PairText(c[i]))
  }

  /** The `{context}` field: the `k=v` items joined by single spaces, in insertion order. */
  function ContextText(c: Context): string {
    Join(" ", PairTexts(c))
  }

  /** An empty context renders as the empty string, not as `{}`. */
  lemma ContextTextEmpty()
    ensures ContextText([]) == ""
  {
  }

  /** Insertion order is kept: the items of an earlier part of the context come first, one space apart. */
  lemma ContextOrderPreserved(a: Context, b: Context)
    requires a != [] && b != []
    ensures ContextText(a + b) == ContextText(a) + " " + ContextText(b)
  {
    assert PairTexts(a + b) == PairTexts(a) + PairTexts(b);
    JoinAppend(" ", PairTexts(a), PairTexts(b));
  }

  /** When no key or value contains a space, splitting the `{context}` text on spaces gives back the items in order. */
  lemma ContextRecoverable(c: Context)
    requires c != []
    requires forall k :: 0 <= k < |c| ==> ' ' !in PairText(c[k])
    ensures Split(ContextText(c), ' ') == PairTexts(c)
  {
    SplitJoin(PairTexts(c), ' ');
  }

  /** The plain layout `[{asctime}] [{levelname}] {message} {context}`. */
  function PlainText(asctime: string, levelname: string, message: string, contextText: string): string {
    "[" + asctime + "] [" + levelname + "] " + message + " " + contextText
  }

  /** Plain rendering with the handler's own timestamp pattern applied to the record's creation time. */
  function PlainFormat(fmt: string, strftime: Strftime, rec: LogRecord): string {
    PlainText(strftime(fmt, rec.created), rec.levelname, rec.message, ContextText(rec.context))
  }

  /** What a reader takes as a plain line's timestamp: the text after the opening `[` up to the first `]`. */
  function BracketedTimestamp(line: string): string {
    if line == [] then "" else Split(line[1..], ']')[0]
  }

  /**
   * The configured timestamp can be read back from a plain line: the line
   * opens with `[` and the text up to the first `]` is the handler's own
   * rendering of the creation time, whenever that rendering has no `]`.
   */
  lemma PlainTimestampRecoverable(fmt: string, strftime: Strftime, rec: LogRecord)
    requires ']' !in strftime(fmt, rec.created)
    ensures var line := PlainFormat(fmt, strftime, rec);
      line[0] == '[' && BracketedTimestamp(line) == strftime(fmt, rec.created)
  {
    var ts := strftime(fmt, rec.created);
    var tail := "] [" + rec.levelname + "] " + rec.message + " " + ContextText(rec.context);
    PlainTextSplits(ts, rec.levelname, rec.message, ContextText(rec.context));
    SplitPrefix(ts, ']', tail);
    assert Split(tail, ']')[0] == "" by {
      assert tail[0] == ']';
    }
    assert ts + "" == ts;
  }

  lemma PlainTextSplits(asctime: string, levelname: string, message: string, contextText: string)
    ensures var line := PlainText(asctime, levelname, message, contextText);
      line != [] && line[0] == '[' && line[1..] == asctime + ("] [" + levelname + "] " + message + " " + contextText)
  {
  }

  /**
   * The timestamp pattern shows in the output: two patterns that render the
   * creation time differently (without `]`) give different plain lines.
   */
  lemma PlainTimestampVisible(fmt1: string, fmt2: string, strftime: Strftime, rec: LogRecord)
    requires ']' !in strftime(fmt1, rec.created) && ']' !in strftime(fmt2, rec.created)
    requires strftime(fmt1, rec.created) != strftime(fmt2, rec.created)
    ensures PlainFormat(fmt1, strftime, rec) != PlainFormat(fmt2, strftime, rec)
  {
    PlainTimestampRecoverable(fmt1, strftime, rec);
    PlainTimestampRecoverable(fmt2, strftime, rec);
  }

  /** How `json.dumps` sees a context value. */
  function ValueJson(v: Value): Json {
    match v
    case Str(s) => JString(s)
    case Int(i) => JInt(i)
    case Bool(b) => JBool(b)
    case NoneValue => JNull
  }

  /** The context dict as a JSON object, members in insertion order. */
  function ContextJson(c: Context): (r: Json)
    ensures r.JObject? && |r.members| == |c|
  {
    JObject(seq(|c|, i requires 0 <= i < |c| => (c[i].0, ValueJson(c[i].1))))
  }

  function Keys(members: seq<(string, Json)>): seq<string> {
    seq(|members|, i requires 0 <= i < |members| => members[i].0)
  }

  /** The JSON document: exactly the keys level, timestamp, message and context, in that order. */
  function JsonFormat(fmt: string, strftime: Strftime, rec: LogRecord): (r: Json)
    ensures r.JObject? && Keys(r.members) == ["level", "timestamp", "message", "context"]
  {
    JObject([
      ("level", JString(rec.levelname)),
      ("timestamp", JString(strftime(fmt, rec.created))),
      ("message", JString(rec.message)),
      ("context", ContextJson(rec.context))
    ])
  }

  /** What a handler with formatter `f` writes for `rec`. */
  function Render(f: Formatter, strftime: Strftime, rec: LogRecord): Line {
    match f.style
    case PlainStyle => PlainLine(PlainFormat(f.timestampFormat, strftime, rec))
    case JsonStyle => JsonLine(JsonFormat(f.timestampFormat, strftime, rec))
  }

  // Reading a document back, as a consumer parsing the JSON line would.

  function ValueOf(j: Json): Option<Value> {
    match j
    case JString(s) => Some(Str(s))
    case JInt(i) => Some(Int(i))
    case JBool(b) => Some(Bool(b))
    case JNull => Some(NoneValue)
    case JObject(_) => None
  }

  function MembersOf(members: seq<(string, Json)>): Option<Context> {
    if members == [] then Some([])
    else
      match (ValueOf(members[0].1), MembersOf(members[1..]))
      case (Some(v), Some(rest)) => Some([(members[0].0, v)] + rest)
      case _ => None
  }

  function ContextOf(j: Json): Option<Context> {
    if j.JObject? then MembersOf(j.members) else None
  }

  /** The first member named `key`. */
  function Member(members: seq<(string, Json)>, key: string): Option<Json> {
    if members == [] then None
    else if members[0].0 == key then Some(members[0].1)
    else Member(members[1..], key)
  }

  function StringOf(j: Option<Json>): Option<string> {
    if j.Some? && j.value.JString? then Some(j.value.s) else None
  }

  /** Level, timestamp, message and context read back from a document, if it has them. */
  function ReadDoc(j: Json): Option<(string, string, string, Context)> {
    if !j.JObject? then None
    else
      var level := StringOf(Member(j.members, "level"));
      var ts := StringOf(Member(j.members, "timestamp"));
      var msg := StringOf(Member(j.members, "message"));
      var ctx := Member(j.members, "context");
      if level.Some? && ts.Some? && msg.Some? && ctx.Some? && ContextOf(ctx.value).Some?
      then Some((level.value, ts.value, msg.value, ContextOf(ctx.value).value))
      else None
  }

  lemma {:induction false} ContextJsonRoundTrip(c: Context)
    ensures ContextOf(ContextJson(c)) == Some(c)
  {
    if c != [] {
      var ms := ContextJson(c).members;
      assert ms[1..] == ContextJson(c[1..]).members;
      ContextJsonRoundTrip(c[1..]);
      assert ValueOf(ValueJson(c[0].1)) == Some(c[0].1);
      assert [(c[0].0, c[0].1)] + c[1..] == c;
    }
  }

  /** Reading the JSON document back gives the record's level name, the formatted timestamp, the message and the context unchanged. */
  lemma JsonRoundTrip(fmt: string, strftime: Strftime, rec: LogRecord)
    ensures ReadDoc(JsonFormat(fmt, strftime, rec)) == Some((rec.levelname, strftime(fmt, rec.created), rec.message, rec.context))
  {
    var ms := JsonFormat(fmt, strftime, rec).members;
    assert Member(ms, "level") == Some(JString(rec.levelname));
    assert Member(ms, "timestamp") == Some(JString(strftime(fmt, rec.created))) by {
      assert ms[1..][0].0 == "timestamp";
    }
    var ms2, ms3 := ms[1..][1..], ms[1..][1..][1..];
    assert ms2[0].0 == "message" && ms3[0].0 == "context";
    assert Member(ms, "message") == Member(ms2, "message") == Some(JString(rec.message));
    assert Member(ms, "context") == Member(ms[1..], "context") == Member(ms2, "context");
    assert Member(ms2, "context") == Member(ms3, "context") == Some(ContextJson(rec.context));
    ContextJsonRoundTrip(rec.context);
  }
}
