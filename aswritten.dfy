/**
 * The two formatters as the source writes them, on the record that the
 * standard library shares between all handlers of one logging call, and the
 * delivery of that record to the handler list.
 *
 * `PlainFormatter` builds its `logging.Formatter` base with a `{asctime}`
 * layout but no `datefmt`; the base `format` then recomputes `asctime` with
 * the library's default pattern, so the handler's `timestamp_format` never
 * reaches the output. It also stores the joined context string over the
 * record's `context` attribute, so every later format of the same record
 * sees a string where the dict was: a JSON handler writes it as a JSON string
 * and a plain format fails on `str.items()`, which the library reports
 * through `Handler.handleError` instead of writing anything. A size-rotating
 * file handler with a positive size limit formats the record once in
 * `shouldRollover` before `emit` formats it again, so a plain one always
 * meets the string.
 */
module AsWritten {
  import opened Wrappers
  import opened Text
  import opened Records
  import opened Formatters
  import opened Handlers

  /** The record's `context` attribute: the dict passed in `extra`, or a string a plain formatter stored over it. */
  datatype ContextAttr = Mapping(c: Context) | Rendered(text: string)

  /** `logging.Formatter.default_time_format`. */
  const STD_TIME_FORMAT: string := "%Y-%m-%d %H:%M:%S"

  const ITEMS_ERROR: string := "AttributeError: 'str' object has no attribute 'items'"

  /** `Formatter.formatTime(record)` with no `datefmt`: the default pattern, a comma and the milliseconds. */
  function DefaultAsctime(strftime: Strftime, t: Instant): string {
    strftime(STD_TIME_FORMAT, t) + "," + Pad3(t.epochMillis % 1000)
  }

  /**
   * `PlainFormatter.format` as written: the line (or the exception) and the
   * record's `context` attribute afterwards.
   */
  function PlainFormatAsWritten(fmt: string, strftime: Strftime, rec: LogRecord, attr: ContextAttr): (r: (Result<string, string>, ContextAttr))
    ensures r.0.Success? <==> attr.Mapping?
    ensures r.1.Rendered?
    ensures attr.Rendered? ==> r == (Failure(ITEMS_ERROR), attr)
    ensures attr.Mapping? ==> r.1 == Rendered(ContextText(attr.c))
  {
    match attr
    case Rendered(_) => (Failure(ITEMS_ERROR), attr)
    case Mapping(c) =>
      var text := ContextText(c);
      (Success(PlainText(DefaultAsctime(strftime, rec.created), rec.levelname, rec.message, text)), Rendered(text))
  }

  /** `JSONFormatter.format` as written: the `context` member is whatever the attribute holds. */
  function JsonFormatAsWritten(fmt: string, strftime: Strftime, rec: LogRecord, attr: ContextAttr): (r: Json)
    ensures r.JObject? && Keys(r.members) == ["level", "timestamp", "message", "context"]
    ensures attr == Mapping(rec.context) ==> r == JsonFormat(fmt, strftime, rec)
  {
    JObject([
      ("level", JString(rec.levelname)),
      ("timestamp", JString(strftime(fmt, rec.created))),
      ("message", JString(rec.message)),
      ("context", match attr case Mapping(c) => ContextJson(c) case Rendered(text) => JString(text))
    ])
  }

  /** `RotatingFileHandler.shouldRollover` formats the record before `emit` does: a size limit above zero. */
  predicate FormatsForRollover(h: HandlerSpec) {
    h.kind.SizeRotating? && h.kind.maxBytes > 0
  }

  /**
   * `handle(record)` on one eligible handler as written: its one effect, a
   * line or a reported failure, and the record's context attribute afterwards.
   */
  function HandleAsWritten(h: HandlerSpec, i: nat, strftime: Strftime, rec: LogRecord, attr: ContextAttr): (r: (Effect, ContextAttr))
    ensures !r.0.Called? && r.0.handler == i
    ensures r.1.Mapping? ==> r.1 == attr
  {
    var f := h.formatter;
    match f.style
    case JsonStyle =>
      // A second format in `shouldRollover` builds the same document.
      (Wrote(i, JsonLine(JsonFormatAsWritten(f.timestampFormat, strftime, rec, attr))), attr)
    case PlainStyle =>
      var (first, attr1) := PlainFormatAsWritten(f.timestampFormat, strftime, rec, attr);
      if first.Failure? then (HandleError(i), attr1)
      else if FormatsForRollover(h) then
        // `shouldRollover` stored the string; the format in `emit` raises on it.
        var (second, attr2) := PlainFormatAsWritten(f.timestampFormat, strftime, rec, attr1);
        assert second.Failure?;
        (HandleError(i), attr2)
      else (Wrote(i, PlainLine(first.value)), attr1)
  }

  /** Delivery to handlers `i..` with the record, and its context attribute, shared and updated in turn. */
  function EmitAsWrittenFrom(hs: seq<HandlerSpec>, i: nat, strftime: Strftime, rec: LogRecord, attr: ContextAttr): seq<Effect>
    decreases |hs| - i
  {
    if i >= |hs| then []
    else if !Eligible(hs[i], rec) then EmitAsWrittenFrom(hs, i + 1, strftime, rec, attr)
    else
      var (e, attr') := HandleAsWritten(hs[i], i, strftime, rec, attr);
      [e] + EmitAsWrittenFrom(hs, i + 1, strftime, rec, attr')
  }

  /** One logging call as written: the record starts with the entry's context dict. */
  function EmitAsWritten(hs: seq<HandlerSpec>, strftime: Strftime, rec: LogRecord): seq<Effect> {
    EmitAsWrittenFrom(hs, 0, strftime, rec, Mapping(rec.context))
  }

  /** The `context` member of a JSON document, if it has one. */
  function JsonContext(doc: Json): Option<Json> {
    if doc.JObject? then Member(doc.members, "context") else None
  }

  lemma JsonContextAsWritten(fmt: string, strftime: Strftime, rec: LogRecord, attr: ContextAttr)
    ensures JsonContext(JsonFormatAsWritten(fmt, strftime, rec, attr))
      == Some(match attr case Mapping(c) => ContextJson(c) case Rendered(text) => JString(text))
  {
    var ms := JsonFormatAsWritten(fmt, strftime, rec, attr).members;
    var ms3 := ms[1..][1..][1..];
    assert ms3[0].0 == "context";
    assert Member(ms, "context") == Member(ms[1..], "context") == Member(ms[1..][1..], "context") == Member(ms3, "context");
  }

  /** As written, the plain output does not depend on the configured timestamp pattern at all. */
  lemma PlainAsWrittenIgnoresPattern(fmt1: string, fmt2: string, strftime: Strftime, rec: LogRecord, attr: ContextAttr)
    ensures PlainFormatAsWritten(fmt1, strftime, rec, attr) == PlainFormatAsWritten(fmt2, strftime, rec, attr)
  {
  }

  /**
   * The as-written delivery is still one ordered pass: no callback
   * invocation, one effect per eligible handler at most, in list order.
   */
  lemma {:induction false} EmitAsWrittenOrdered(hs: seq<HandlerSpec>, i: nat, strftime: Strftime, rec: LogRecord, attr: ContextAttr)
    ensures OrderedDelivery(hs, i, rec, EmitAsWrittenFrom(hs, i, strftime, rec, attr))
    decreases |hs| - i
  {
    if i < |hs| {
      if Eligible(hs[i], rec) {
        var (e, attr') := HandleAsWritten(hs[i], i, strftime, rec, attr);
        var rest := EmitAsWrittenFrom(hs, i + 1, strftime, rec, attr');
        EmitAsWrittenOrdered(hs, i + 1, strftime, rec, attr');
        var r := [e] + rest;
        assert forall k :: 1 <= k < |r| ==> r[k] == rest[k - 1];
      } else {
        EmitAsWrittenOrdered(hs, i + 1, strftime, rec, attr);
      }
    }
  }

  /** Every eligible handler is reached: it writes a line or reports a failure through `handleError`. */
  lemma {:induction false} EmitAsWrittenReaches(hs: seq<HandlerSpec>, j: nat, strftime: Strftime, rec: LogRecord, attr: ContextAttr, i: nat)
    requires j <= i < |hs| && Eligible(hs[i], rec)
    ensures var E := EmitAsWrittenFrom(hs, j, strftime, rec, attr);
      LinesTo(E, i) != [] || HandleError(i) in E
    decreases |hs| - j
  {
    if !Eligible(hs[j], rec) {
      EmitAsWrittenReaches(hs, j + 1, strftime, rec, attr, i);
    } else {
      var (e, attr') := HandleAsWritten(hs[j], j, strftime, rec, attr);
      var rest := EmitAsWrittenFrom(hs, j + 1, strftime, rec, attr');
      LinesToAppend([e], rest, i);
      if i == j {
        assert [e][..0] == [];
      } else {
        EmitAsWrittenReaches(hs, j + 1, strftime, rec, attr', i);
      }
    }
  }

  /**
   * Once a plain handler has run, no later handler of the same call writes
   * a plain line: every later eligible JSON handler writes the joined string
   * as its context, and every later eligible plain handler fails.
   */
  lemma AfterPlainHandler(hs: seq<HandlerSpec>, i: nat, strftime: Strftime, rec: LogRecord, text: string)
    ensures var E := EmitAsWrittenFrom(hs, i, strftime, rec, Rendered(text));
      && (forall k :: 0 <= k < |E| && E[k].Wrote? ==>
           E[k].line.JsonLine? && JsonContext(E[k].line.doc) == Some(JString(text)))
      && (forall k :: i <= k < |hs| && Eligible(hs[k], rec) && hs[k].formatter.style == PlainStyle ==>
           HandleError(k) in E)
      && (forall k :: i <= k < |hs| && Eligible(hs[k], rec) && hs[k].formatter.style == JsonStyle ==>
           Wrote(k, JsonLine(JsonFormatAsWritten(hs[k].formatter.timestampFormat, strftime, rec, Rendered(text)))) in E)
  {
    AfterPlainWrites(hs, i, strftime, rec, text);
    assert JsonWritesWith(EmitAsWrittenFrom(hs, i, strftime, rec, Rendered(text)), text);
    forall k | i <= k < |hs| && Eligible(hs[k], rec)
      ensures hs[k].formatter.style == PlainStyle ==> HandleError(k) in EmitAsWrittenFrom(hs, i, strftime, rec, Rendered(text))
      ensures hs[k].formatter.style == JsonStyle ==>
        Wrote(k, JsonLine(JsonFormatAsWritten(hs[k].formatter.timestampFormat, strftime, rec, Rendered(text))))
          in EmitAsWrittenFrom(hs, i, strftime, rec, Rendered(text))
    {
      AfterPlainReaches(hs, i, strftime, rec, text, k);
    }
  }

  /** Every write in `E` is a JSON line whose context is the string `text`. */
  ghost predicate JsonWritesWith(E: seq<Effect>, text: string) {
    forall k :: 0 <= k < |E| && E[k].Wrote? ==>
      E[k].line.JsonLine? && JsonContext(E[k].line.doc) == Some(JString(text))
  }

  /** After a plain handler, every write of the same call is a JSON line carrying the joined string. */
  lemma {:induction false} AfterPlainWrites(hs: seq<HandlerSpec>, i: nat, strftime: Strftime, rec: LogRecord, text: string)
    ensures JsonWritesWith(EmitAsWrittenFrom(hs, i, strftime, rec, Rendered(text)), text)
    decreases |hs| - i
  {
    if i < |hs| {
      var attr := Rendered(text);
      var rest := EmitAsWrittenFrom(hs, i + 1, strftime, rec, attr);
      AfterPlainWrites(hs, i + 1, strftime, rec, text);
      if Eligible(hs[i], rec) {
        var f := hs[i].formatter;
        JsonContextAsWritten(f.timestampFormat, strftime, rec, attr);
        var (e, attr') := HandleAsWritten(hs[i], i, strftime, rec, attr);
        assert attr' == attr;
        var doc := JsonFormatAsWritten(f.timestampFormat, strftime, rec, attr);
        assert e.Wrote? ==> e == Wrote(i, JsonLine(doc));
        var E := [e] + rest;
        assert E == EmitAsWrittenFrom(hs, i, strftime, rec, attr);
        forall k | 0 <= k < |E| && E[k].Wrote?
          ensures E[k].line.JsonLine? && JsonContext(E[k].line.doc) == Some(JString(text))
        {
          if k > 0 {
            assert E[k] == rest[k - 1];
          }
        }
      } else {
        assert EmitAsWrittenFrom(hs, i, strftime, rec, attr) == rest;
      }
    }
  }

  /** After a plain handler, a later eligible plain handler reports a failure, and a later eligible JSON handler writes its document with the joined string. */
  lemma {:induction false} AfterPlainReaches(hs: seq<HandlerSpec>, i: nat, strftime: Strftime, rec: LogRecord, text: string, k: nat)
    requires i <= k < |hs| && Eligible(hs[k], rec)
    ensures var E := EmitAsWrittenFrom(hs, i, strftime, rec, Rendered(text));
      && (hs[k].formatter.style == PlainStyle ==> HandleError(k) in E)
      && (hs[k].formatter.style == JsonStyle ==>
           Wrote(k, JsonLine(JsonFormatAsWritten(hs[k].formatter.timestampFormat, strftime, rec, Rendered(text)))) in E)
    decreases |hs| - i
  {
    var attr := Rendered(text);
    var rest := EmitAsWrittenFrom(hs, i + 1, strftime, rec, attr);
    if k > i {
      AfterPlainReaches(hs, i + 1, strftime, rec, text, k);
    }
    if Eligible(hs[i], rec) {
      var (e, attr') := HandleAsWritten(hs[i], i, strftime, rec, attr);
      assert attr' == attr;
      var E := [e] + rest;
      assert E == EmitAsWrittenFrom(hs, i, strftime, rec, attr);
      assert forall x :: x in rest ==> x in E;
      assert e in E;
    }
  }

  /** A pattern-echoing clock rendering, enough to tell two patterns apart. */
  function EchoPattern(pattern: string, t: Instant): string {
    pattern
  }

  const STARTED: LogRecord := LogRecord(20, "INFO", "started", Instant(0), [("user", Str("admin"))])

  lemma StartedContextText()
    ensures ContextText(STARTED.context) == "user=admin"
  {
    assert PairText(STARTED.context[0]) == "user=admin";
    assert PairTexts(STARTED.context) == ["user=admin"];
  }

  /**
   * Finding: a plain handler configured with `timestamp_format="%d/%m/%Y"`
   * prints the library default `%Y-%m-%d %H:%M:%S,mmm` instead, so its line
   * differs from the one the configuration asks for.
   */
  lemma PlainTimestampFinding()
    ensures DefaultAsctime(EchoPattern, Instant(0)) == "%Y-%m-%d %H:%M:%S,000"
    ensures PlainFormatAsWritten("%d/%m/%Y", EchoPattern, STARTED, Mapping(STARTED.context)).0
      == Success(PlainText("%Y-%m-%d %H:%M:%S,000", "INFO", "started", "user=admin"))
    ensures PlainFormat("%d/%m/%Y", EchoPattern, STARTED) == PlainText("%d/%m/%Y", "INFO", "started", "user=admin")
    ensures PlainText("%Y-%m-%d %H:%M:%S,000", "INFO", "started", "user=admin") != PlainText("%d/%m/%Y", "INFO", "started", "user=admin")
  {
    assert DigitChar(0) == '0';
    assert NatToString(0) == "0";
    assert Pad3(0) == "000" by {
      assert seq(2, _ => '0') == "00";
    }
    StartedContextText();
    assert PlainText("%Y-%m-%d %H:%M:%S,000", "INFO", "started", "user=admin")[2] == 'Y';
    assert PlainText("%d/%m/%Y", "INFO", "started", "user=admin")[2] == 'd';
  }

  const CONSOLE_DEBUG_PLAIN: HandlerSpec := HandlerSpec(Stream, 10, Formatter(PlainStyle, STD_TIME_FORMAT))
  const FILE_INFO_JSON: HandlerSpec := HandlerSpec(PlainFile("app.log"), 20, Formatter(JsonStyle, STD_TIME_FORMAT))

  /**
   * Finding: with a plain console handler before a JSON file handler,
   * `info("started", user="admin")` writes `"context": "user=admin"` to the
   * file, which no longer reads back as the context mapping; the corrected
   * delivery writes the object.
   */
  lemma SharedRecordFinding()
    ensures var e := EmitAsWritten([CONSOLE_DEBUG_PLAIN, FILE_INFO_JSON], EchoPattern, STARTED);
      && |e| == 2 && e[1].Wrote? && e[1].line.JsonLine?
      && JsonContext(e[1].line.doc) == Some(JString("user=admin"))
      && ReadDoc(e[1].line.doc) == None
    ensures var e := Emit([CONSOLE_DEBUG_PLAIN, FILE_INFO_JSON], EchoPattern, STARTED);
      && |e| == 2 && e[1].Wrote? && e[1].line.JsonLine?
      && ReadDoc(e[1].line.doc) == Some(("INFO", STD_TIME_FORMAT, "started", STARTED.context))
  {
    var hs := [CONSOLE_DEBUG_PLAIN, FILE_INFO_JSON];
    StartedContextText();
    var first := PlainFormatAsWritten(STD_TIME_FORMAT, EchoPattern, STARTED, Mapping(STARTED.context));
    assert first.1 == Rendered("user=admin");
    var doc := JsonFormatAsWritten(STD_TIME_FORMAT, EchoPattern, STARTED, Rendered("user=admin"));
    assert EmitAsWrittenFrom(hs, 2, EchoPattern, STARTED, Rendered("user=admin")) == [];
    assert EmitAsWrittenFrom(hs, 1, EchoPattern, STARTED, Rendered("user=admin")) == [Wrote(1, JsonLine(doc))];
    assert EmitAsWritten(hs, EchoPattern, STARTED) == [Wrote(0, PlainLine(first.0.value)), Wrote(1, JsonLine(doc))];
    JsonContextAsWritten(STD_TIME_FORMAT, EchoPattern, STARTED, Rendered("user=admin"));
    assert EmitFrom(hs, 2, EchoPattern, STARTED) == [];
    assert EmitFrom(hs, 1, EchoPattern, STARTED) == [Wrote(1, Render(hs[1].formatter, EchoPattern, STARTED))];
    JsonRoundTrip(STD_TIME_FORMAT, EchoPattern, STARTED);
  }

  /**
   * Finding: of two eligible plain handlers, the second writes nothing, as
   * its format raises; the corrected delivery writes to both.
   */
  lemma SecondPlainHandlerFinding(strftime: Strftime, rec: LogRecord)
    requires rec.levelno >= 10
    ensures EmitAsWritten([CONSOLE_DEBUG_PLAIN, CONSOLE_DEBUG_PLAIN], strftime, rec)[1..] == [HandleError(1)]
    ensures Emit([CONSOLE_DEBUG_PLAIN, CONSOLE_DEBUG_PLAIN], strftime, rec)[1..]
      == [Wrote(1, PlainLine(PlainFormat(STD_TIME_FORMAT, strftime, rec)))]
  {
    var hs := [CONSOLE_DEBUG_PLAIN, CONSOLE_DEBUG_PLAIN];
    var text := ContextText(rec.context);
    assert EmitAsWrittenFrom(hs, 2, strftime, rec, Rendered(text)) == [];
    assert EmitAsWrittenFrom(hs, 1, strftime, rec, Rendered(text)) == [HandleError(1)];
    assert EmitFrom(hs, 2, strftime, rec) == [];
    assert EmitFrom(hs, 1, strftime, rec) == [Wrote(1, PlainLine(PlainFormat(STD_TIME_FORMAT, strftime, rec)))];
  }

  const ROTATING_PLAIN: HandlerSpec :=
    HandlerSpec(SizeRotating("app.log", 10 * 1024 * 1024, 3), 10, Formatter(PlainStyle, STD_TIME_FORMAT))

  /**
   * Finding: a plain size-rotating file handler with a positive size limit
   * never writes: the format in `shouldRollover` replaces the context, and
   * the format in `emit` then fails. The corrected delivery writes the line.
   */
  lemma RotatingPlainFinding(strftime: Strftime, rec: LogRecord)
    requires rec.levelno >= 10
    ensures EmitAsWritten([ROTATING_PLAIN], strftime, rec) == [HandleError(0)]
    ensures Emit([ROTATING_PLAIN], strftime, rec) == [Wrote(0, PlainLine(PlainFormat(STD_TIME_FORMAT, strftime, rec)))]
  {
    var hs := [ROTATING_PLAIN];
    assert EmitAsWrittenFrom(hs, 1, strftime, rec, Rendered(ContextText(rec.context))) == [];
    assert EmitFrom(hs, 1, strftime, rec) == [];
  }
}
