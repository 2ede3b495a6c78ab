/** `HandlerConfig` and `LoggerConfig`, with the defaults their constructors fill in. */
module Config {
  import opened Wrappers
  import opened Levels
  import opened Records

  /** `HandlerType`; `Other` stands for any value that is neither member. */
  datatype HandlerType = CONSOLE | FILE | Other(repr: string)

  datatype LogFormat = PLAIN | JSON

  const DEFAULT_TIMESTAMP_FORMAT: string := "%Y-%m-%d %H:%M:%S"

  /**
   * One handler's settings. `filename` is a `Path`, which is always truthy
   * when present; `rotateSize` and `rotateWhen` are optional.
   */
  datatype HandlerConfig = HandlerConfig(
    handlerType: HandlerType,
    level: LogLevel,
    format: LogFormat,
    filename: Option<string>,
    rotateSize: Option<int>,
    rotateCount: int,
    rotateWhen: Option<string>,
    timestampFormat: string)

  /** `HandlerConfig()` with every argument left at its default. */
  function DefaultHandlerConfig(): HandlerConfig {
    HandlerConfig(CONSOLE, INFO, PLAIN, None, None, 5, None, DEFAULT_TIMESTAMP_FORMAT)
  }

  /** Python truthiness of `rotate_size`: present and non-zero. */
  predicate SizeTruthy(o: Option<int>) {
    o.Some? && o.value != 0
  }

  /** Python truthiness of `rotate_when`: present and non-empty. */
  predicate WhenTruthy(o: Option<string>) {
    o.Some? && o.value != ""
  }

  /**
   * The user callback, given the entry dict: `None` when it returns, `Some(e)`
   * when it raises an exception whose `str` is `e`.
   */
  type Callback = Entry -> Option<string>

  datatype LoggerConfig = LoggerConfig(handlers: seq<HandlerConfig>, callback: Option<Callback>, asyncMode: bool)

  /** `LoggerConfig(handlers, callback, async_mode)`: a missing or empty handler list becomes one default handler. */
  function NewLoggerConfig(handlers: Option<seq<HandlerConfig>>, callback: Option<Callback>, asyncMode: bool): (c: LoggerConfig)
    ensures c.handlers != []
    ensures c.callback == callback && c.asyncMode == asyncMode
    ensures handlers.Some? && handlers.value != [] ==> c.handlers == handlers.value
    ensures handlers.None? || handlers.value == [] ==>
      && |c.handlers| == 1
      && c.handlers[0].handlerType == CONSOLE
      && c.handlers[0].level == INFO
      && c.handlers[0].format == PLAIN
      && c.handlers[0].rotateCount == 5
      && c.handlers[0].filename.None?
      && c.handlers[0].rotateSize.None?
      && c.handlers[0].rotateWhen.None?
  {
    var hs := if handlers.Some? && handlers.value != [] then handlers.value else [DefaultHandlerConfig()];
    LoggerConfig(hs, callback, asyncMode)
  }
}
