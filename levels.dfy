/**
 * Severities: the `LogLevel` enum, its string parser `LogLevel.from_str`, the
 * `Logger.LEVEL_MAP` table into the standard library's numeric levels, and the
 * standard library's names for those numbers (`LogRecord.levelname`).
 */
module Levels {
  import opened Wrappers
  import opened Text

  /** The members of `LogLevel`, in declaration order. */
  datatype LogLevel = DEBUG | INFO | WARNING | ERROR | CRITICAL

  const Members: seq<LogLevel> := [DEBUG, INFO, WARNING, ERROR, CRITICAL]

  /** The member's value, which is also its name. */
  function Name(l: LogLevel): string {
    match l
    case DEBUG => "DEBUG"
    case INFO => "INFO"
    case WARNING => "WARNING"
    case ERROR => "ERROR"
    case CRITICAL => "CRITICAL"
  }

  /** `Logger.LEVEL_MAP`: the standard library's numeric level for each member. */
  function Rank(l: LogLevel): int {
    match l
    case DEBUG => 10
    case INFO => 20
    case WARNING => 30
    case ERROR => 40
    case CRITICAL => 50
  }

  /** The level the logger itself is set to (`setLevel(logging.DEBUG)`). */
  const LOGGER_LEVEL: int := 10

  /** `logging.getLevelName(n)`, the `levelname` of a record at numeric level `n`. */
  function StdLevelName(n: int): string {
    if n == 50 then "CRITICAL"
    else if n == 40 then "ERROR"
    else if n == 30 then "WARNING"
    else if n == 20 then "INFO"
    else if n == 10 then "DEBUG"
    else if n == 0 then "NOTSET"
    else "Level " + IntToString(n)
  }

  /** `LogLevel[name]` guarded by `name in LogLevel.__members__`: the member with exactly that name. */
  function Lookup(name: string): (r: Option<LogLevel>)
    ensures r.Some? ==> Name(r.value) == name
    ensures r.None? ==> forall l :: Name(l) != name
  {
    if name == "DEBUG" then Some(DEBUG)
    else if name == "INFO" then Some(INFO)
    else if name == "WARNING" then Some(WARNING)
    else if name == "ERROR" then Some(ERROR)
    else if name == "CRITICAL" then Some(CRITICAL)
    else None
  }

  /**
   * `LogLevel.from_str`: the member whose name is the upper-cased input, or
   * the `ValueError` message for an unknown name.
   */
  function FromStr(s: string): (r: Result<LogLevel, string>)
    ensures r.Success? ==> Name(r.value) == Upper(s)
    ensures r.Failure? ==> (forall l :: Name(l) != Upper(s)) && r.error == "Unknown log level: " + Upper(s)
  {
    var u := Upper(s);
    match Lookup(u)
    case Some(l) => Success(l)
    case None => Failure("Unknown log level: " + u)
  }

  /** The parser ignores case: any two spellings that agree upper-cased parse alike, lower case included. */
  lemma FromStrCaseInsensitive(s: string)
    ensures FromStr(Lower(s)) == FromStr(s)
    ensures FromStr(Upper(s)) == FromStr(s)
  {
    UpperOfLower(s);
  }

  /** Every member's value parses back to it, and names it in `LogLevel[...]`, the round trip `_emit_log` relies on. */
  lemma NameRoundTrip(l: LogLevel)
    ensures Lookup(Name(l)) == Some(l)
    ensures FromStr(Name(l)) == Success(l)
    ensures FromStr(Lower(Name(l))) == Success(l)
  {
    var n := Name(l);
    assert Upper(n) == n by {
      assert forall i :: 0 <= i < |n| ==> 'A' <= n[i] <= 'Z';
    }
    FromStrCaseInsensitive(n);
  }

  /** The numeric levels strictly increase along the declaration order DEBUG < INFO < WARNING < ERROR < CRITICAL. */
  lemma RankStrictlyIncreasing(i: int, j: int)
    requires 0 <= i < j < |Members|
    ensures Rank(Members[i]) < Rank(Members[j])
  {
  }

  /** The standard library's name for a member's numeric level is the member's own name. */
  lemma StdLevelNameOfRank(l: LogLevel)
    ensures StdLevelName(Rank(l)) == Name(l)
  {
  }

  /** The logger is set to the lowest rank, so its own level check never rejects a call. */
  lemma LoggerLevelAdmitsAll(l: LogLevel)
    ensures !(Rank(l) < LOGGER_LEVEL)
    ensures Rank(DEBUG) == LOGGER_LEVEL
  {
  }
}
