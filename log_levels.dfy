// The log-level setting of the two logger packages: `getLogLevelFromEnv`
// in internal/logger/logger.go reads ZAP_LOG_LEVEL, `parseLogLevel` in the
// older logger/logger.go reads a command-line flag. Both map a level name,
// case-insensitively, to a zap level and fall back to Info.
module LogLevels {
  import opened Text

  /** The zap levels the two switches produce. */
  datatype Level = Debug | Info | Warn | Error | Fatal | Panic

  /** The lower-case names that select each level. */
  function Names(l: Level): (ns: seq<string>)
    ensures ns != []
  {
    match l
    case Debug => ["debug"]
    case Info => ["info"]
    case Warn => ["warn", "warning"]
    case Error => ["error"]
    case Fatal => ["fatal"]
    case Panic => ["panic"]
  }

  /** A string no level answers to. */
  predicate Unnamed(s: string)
  {
    s !in Names(Debug) + Names(Info) + Names(Warn) + Names(Error) + Names(Fatal) + Names(Panic)
  }

  /**
   * `getLogLevelFromEnv`, with the environment variable's value as the
   * parameter: an empty value gives Info, a name gives its level whatever its
   * case, anything else leaves the Info default in place.
   */
  function LevelFromEnv(value: string): (l: Level)
    ensures forall k: Level :: Lower(value) in Names(k) ==> l == k
    ensures Unnamed(Lower(value)) ==> l == Info
    ensures value == [] ==> l == Info
  {
    var s := Lower(value);
    if s == "" then Info
    else if s == "debug" then Debug
    else if s == "info" then Info
    else if s == "warn" || s == "warning" then Warn
    else if s == "error" then Error
    else if s == "fatal" then Fatal
    else if s == "panic" then Panic
    else Info
  }

  /** `parseLogLevel`: the same switch with an explicit Info default. */
  function ParseLevel(flag: string): (l: Level)
    ensures forall k: Level :: Lower(flag) in Names(k) ==> l == k
    ensures Unnamed(Lower(flag)) ==> l == Info
  {
    match Lower(flag)
    case "debug" => Debug
    case "info" => Info
    case "warn" => Warn
    case "warning" => Warn
    case "error" => Error
    case "fatal" => Fatal
    case "panic" => Panic
    case _ => Info
  }

  /** Every level is reachable: its names select it, in either logger. */
  lemma NamesSelect(l: Level, i: nat)
    requires i < |Names(l)|
    ensures LevelFromEnv(Names(l)[i]) == l && ParseLevel(Names(l)[i]) == l
  {
    var n := Names(l)[i];
    assert Lower(n) == n;
  }

  /** Setting names differing only in letter case select the same level. */
  lemma CaseInsensitive(s: string, t: string)
    requires Lower(s) == Lower(t)
    ensures LevelFromEnv(s) == LevelFromEnv(t) && ParseLevel(s) == ParseLevel(t)
  {
  }

  /** The environment variable and the older flag are read alike. */
  lemma LoggersAgree(s: string)
    ensures LevelFromEnv(s) == ParseLevel(s)
  {
  }
}
