/**
 * The level selection of pkg/utils/logger.go: `NewLogger` and `NewFileLogger`
 * each turn a level name into a zap level with their own copy of the same
 * `switch`, and `GetDefaultLogger` asks for "info". Only the configuration
 * they choose is modelled; building the zap logger is not.
 */
module LoggerLevels {

  /** The zap levels the switch can select. */
  datatype Level = Debug | Info | Warn | Error | Fatal

  /** The one name under which the switch selects each level. */
  function Name(l: Level): string
  {
    match l
    case Debug => "debug"
    case Info => "info"
    case Warn => "warn"
    case Error => "error"
    case Fatal => "fatal"
  }

  /** The names the switch recognises; every other string falls to `default`. */
  const KnownNames: set<string> := {"debug", "info", "warn", "error", "fatal"}

  /** The part of zap's production configuration that the constructors set. */
  datatype LoggerConfig = LoggerConfig(level: Level, outputPaths: seq<string>, errorOutputPaths: seq<string>)

  /** `NewLogger(level)`: its switch, and output to stdout, errors to stderr. */
  function NewLogger(level: string): (c: LoggerConfig)
    ensures level in KnownNames ==> Name(c.level) == level
    ensures level !in KnownNames ==> c.level == Info
    ensures c.outputPaths == ["stdout"] && c.errorOutputPaths == ["stderr"]
  {
    var zapLevel :=
      match level
      case "debug" => Debug
      case "info" => Info
      case "warn" => Warn
      case "error" => Error
      case "fatal" => Fatal
      case _ => Info;
    LoggerConfig(zapLevel, ["stdout"], ["stderr"])
  }

  /** `NewFileLogger(level, filepath)`: its own copy of the switch, and all output to the file. */
  function NewFileLogger(level: string, filepath: string): (c: LoggerConfig)
    ensures level in KnownNames ==> Name(c.level) == level
    ensures level !in KnownNames ==> c.level == Info
    ensures c.outputPaths == [filepath] && c.errorOutputPaths == [filepath]
  {
    var zapLevel :=
      match level
      case "debug" => Debug
      case "info" => Info
      case "warn" => Warn
      case "error" => Error
      case "fatal" => Fatal
      case _ => Info;
    LoggerConfig(zapLevel, [filepath], [filepath])
  }

  /** `GetDefaultLogger` asks `NewLogger` for "info". */
  function DefaultLogger(): (c: LoggerConfig)
    ensures c.level == Info
  {
    NewLogger("info")
  }

  /** Every level is selected by its own name, by both constructors. */
  lemma NameRoundTrip(l: Level, filepath: string)
    ensures NewLogger(Name(l)).level == l
    ensures NewFileLogger(Name(l), filepath).level == l
  {
  }

  /**
   * The selection is exact and case-sensitive: a level other than Info is
   * chosen only by exactly its name, and Info by "info" or by any unknown name.
   */
  lemma SelectionIsExact(level: string, l: Level)
    ensures NewLogger(level).level == l <==>
      level == Name(l) || (l == Info && level !in KnownNames)
  {
  }

  /** The two copies of the switch agree on every input. */
  lemma CopiesAgree(level: string, filepath: string)
    ensures NewLogger(level).level == NewFileLogger(level, filepath).level
  {
  }

  /** Names in another case and the empty name fall to the default. */
  lemma NoNormalisation()
    ensures NewLogger("DEBUG").level == Info
    ensures NewLogger("Warn").level == Info
    ensures NewLogger("").level == Info
    ensures NewFileLogger(" error", "app.log").level == Info
  {
  }
}
