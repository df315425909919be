/** The configuration state that mocker/log.h fixes for formatters,
    appenders and loggers: stored patterns and names, severity thresholds and
    their defaults, and the setter/getter pairs defined inline in the header. */
module LogState {
  import opened LogLevel
  import opened LogEvents

  /** `LogFormatter` (mocker/log.h:84-109) without its compiled items. */
  datatype Formatter = Formatter(
    pattern: string, // getPattern()
    error: bool      // isError()
  )

  /** A formatter as constructed from `pattern` before `init()` compiles it:
      the pattern is kept and the error flag starts cleared. */
  function NewFormatter(pattern: string): (f: Formatter)
    ensures f.pattern == pattern
    ensures !f.error
  {
    Formatter(pattern, false)
  }

  /** What distinguishes the concrete appenders. */
  datatype AppenderKind =
    | Stdout
    | File(filename: string, lastTime: uint64) // m_filename; m_lastTime, 0 at construction

  /** `LogAppender` (mocker/log.h:112-136) and its two subclasses. */
  datatype Appender = Appender(
    level: Level,        // m_level, the threshold
    hasFormatter: bool,  // m_hasFormatter
    kind: AppenderKind
  )

  /** `StdoutLogAppender(level = LogLevel::UNKNOWN)`. */
  function NewStdoutAppender(level: Level := UNKNOWN): (a: Appender)
    ensures a.level == level && !a.hasFormatter && a.kind.Stdout?
  {
    Appender(level, false, Stdout)
  }

  /** `FileLogAppender(filename, level = LogLevel::UNKNOWN)`: no day has
      been recorded yet, so the last-open time is 0. */
  function NewFileAppender(filename: string, level: Level := UNKNOWN): (a: Appender)
    ensures a.level == level && !a.hasFormatter
    ensures a.kind.File? && a.kind.filename == filename && a.kind.lastTime == 0
  {
    Appender(level, false, File(filename, 0))
  }

  /** `LogAppender::setLevel`: only the threshold changes. */
  function SetAppenderLevel(a: Appender, l: Level): (r: Appender)
    ensures r.level == l
    ensures r.hasFormatter == a.hasFormatter && r.kind == a.kind
  {
    a.(level := l)
  }

  /** The default threshold of both appenders is the lowest level, so an
      appender built with defaults lets every level through. */
  lemma DefaultAppenderThresholdIsLowest(filename: string, l: Level)
    ensures NewStdoutAppender().level == UNKNOWN && NewFileAppender(filename).level == UNKNOWN
    ensures AtMost(NewStdoutAppender().level, l) && AtMost(NewFileAppender(filename).level, l)
  {
    Extremes(l);
  }

  /** `setLevel(l)` then `getLevel()` on an appender gives `l`; a second
      `setLevel` overrides the first. */
  lemma AppenderSetLevelRoundTrip(a: Appender, l: Level, m: Level)
    ensures SetAppenderLevel(a, l).level == l
    ensures SetAppenderLevel(SetAppenderLevel(a, l), m) == SetAppenderLevel(a, m)
    ensures SetAppenderLevel(a, a.level) == a
  {
  }

  /** `Logger` (mocker/log.h:139-177) restricted to its name and threshold. */
  datatype Logger = Logger(
    name: string, // getName()
    level: Level  // getLevel()
  )

  /** `Logger(name = "root")`. The header does not fix the initial
      threshold, so it is a parameter here. */
  function NewLogger(initialLevel: Level, name: string := "root"): (g: Logger)
    ensures g.name == name
    ensures g.level == initialLevel
  {
    Logger(name, initialLevel)
  }

  /** `Logger::setLevel`: only the threshold changes. */
  function SetLoggerLevel(g: Logger, l: Level): (r: Logger)
    ensures r.level == l
    ensures r.name == g.name
  {
    g.(level := l)
  }

  /** A logger built without a name is the root logger, and no change of
      threshold renames a logger. */
  lemma LoggerNameRoundTrip(initialLevel: Level, name: string, l: Level)
    ensures NewLogger(initialLevel).name == "root"
    ensures SetLoggerLevel(NewLogger(initialLevel, name), l).name == name
    ensures SetLoggerLevel(NewLogger(initialLevel, name), l).level == l
    ensures SetLoggerLevel(SetLoggerLevel(NewLogger(initialLevel, name), l), initialLevel)
              == NewLogger(initialLevel, name)
  {
  }
}
