/** The severity scale `LogLevel::Level` (mocker/log.h:30-44). C++ compares
    enumerators by their integer values, so the order of the scale is the
    order of `Value`. */
module LogLevel {
  import opened Wrappers

  datatype Level = UNKNOWN | DEBUG | INFO | WARN | ERROR | FATAL | REMOVED

  /** The enumerator's integer value. */
  function Value(l: Level): (n: nat)
    ensures n <= 5 || n == 100
  {
    match l
    case UNKNOWN => 0
    case DEBUG => 1
    case INFO => 2
    case WARN => 3
    case ERROR => 4
    case FATAL => 5
    case REMOVED => 100
  }

  /** `static_cast<LogLevel::Level>(n)` restricted to the declared
      enumerators: the level whose value is `n`, if there is one. */
  function FromValue(n: int): (r: Option<Level>)
    ensures r.Some? ==> Value(r.value) == n
    ensures r.None? <==> !(0 <= n <= 5 || n == 100)
  {
    if n == 0 then Some(UNKNOWN)
    else if n == 1 then Some(DEBUG)
    else if n == 2 then Some(INFO)
    else if n == 3 then Some(WARN)
    else if n == 4 then Some(ERROR)
    else if n == 5 then Some(FATAL)
    else if n == 100 then Some(REMOVED)
    else None
  }

  /** `a < b` on levels. */
  predicate Below(a: Level, b: Level) {
    Value(a) < Value(b)
  }

  /** `a <= b` on levels. */
  predicate AtMost(a: Level, b: Level) {
    Value(a) <= Value(b)
  }

  /** Each level is recovered from its value, so distinct levels have
      distinct values. */
  lemma FromValueOfValue(l: Level)
    ensures FromValue(Value(l)) == Some(l)
  {
  }

  lemma ValueInjective(a: Level, b: Level)
    ensures Value(a) == Value(b) <==> a == b
  {
    FromValueOfValue(a);
    FromValueOfValue(b);
  }

  /** The declared order of the scale. */
  lemma LevelsAscend()
    ensures Below(UNKNOWN, DEBUG) && Below(DEBUG, INFO) && Below(INFO, WARN)
    ensures Below(WARN, ERROR) && Below(ERROR, FATAL) && Below(FATAL, REMOVED)
  {
  }

  /** `Below` is a strict total order on levels. */
  lemma BelowIsStrictTotalOrder(a: Level, b: Level, c: Level)
    ensures !Below(a, a)
    ensures Below(a, b) && Below(b, c) ==> Below(a, c)
    ensures a != b ==> Below(a, b) || Below(b, a)
    ensures !(Below(a, b) && Below(b, a))
  {
    ValueInjective(a, b);
  }

  /** UNKNOWN is the least level and REMOVED the greatest. */
  lemma Extremes(l: Level)
    ensures AtMost(UNKNOWN, l)
    ensures AtMost(l, REMOVED)
    ensures l != REMOVED ==> Below(l, REMOVED)
    ensures l != UNKNOWN ==> Below(UNKNOWN, l)
  {
  }
}
