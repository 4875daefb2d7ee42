/** The `LogLevel` enumeration and how the standard logging library treats
    it: the numeric level the channel's threshold is set to, and the
    level-named logger method a record is emitted through. */
module Levels {
  import opened Wrappers
  import Strings

  datatype Level = Debug | Info | Warning | Error | Critical

  /** `LogLevel.value`. */
  function Value(l: Level): string {
    match l
    case Debug => "DEBUG"
    case Info => "INFO"
    case Warning => "WARNING"
    case Error => "ERROR"
    case Critical => "CRITICAL"
  }

  /** `LogLevel(s)`: lookup of a member by its value; `None` where Python
      raises `ValueError`. */
  function FromValue(s: string): (r: Option<Level>)
    ensures r.Some? ==> Value(r.value) == s
    ensures r.None? ==> forall l: Level :: Value(l) != s
  {
    if s == "DEBUG" then Some(Debug)
    else if s == "INFO" then Some(Info)
    else if s == "WARNING" then Some(Warning)
    else if s == "ERROR" then Some(Error)
    else if s == "CRITICAL" then Some(Critical)
    else None
  }

  /** Every level is recovered from its value. */
  lemma FromValueRoundTrip(l: Level)
    ensures FromValue(Value(l)) == Some(l)
  {
  }

  /** `getattr(logging, l.value)`: the standard library's numeric level. */
  function Number(l: Level): nat {
    match l
    case Debug => 10
    case Info => 20
    case Warning => 30
    case Error => 40
    case Critical => 50
  }

  /** Position in the declaration order DEBUG < INFO < WARNING < ERROR < CRITICAL. */
  function Ordinal(l: Level): nat {
    match l
    case Debug => 0
    case Info => 1
    case Warning => 2
    case Error => 3
    case Critical => 4
  }

  /** A record at `l` passes a logger whose level was set to `threshold`
      (`Logger.isEnabledFor`). */
  predicate Passes(l: Level, threshold: Level) {
    Number(l) >= Number(threshold)
  }

  /** The numeric gate is exactly the declared severity order: a record
      passes iff it is at least as severe as the threshold. */
  lemma PassesFollowsSeverityOrder(l: Level, threshold: Level)
    ensures Passes(l, threshold) <==> Ordinal(l) >= Ordinal(threshold)
    ensures Passes(l, l)
    ensures Passes(Critical, threshold)
    ensures Passes(l, Debug)
  {
  }

  /** `l.value.lower()`: the name of the logger method used to emit. */
  function MethodName(l: Level): string {
    Strings.Lower(Value(l))
  }

  /** The level at which each of `Logger.debug` ... `Logger.critical`
      emits; other attribute names are not level methods. */
  function MethodLevel(name: string): Option<Level> {
    if name == "debug" then Some(Debug)
    else if name == "info" then Some(Info)
    else if name == "warning" then Some(Warning)
    else if name == "error" then Some(Error)
    else if name == "critical" then Some(Critical)
    else None
  }

  /** The method `log` looks up by name emits at the record's own level. */
  lemma MethodNameEmitsAtLevel(l: Level)
    ensures MethodLevel(MethodName(l)) == Some(l)
  {
    match l
    case Debug => assert MethodName(l) == "debug";
    case Info => assert MethodName(l) == "info";
    case Warning => assert MethodName(l) == "warning";
    case Error => assert MethodName(l) == "error";
    case Critical => assert MethodName(l) == "critical";
  }
}
