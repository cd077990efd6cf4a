/** The logger's two closed enumerations: the deployment environment
    (`LoggerEnvironment`, a Go int64 of which only 1, 2 and 3 are named) and
    the zap verbosity level (`zapcore.Level`, an int8 of which -1..5 are
    named), with their string conversions and validators. */
module LoggerInit {
  import opened MultiErr
  import Decimal

  newtype LoggerEnvironment = x: int | -0x8000_0000_0000_0000 <= x < 0x8000_0000_0000_0000

  const Development: LoggerEnvironment := 1
  const Production: LoggerEnvironment := 2
  const DevelopmentJson: LoggerEnvironment := 3

  /** zapcore.Level and its named values, as the zap library defines them. */
  newtype Level = x: int | -128 <= x < 128

  const DebugLevel: Level := -1
  const InfoLevel: Level := 0
  const WarnLevel: Level := 1
  const ErrorLevel: Level := 2
  const DPanicLevel: Level := 3
  const PanicLevel: Level := 4
  const FatalLevel: Level := 5
  const InvalidLevel: Level := 6

  const EnvLoggerEnvironment: string := "ZAP_ENVIRONMENT"
  const DefLoggerEnvironment: string := "development"
  const EnvLoggerLevel: string := "ZAP_LEVEL"
  const DefLoggerLevel: string := "debug"

  predicate IsNamedEnvironment(e: LoggerEnvironment) {
    e == Development || e == Production || e == DevelopmentJson
  }

  /** `LoggerEnvironment.String`. */
  function EnvironmentString(e: LoggerEnvironment): (s: string)
    ensures s == "unknown" <==> !IsNamedEnvironment(e)
  {
    if e == Development then "development"
    else if e == Production then "production"
    else if e == DevelopmentJson then "development-json"
    else "unknown"
  }

  const EnvironmentNotDefined: string :=
    "logger environment not defined, use one of predefined logger environment: "
    + EnvironmentString(Development) + ", " + EnvironmentString(Production) + ", "
    + EnvironmentString(DevelopmentJson)

  /** `LoggerEnvironment.CheckOnDefine`: nil for the three named values,
      an error listing them for every other value, the zero value included. */
  function CheckOnDefine(e: LoggerEnvironment): (err: Option<string>)
    ensures err.None? <==> 1 <= e <= 3
    ensures err.Some? <==> EnvironmentString(e) == "unknown"
    ensures err.Some? ==> err.value == EnvironmentNotDefined
  {
    if e == Development || e == Production || e == DevelopmentJson then None
    else Some(EnvironmentNotDefined)
  }

  /** `zapcore.Level.String` as the zap releases that define
      `InvalidLevel` spell it: the seven named levels, "invalid" for
      `InvalidLevel`, "Level(n)" for any other value. */
  function LevelString(l: Level): string {
    if l == DebugLevel then "debug"
    else if l == InfoLevel then "info"
    else if l == WarnLevel then "warn"
    else if l == ErrorLevel then "error"
    else if l == DPanicLevel then "dpanic"
    else if l == PanicLevel then "panic"
    else if l == FatalLevel then "fatal"
    else if l == InvalidLevel then "invalid"
    else "Level(" + Decimal.IntToDecimal(l as int) + ")"
  }

  const LevelNotDefined: string :=
    "zap level not defined, use predefined zap level:" + "\n"
    + "\t\t" + LevelString(DebugLevel) + "\n"
    + "\t\t" + LevelString(InfoLevel) + "\n"
    + "\t\t" + LevelString(WarnLevel) + "\n"
    + "\t\t" + LevelString(ErrorLevel) + "\n"
    + "\t\t" + LevelString(DPanicLevel) + "\n"
    + "\t\t" + LevelString(PanicLevel) + "\n"
    + "\t\t" + LevelString(FatalLevel) + "\n"

  /** `CheckZapLevel`: nil exactly for the seven named zap levels. */
  function CheckZapLevel(l: Level): (err: Option<string>)
    ensures err.None? <==> -1 <= l <= 5
    ensures err.Some? ==> err.value == LevelNotDefined
  {
    if l == DebugLevel || l == InfoLevel || l == WarnLevel || l == ErrorLevel
       || l == DPanicLevel || l == PanicLevel || l == FatalLevel
    then None
    else Some(LevelNotDefined)
  }

  /** `ToLoggerEnvironment`: total, unknown strings fall back to Development. */
  function ToLoggerEnvironment(arg: string): (e: LoggerEnvironment)
    ensures CheckOnDefine(e).None?
    ensures arg != "production" && arg != "development-json" ==> e == Development
  {
    match arg
    case "development" => Development
    case "production" => Production
    case "development-json" => DevelopmentJson
    case _ => Development
  }

  /** `ToLoggerLevel`: total, only the four lowest levels have a spelling
      here; every other string, "dpanic", "panic" and "fatal" included,
      falls back to Debug. */
  function ToLoggerLevel(arg: string): (l: Level)
    ensures CheckZapLevel(l).None?
    ensures DebugLevel <= l <= ErrorLevel
    ensures arg != "info" && arg != "warn" && arg != "error" ==> l == DebugLevel
  {
    match arg
    case "debug" => DebugLevel
    case "info" => InfoLevel
    case "warn" => WarnLevel
    case "error" => ErrorLevel
    case _ => DebugLevel
  }

  /** `String` is inverted by `ToLoggerEnvironment` on every named value. */
  lemma EnvironmentRoundTrip(e: LoggerEnvironment)
    requires CheckOnDefine(e).None?
    ensures ToLoggerEnvironment(EnvironmentString(e)) == e
  {
  }

  /** A string survives the trip through the enum exactly when it is one of
      the three spellings; every other string is lost to Development. */
  lemma EnvironmentStringRecognised(arg: string)
    ensures EnvironmentString(ToLoggerEnvironment(arg)) == arg
            <==> arg in {"development", "production", "development-json"}
  {
  }

  /** The level strings round-trip for Debug..Error and only for those. */
  lemma LevelRoundTrip(l: Level)
    ensures ToLoggerLevel(LevelString(l)) == l <==> DebugLevel <= l <= ErrorLevel
  {
    if l < DebugLevel || l > InvalidLevel {
      var s := LevelString(l);
      assert s[0] == 'L';
    }
  }

  /** The three escalation levels cannot be selected by name. */
  lemma EscalationLevelsNotSpelled()
    ensures ToLoggerLevel("dpanic") == DebugLevel
    ensures ToLoggerLevel("panic") == DebugLevel
    ensures ToLoggerLevel("fatal") == DebugLevel
  {
  }
}
