/** The logger configuration (`LoggerConfig`), how it is read from the
    process environment, how it is validated, and which logger profile
    `GetLogger` builds from it. The zap builder itself is external: whether
    `zap.Config.Build` fails is a parameter. */
module LoggerZap {
  import opened MultiErr
  import opened LoggerInit
  import opened ProcessEnv

  datatype LoggerConfig = LoggerConfig(Environment: LoggerEnvironment, Level: Level)

  function NotDefined(name: string): string {
    name + " is not defined"
  }

  /** `NewLoggerConfig`: both variables must be set; every missing one is
      reported, the environment variable first. */
  method NewLoggerConfig(env: Env) returns (r: Result<LoggerConfig>)
    ensures r.Ok? <==> EnvLoggerEnvironment in env && EnvLoggerLevel in env
    ensures r.Ok? ==> r.value == LoggerConfig(ToLoggerEnvironment(env[EnvLoggerEnvironment]),
                                              ToLoggerLevel(env[EnvLoggerLevel]))
    ensures r.Ok? ==> ConfigErrors(r.value) == []
    ensures r.Err? ==> |r.errors| == (if EnvLoggerEnvironment in env then 0 else 1)
                                     + (if EnvLoggerLevel in env then 0 else 1)
    ensures EnvLoggerEnvironment !in env ==> r.Err? && r.errors[0] == NotDefined(EnvLoggerEnvironment)
    ensures EnvLoggerLevel !in env ==> r.Err? && r.errors[|r.errors| - 1] == NotDefined(EnvLoggerLevel)
  {
    var multiErr: seq<string> := [];

    var loggerEnvironment := "";
    if EnvLoggerEnvironment in env {
      loggerEnvironment := env[EnvLoggerEnvironment];
    } else {
      multiErr := multiErr + [NotDefined(EnvLoggerEnvironment)];
    }

    var loggerLevel := "";
    if EnvLoggerLevel in env {
      loggerLevel := env[EnvLoggerLevel];
    } else {
      multiErr := multiErr + [NotDefined(EnvLoggerLevel)];
    }

    if multiErr != [] {
      return Err(multiErr);
    }

    var c := LoggerConfig(ToLoggerEnvironment(loggerEnvironment), ToLoggerLevel(loggerLevel));
    ConfigErrorsEmptyIff(c);
    return Ok(c);
  }

  /** What `checkEmptyFields` reports: the environment's error, then the
      level's, each only when that validator fails. */
  function ConfigErrors(c: LoggerConfig): seq<string> {
    Combine([CheckOnDefine(c.Environment), CheckZapLevel(c.Level)])
  }

  /** `LoggerConfig.checkEmptyFields`. */
  method CheckEmptyFields(c: LoggerConfig) returns (multiErr: seq<string>)
    ensures multiErr == ConfigErrors(c)
  {
    multiErr := [];
    var envErr := CheckOnDefine(c.Environment);
    if envErr.Some? {
      multiErr := multiErr + [envErr.value];
    }
    var levelErr := CheckZapLevel(c.Level);
    if levelErr.Some? {
      multiErr := multiErr + [levelErr.value];
    }
    CombinePair(CheckOnDefine(c.Environment), CheckZapLevel(c.Level));
  }

  /** The check passes exactly when both validators pass. */
  lemma ConfigErrorsEmptyIff(c: LoggerConfig)
    ensures ConfigErrors(c) == [] <==> CheckOnDefine(c.Environment).None? && CheckZapLevel(c.Level).None?
  {
    var errs := [CheckOnDefine(c.Environment), CheckZapLevel(c.Level)];
    CombineEmptyIff(errs);
  }

  /** Both failures are aggregated, the environment's first. */
  lemma ConfigErrorsBothFail(c: LoggerConfig)
    requires CheckOnDefine(c.Environment).Some? && CheckZapLevel(c.Level).Some?
    ensures ConfigErrors(c) == [EnvironmentNotDefined, LevelNotDefined]
  {
    var errs := [CheckOnDefine(c.Environment), CheckZapLevel(c.Level)];
    CombineAllSome(errs);
  }

  /** The relevant part of a `zap.Config`. */
  datatype ZapSettings = ZapSettings(
    level: Level,
    development: bool,
    disableCaller: bool,
    disableStacktrace: bool,
    encoding: string,
    outputPaths: seq<string>,
    errorOutputPaths: seq<string>)

  /** A zap logger built from settings, or `zap.NewExample()`. */
  datatype Profile = Configured(settings: ZapSettings) | Example

  /** A built logger and the warnings it logged while being set up. */
  datatype ZapLogger = ZapLogger(profile: Profile, warnings: seq<string>)

  const ExampleWarning: string := "app environment not set, set default"

  /** The `zap.Config` both configured branches build: the given level and
      encoding, development mode, caller annotation on, stack traces off,
      output to stdout and internal errors to stderr. */
  function DevelopmentSettings(level: Level, encoding: string): (s: ZapSettings)
    ensures s.level == level && s.encoding == encoding
    ensures s.development && !s.disableCaller && s.disableStacktrace
    ensures s.outputPaths == ["stdout"] && s.errorOutputPaths == ["stderr"]
  {
    ZapSettings(level, true, false, true, encoding, ["stdout"], ["stderr"])
  }

  /** The `switch c.Environment` of `GetLogger`: Development logs as
      console text, DevelopmentJson as JSON, and every other value,
      Production included, gets the example logger. */
  function ProfileFor(c: LoggerConfig): (p: Profile)
    ensures p.Configured? <==> c.Environment == Development || c.Environment == DevelopmentJson
    ensures c.Environment == Development ==> p.settings.encoding == "console"
    ensures c.Environment == DevelopmentJson ==> p.settings.encoding == "json"
    ensures p.Configured? ==> p.settings.level == c.Level && p.settings.development
                              && !p.settings.disableCaller && p.settings.disableStacktrace
  {
    if c.Environment == Development then Configured(DevelopmentSettings(c.Level, "console"))
    else if c.Environment == DevelopmentJson then Configured(DevelopmentSettings(c.Level, "json"))
    else Example
  }

  /** `GetLogger`: validate, then build the profile. `buildError` is what
      `zap.Config.Build` would fail with (None when it succeeds); the
      example logger is not built that way and cannot fail. */
  function GetLogger(c: LoggerConfig, buildError: Option<string>): (r: Result<ZapLogger>)
    ensures ConfigErrors(c) != [] ==> r == Err(ConfigErrors(c))
    ensures ConfigErrors(c) == [] ==>
              (r.Err? <==> ProfileFor(c).Configured? && buildError.Some?)
    ensures r.Err? && ConfigErrors(c) == [] ==> r.errors == [buildError.value]
    ensures r.Ok? ==> r.value.profile == ProfileFor(c)
    ensures r.Ok? ==> (r.value.warnings == [ExampleWarning] <==> r.value.profile.Example?)
    ensures r.Ok? ==> (r.value.warnings == [] <==> r.value.profile.Configured?)
  {
    var errs := ConfigErrors(c);
    if errs != [] then Err(errs)
    else
      match ProfileFor(c)
      case Configured(settings) =>
        if buildError.Some? then Err([buildError.value])
        else Ok(ZapLogger(Configured(settings), []))
      case Example => Ok(ZapLogger(Example, [ExampleWarning]))
  }

  /** A production configuration is valid but falls into the default
      branch: the example logger, with the warning. */
  lemma ProductionGetsExampleLogger(level: Level, buildError: Option<string>)
    requires CheckZapLevel(level).None?
    ensures GetLogger(LoggerConfig(Production, level), buildError)
            == Ok(ZapLogger(Example, [ExampleWarning]))
  {
    ConfigErrorsEmptyIff(LoggerConfig(Production, level));
  }

  /** No logger is returned for an invalid configuration, whatever the
      builder would do. */
  lemma InvalidConfigGetsNoLogger(c: LoggerConfig, buildError: Option<string>)
    requires !IsNamedEnvironment(c.Environment) || CheckZapLevel(c.Level).Some?
    ensures GetLogger(c, buildError).Err?
    ensures GetLogger(c, buildError).errors == ConfigErrors(c)
  {
    ConfigErrorsEmptyIff(c);
  }
}
