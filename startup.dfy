/** The package `init()` of the logger: read the two variables, falling back
    to "development" and "debug", and build the process logger, terminating
    the process when that fails. */
module LoggerStartup {
  import opened MultiErr
  import opened LoggerInit
  import opened LoggerZap
  import opened ProcessEnv

  /** `os.LookupEnv(name)` with the default used when it is unset. */
  function LookupOr(env: Env, name: string, default: string): (v: string)
    ensures name in env ==> v == env[name]
    ensures name !in env ==> v == default
  {
    if name in env then env[name] else default
  }

  /** The configuration `init()` passes to `GetLogger`. */
  function InitConfig(env: Env): (c: LoggerConfig)
    ensures CheckOnDefine(c.Environment) == None && CheckZapLevel(c.Level) == None
    ensures DebugLevel <= c.Level <= ErrorLevel
  {
    LoggerConfig(
      ToLoggerEnvironment(LookupOr(env, EnvLoggerEnvironment, DefLoggerEnvironment)),
      ToLoggerLevel(LookupOr(env, EnvLoggerLevel, DefLoggerLevel)))
  }

  /** `init()`: an Err result is the `log.Fatal` path. */
  function Init(env: Env, buildError: Option<string>): (r: Result<ZapLogger>)
    ensures r.Err? <==> ProfileFor(InitConfig(env)).Configured? && buildError.Some?
    ensures r.Err? ==> r.errors == [buildError.value]
    ensures r.Ok? ==> r.value.profile == ProfileFor(InitConfig(env))
  {
    InitConfigPassesCheck(env);
    GetLogger(InitConfig(env), buildError)
  }

  /** Unset variables become Development and Debug; set ones are converted
      unchanged. */
  lemma InitConfigDefaults(env: Env)
    ensures EnvLoggerEnvironment !in env ==> InitConfig(env).Environment == Development
    ensures EnvLoggerLevel !in env ==> InitConfig(env).Level == DebugLevel
    ensures EnvLoggerEnvironment in env ==>
              InitConfig(env).Environment == ToLoggerEnvironment(env[EnvLoggerEnvironment])
    ensures EnvLoggerLevel in env ==> InitConfig(env).Level == ToLoggerLevel(env[EnvLoggerLevel])
  {
  }

  /** Whatever the environment holds, the configuration `init()` builds is
      never rejected by `checkEmptyFields`. */
  lemma InitConfigPassesCheck(env: Env)
    ensures ConfigErrors(InitConfig(env)) == []
  {
    ConfigErrorsEmptyIff(InitConfig(env));
  }

  /** With nothing set, start-up logs to the console at debug level. */
  lemma InitEmptyEnvironment(buildError: Option<string>)
    requires buildError.None?
    ensures Init(map[], buildError).Ok?
    ensures Init(map[], buildError).value.profile
            == Configured(DevelopmentSettings(DebugLevel, "console"))
  {
  }
}
