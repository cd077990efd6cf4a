# Logger bootstrap and gRPC listener configuration, modelled in Dafny

This project models the core of a small Go service toolkit: a wrapper
around the zap structured logger and the configuration of a gRPC TCP
listener. It covers

- the closed `LoggerEnvironment` enumeration (Development=1, Production=2,
  DevelopmentJson=3, a Go `int64`) and the zap level (`zapcore.Level`, an
  `int8` whose named values are Debug=-1 … Fatal=5), their string
  conversions and validators;
- `LoggerConfig`, read from the process environment (`ZAP_ENVIRONMENT`,
  `ZAP_LEVEL`), validated by `checkEmptyFields`, and turned by `GetLogger`
  into one of three logger profiles (console text, JSON, or zap's example
  logger with a warning);
- the package `init()`, which fills in "development" and "debug" for unset
  variables before building the process logger;
- `Field`, `NewField`, `NewErrorField` and the zap field lists built by
  `getZapFields` and `getZapFieldsWithCtx` (the latter appends a
  `"traceID"` field);
- stack-trace rendering: `NewStackFrame` over an abstract symbol resolver,
  `buildStacktraceLogString`, and the 99-slot buffer trimmed by two in
  `LogStacktrace`;
- `GrpcConfig`, `NewStandardGrpcConfig` over the environment (`GRPC_HOST`,
  `GRPC_PORT`, `CONTEXT_TIMEOUT`, `MAX_GRPC_RECEIVE`, `MAX_GRPC_SEND`),
  its `checkEmptyFields`, and the validation gate of `NewGrpcListener`.

A Go `error` is modelled as `Option<string>` (None is nil) and an error
aggregated with `multierr.AppendInto` as the sequence of its messages
(empty means nil); `MultiErr.Combine` is that aggregation. The process
environment is a `map<string, string>`: a variable is set when it is a key.
`strconv.Atoi` and the `%d` / `%2d` verbs of `fmt` are modelled in module
`Decimal`; the model proves that `Atoi` reads back what `%d` prints for every
64-bit value.

Files: `multierr.dfy` (module `MultiErr`), `env.dfy` (`ProcessEnv`, the environment map), `decimal.dfy` (`Decimal`),
`init.dfy` (`LoggerInit`), `startup.dfy` (`LoggerStartup`, the `init()`
function of `src/logger/init.go`, kept apart from `LoggerInit` because it
uses `GetLogger`), `zap.dfy` (`LoggerZap`), `logger.dfy` (`LoggerFields`),
`stacktrace.dfy` (`LoggerStacktrace`), `listener.dfy` (`GrpcListener`).

Behaviour of the code worth knowing, which the model reproduces:

- In `NewStandardGrpcConfig` a numeric field gets its default (30000 ms,
  1 GiB, 1 GiB) when its variable is **unset**, and stays 0 when the variable
  is **set**, because the value is never read. Consequently a configuration
  read from the environment passes `checkEmptyFields` exactly when none of
  the three numeric variables is set, and `MaxSendSize` takes the receive
  default (same value).
- A `ZAP_ENVIRONMENT` of "production" is valid but reaches the `default`
  branch of `GetLogger`: it gets the example logger and the warning
  "app environment not set, set default", not a configured profile.
- Apart from the host's presence, only the port is checked by
  `NewStandardGrpcConfig` (presence and `strconv.Atoi`); the three numeric
  variables never produce errors there.

## Model

| member | source | states |
|---|---|---|
| `MultiErr.Combine` | src/logger/zap.go:43-54 | the aggregate of a chain of `AppendInto` calls never has more entries than errors appended |
| `MultiErr.CombineEmptyIff` | src/logger/zap.go:43-54 | the aggregate is nil exactly when every appended error is nil |
| `MultiErr.CombineConcat` | src/server/grpc/listener/listener.go:112-129 | appending batches of errors aggregates batch by batch, in order |
| `MultiErr.CombineAllSome` | src/logger/zap.go:43-54 | when every appended error is non-nil, each appears once, in order |
| `Decimal.NatToDecimal` | src/logger/stacktrace.go:47 | `%d` of a natural number is a non-empty string of digits |
| `Decimal.IntToDecimal` | src/logger/stacktrace.go:47 | `%d` of an integer is '-' followed by the shortest decimal form of the magnitude for negative values, and that form alone otherwise |
| `Decimal.MinusOnePrints` | src/logger/stacktrace.go:24-30 | the sentinel line number -1 prints as "-1" |
| `Decimal.PadLeft` | src/logger/stacktrace.go:47 | `%2d` pads with spaces on the left to width 2 and never truncates |
| `Decimal.NatToDecimalValue` | src/logger/stacktrace.go:47 | the digits printed for n denote n |
| `Decimal.NatToDecimalWidth` | src/logger/stacktrace.go:47 | every index below 100 is printed by `%2d` in exactly two characters |
| `Decimal.Atoi` | src/server/grpc/listener/listener.go:50 | `strconv.Atoi` succeeds iff the text is an optional sign and one or more digits whose value fits in 64 bits; it never accepts "", "+" or "-"; the failure message names the text and the reason |
| `Decimal.AtoiInvertsIntToDecimal` | src/server/grpc/listener/listener.go:50 | `Atoi` reads back the `%d` text of every 64-bit integer |
| `Decimal.AtoiRejectsNonNumbers` | src/server/grpc/listener/listener.go:50 | "", "abc", "-" and "12a" are rejected |
| `LoggerInit.EnvironmentString` | src/logger/init.go:53-64 | `String` is "unknown" exactly for values other than 1, 2, 3 |
| `LoggerInit.CheckOnDefine` | src/logger/init.go:67-82 | nil iff the value is 1, 2 or 3; otherwise exactly when `String` is "unknown", and then the error lists the three names |
| `LoggerInit.CheckZapLevel` | src/logger/init.go:85-115 | nil iff the level is one of the seven named levels, i.e. in -1..5; otherwise the error lists the seven names |
| `LoggerInit.ToLoggerEnvironment` | src/logger/init.go:118-129 | total; every result passes `CheckOnDefine`; every string other than "production" and "development-json" gives Development |
| `LoggerInit.ToLoggerLevel` | src/logger/init.go:132-145 | total; every result passes `CheckZapLevel` and lies in Debug..Error; every string other than "info", "warn", "error" gives Debug |
| `LoggerInit.EnvironmentRoundTrip` | src/logger/init.go:53-64 | `ToLoggerEnvironment(e.String()) == e` for the three named environments |
| `LoggerInit.EnvironmentStringRecognised` | src/logger/init.go:118-129 | a string survives string→environment→string iff it is one of the three spellings |
| `LoggerInit.LevelRoundTrip` | src/logger/init.go:132-145 | a level survives level→string→level iff it is Debug, Info, Warn or Error |
| `LoggerInit.EscalationLevelsNotSpelled` | src/logger/init.go:142-143 | "dpanic", "panic" and "fatal" map to Debug |
| `LoggerZap.NewLoggerConfig` | src/logger/zap.go:19-40 | fails iff a variable is unset, with one "X is not defined" entry per unset variable, the environment's first; otherwise the config is the two converted values, and it passes `checkEmptyFields` |
| `LoggerZap.CheckEmptyFields` | src/logger/zap.go:43-55 | the result is the aggregate of `CheckOnDefine` then `CheckZapLevel` |
| `LoggerZap.ConfigErrorsEmptyIff` | src/logger/zap.go:43-55 | the check is nil iff both validators pass |
| `LoggerZap.ConfigErrorsBothFail` | src/logger/zap.go:43-55 | when both fail, the aggregate has both messages, environment first |
| `LoggerZap.DevelopmentSettings` | src/logger/zap.go:68-94 | the `zap.Config` of a configured branch: the config's level, the branch's encoding, development mode, caller annotation on, stack traces off, output to stdout and internal errors to stderr (the literal at zap.go:102-128 differs only in the encoding) |
| `LoggerZap.ProfileFor` | src/logger/zap.go:66-138 | Development gets "console", DevelopmentJson gets "json", every other value the example logger; both configured profiles use the config's level, development mode, the caller enabled and stacktraces disabled |
| `LoggerZap.GetLogger` | src/logger/zap.go:58-144 | an invalid config yields exactly the check's error and no logger; a valid one fails only when the zap builder fails for a configured profile; the example profile carries the warning and the configured ones none |
| `LoggerZap.ProductionGetsExampleLogger` | src/logger/zap.go:135-137 | a valid production config gets the example logger with the warning |
| `LoggerZap.InvalidConfigGetsNoLogger` | src/logger/zap.go:59-62 | an undefined environment or level gives an error and no logger, whatever the builder |
| `LoggerStartup.LookupOr` | src/logger/init.go:22-31 | a set variable is used unchanged, an unset one gets the default |
| `LoggerStartup.Init` | src/logger/init.go:20-42 | start-up is fatal exactly when the defaulted config selects a configured profile and the zap builder fails; otherwise the logger has the profile of the defaulted config |
| `LoggerStartup.InitConfig` | src/logger/init.go:33-38 | the config `init()` passes to `GetLogger` always holds a valid environment and a level between Debug and Error |
| `LoggerStartup.InitConfigDefaults` | src/logger/init.go:22-37 | unset variables become Development and Debug; set ones are converted by `ToLoggerEnvironment` / `ToLoggerLevel` |
| `LoggerStartup.InitConfigPassesCheck` | src/logger/init.go:33-38 | whatever the environment holds, the start-up config passes `checkEmptyFields` |
| `LoggerStartup.InitEmptyEnvironment` | src/logger/init.go:20-42 | with nothing set, start-up logs as console text at debug level |
| `LoggerFields.NewField` | src/logger/logger.go:75-80 | key and value are stored unchanged |
| `LoggerFields.NewErrorField` | src/logger/logger.go:83-88 | the key is "error" and the value is the error |
| `LoggerFields.GetZapFields` | src/logger/logger.go:98-105 | same length as the input, entry i is `zap.Any(fields[i].Key, fields[i].Value)`; empty for an empty list |
| `LoggerFields.GetZapFieldsWithCtx` | src/logger/logger.go:91-95 | the fields of `getZapFields` followed by one ("traceID", id) string field, length \|fields\|+1, with no deduplication |
| `LoggerFields.NewLogger` | src/logger/logger.go:19-26 | an error iff `GetLogger` errs, with the same error; otherwise wraps the same logger |
| `LoggerStacktrace.NewStackFrame` | src/logger/stacktrace.go:21-38 | an unresolved PC gives name "", file "unknown", line -1; a resolved one keeps the resolver's name, file and line |
| `LoggerStacktrace.BuildStacktraceLogString` | src/logger/stacktrace.go:41-56 | the text is the header followed by the frame lines joined by newlines |
| `LoggerStacktrace.BuiltIsJoin` | src/logger/stacktrace.go:45-53 | after i lines the builder holds the header, the first i lines joined, and one newline |
| `LoggerStacktrace.BuiltThenLast` | src/logger/stacktrace.go:48-50 | breaking after the last line leaves no trailing newline: the builder holds exactly header + join |
| `LoggerStacktrace.JoinLinesEndsWithLast` | src/logger/stacktrace.go:45-53 | the joined lines end with the last line |
| `LoggerStacktrace.JoinLinesCons` | src/logger/stacktrace.go:45-53 | lines appear in order: the first line, then a newline and the rest |
| `LoggerStacktrace.LogStacktrace` | src/logger/stacktrace.go:59-66 | renders the first n-2 of the n ≤ 99 program counters the runtime wrote into the buffer, and panics (None) exactly when n < 2 |
| `LoggerStacktrace.EmptyStackRendersHeader` | src/logger/stacktrace.go:43-55 | an empty stack renders exactly "Stack trace:\n" |
| `LoggerStacktrace.RenderStartsWithHeader` | src/logger/stacktrace.go:43 | the text starts with "Stack trace:\n" |
| `LoggerStacktrace.FrameLine` | src/logger/stacktrace.go:47 | for an index below 100, line i is the index right-aligned in two columns (a space then the digit, or the tens then the units digit), then ": ", the function name, " at ", the file, ":" and the `%d` text of the line number |
| `LoggerStacktrace.FrameLineEndsWithDigit` | src/logger/stacktrace.go:47 | a frame line ends with a digit of its line number |
| `LoggerStacktrace.RenderEndsWithLastFrame` | src/logger/stacktrace.go:45-53 | a non-empty stack's text ends with the last frame's line and not with a newline |
| `LoggerStacktrace.RenderedIndicesFitWidth` | src/logger/stacktrace.go:12 | at most 97 frames are rendered and every index takes exactly two characters |
| `GrpcListener.NewStandardGrpcConfig` | src/server/grpc/listener/listener.go:37-84 | an unset host fails alone; otherwise success iff the port is set and parses, with a single port error otherwise; host and port are the raw strings; each numeric field is its default when unset and 0 when set; the result passes the check iff none of the numeric variables is set |
| `GrpcListener.ParsedPortIsNotEmpty` | src/server/grpc/listener/listener.go:46-51 | a port that parses is never empty |
| `GrpcListener.CheckEmptyFields` | src/server/grpc/listener/listener.go:112-129 | the result is the aggregate of the port, timeout, maxReceiveSize, maxSendSize checks |
| `GrpcListener.GrpcConfigErrorsSteps` | src/server/grpc/listener/listener.go:112-129 | the entries come in the order port, timeout, maxReceiveSize, maxSendSize, each present only when its field is zero |
| `GrpcListener.GrpcConfigErrorsEmptyIff` | src/server/grpc/listener/listener.go:112-129 | the check is nil iff the port is non-empty and the three numbers are non-zero |
| `GrpcListener.GrpcConfigErrorsCount` | src/server/grpc/listener/listener.go:112-129 | one entry per failing check |
| `GrpcListener.HostNotChecked` | src/server/grpc/listener/listener.go:112-129 | the host does not affect the check |
| `GrpcListener.NewGrpcListener` | src/server/grpc/listener/listener.go:87-109 | a config that fails the check is returned with exactly that error and no bind is attempted; otherwise the bind is attempted at host:port and its failure is wrapped as "failed to strat listener: …" |
| `GrpcListener.DefaultsPassCheck` | src/server/grpc/listener/listener.go:21-24 | the default values pass the check; a zero timeout alone gives a single entry |
| `GrpcListener.NonNumericPortsRejected` | src/server/grpc/listener/listener.go:46-51 | "" and "abc" are rejected as ports |

## Left out

- zap internals: `zap.Config.Build` (its failure is a parameter), `zap.NewExample`, the encoder configurations (keys, colour, time layout), `zap.ReplaceGlobals` and the "logger instance created" record: foreign library calls and global state.
- The leveled methods `Info`, `InfoCtx`, `Warn`, `Error`, `Debug` and their `Ctx` variants and `AddCallerSkip`: thin wrappers whose only logic, the field list, is modelled.
- `getTracingIDs` (OpenTelemetry): the trace id is a string parameter.
- `runtime.Callers`, `runtime.FuncForPC` and `FileLine`: the captured PCs are a parameter and symbol lookup is an abstract resolver; the `l.Error` emission of the rendered text is I/O.
- `net.Listen`, the returned close function and the `sl.Infof` / `sl.Error` logging in the listener: socket I/O and logging.
- `log.Printf`, `log.Println`, `log.Fatal` diagnostics: I/O; the fatal path of `init()` is an `Err` result.
- The exact text of aggregated multierr errors (joined with "; "): the aggregate is the list of messages.
- Decimal.Atoi: does not model `strconv.Quote` escaping of the text inside the error message, nor that Go reports "value out of range" for an over-long digit run followed by a non-digit.
- `NewField` / `getZapFields` with a nil `*Field` (a Go panic): fields are values here.
- src/middleware/log/log.go: it only forwards to `ctxzap` with a fixed field list.
- Concurrency of emission, which belongs to the zap sink.
