# go-simplelogger, modelled in Dafny

go-simplelogger is a package-wide logging facade over zap. It offers six levels,
a case-insensitive level parser that never fails, global configuration (level,
output paths, rebuild of the zap logger), emitters that stamp every message with
a timestamp, and `*IfError` helpers that panic or exit only for a non-nil error.
This project models that logic and proves what the package promises about it.

Modules (one per component of `simplelogger.go`):

- `Wrappers` (`wrappers.dfy`): `Option`, standing for a Go pointer or interface that may be nil.
- `Levels` (`levels.dfy`): the `Level` datatype and its zap integer codes; ASCII `ToLower`; a case-insensitive spelling predicate defined on its own.
- `Emit` (`emit.dfy`): the emitters `Debugf` … `Fatalf`, `Error`, `Panic`, `Fatal`, `TraceError` and the four `*IfError` helpers. These are functions from a timestamp, a format and args to a `Call`. A `Call` is the list of `(level, format, args)` emissions handed to the sugared zap logger, plus an `Outcome`: `Continue`, `Unwind` (a recoverable panic) or `Exit` (process exit). The inverse functions `StripFormatted` and `StripPlain` recover the caller's request from an emission.
- `ParseLevels` (`parse_level.dfy`): `ParseLevel` and its lemmas. The Errorf emission it makes for an unknown name is part of its result.
- `GlobalLogger` (`global_logger.dfy`): the class `Package`. Its fields are the package globals `cfg`, `logger`, `sugar` and `currentLevel`, plus a trace of the loggers that were synced. Its methods are `init`, `SetLevel`, `GetLevel`, `SetOutput`, `rebuildLoggerFromCfg` and `setSugar`. A counter `builds` gives each logger zap builds its own serial number, so every successful build is a new instance. `Valid()` states four things:
  - the two copies of the level agree;
  - `sugar` is the sugared view of `logger`;
  - the retired loggers were synced once each, in the order they were built;
  - the installed logger is newer than every retired one.

Inputs that the program takes from its environment are parameters here:
- the timestamp string (`time.Now().Format(...)`);
- the stack text in `TraceError` (`debug.Stack()`);
- whether zap's `Config.Build` fails, and with which error. This is a `failure` argument to each method that builds.

## Model

| member | source | states |
|---|---|---|
| Levels.Code | simplelogger.go:16-32 | each exported level has its zap code between -1 and 5; none has DPanic's code 3; Error's code is 2, and only Panic and Fatal lie above it |
| Levels.SeverityIsTotalOrder | simplelogger.go:16-32 | the order is fixed as Debug < Info < Warn < Error < Panic < Fatal; the codes are injective, and severity is a total, antisymmetric order |
| Levels.LowerChar | simplelogger.go:88 | a lower-cased character is never an ASCII capital; non-capitals are unchanged; a capital maps to its lower-case letter |
| Levels.ToLower | simplelogger.go:88-98 | lower-casing keeps the length and lower-cases each character in place |
| Levels.ToLowerIdempotent | simplelogger.go:88-98 | lower-casing twice is the same as lower-casing once |
| Levels.ToLowerKeepsLowerCase | simplelogger.go:88-98 | a string with no capitals is its own lower-case form |
| Levels.ToLowerMatchesSpelling | simplelogger.go:88-98 | for a word with no capitals, `ToLower(s) == name` holds exactly when `s` spells `name` in some mix of cases (both directions) |
| Emit.OutcomeOf | simplelogger.go:137-160 | the Panic level, and only it, unwinds; the Fatal level, and only it, exits |
| Emit.StampedfShape | simplelogger.go:117-145 | an Xf-decorated emission is exactly: format `"%s - " + format`, args `[ts] + args` (both directions), so the args grow by one and keep their order |
| Emit.StampedShape | simplelogger.go:147-160 | an unformatted decorated emission is exactly: args `[ts, " - "] + args` (both directions) |
| Emit.Debugf | simplelogger.go:117-120 | one Debug emission; the caller's format and args can be recovered from it, stamped with `ts`; continues |
| Emit.Infof | simplelogger.go:122-125 | one Info emission carrying the stamped request; continues |
| Emit.Warnf | simplelogger.go:127-130 | one Warn emission carrying the stamped request; continues |
| Emit.Errorf | simplelogger.go:132-135 | one Error emission carrying the stamped request; continues |
| Emit.Panicf | simplelogger.go:137-140 | one Panic emission carrying the stamped request; then unwinds |
| Emit.Fatalf | simplelogger.go:142-145 | one Fatal emission carrying the stamped request; then exits |
| Emit.Error | simplelogger.go:147-150 | one Error emission whose args are the timestamp, the separator, then the caller's args; continues |
| Emit.Panic | simplelogger.go:152-155 | one Panic emission with timestamp, separator and the caller's args; then unwinds |
| Emit.Fatal | simplelogger.go:157-160 | one Fatal emission with timestamp, separator and the caller's args; then exits |
| Emit.TraceError | simplelogger.go:74-78 | two Error emissions in order, the stack text and then the formatted message, each with its own timestamp; continues |
| Emit.PanicIfError | simplelogger.go:162-166 | a nil error gives no emission and no panic; a non-nil one gives Panic's single emission of the caller's args, then unwinds |
| Emit.PanicfIfError | simplelogger.go:168-172 | a nil error gives nothing; a non-nil one gives Panicf's emission of the caller's request, then unwinds |
| Emit.FatalIfError | simplelogger.go:174-178 | a nil error gives nothing; a non-nil one gives Fatal's emission of the caller's args, then exits |
| Emit.FatalfIfError | simplelogger.go:180-184 | a nil error gives nothing; a non-nil one gives Fatalf's emission of the caller's request, then exits |
| Emit.IfErrorIgnoresErrorText | simplelogger.go:162-184 | the four helpers depend on the error only through whether it is nil; its message is never added |
| ParseLevels.RecognisedIsSomeSpelling | simplelogger.go:88-99 | the recognised names are exactly the spellings of the six levels |
| ParseLevels.ParseLevel | simplelogger.go:86-103 | never fails (the outcome is always Continue); it emits nothing exactly when the lower-cased input is a known spelling |
| ParseLevels.SpellingsAreLowerCase | simplelogger.go:88-98 | every accepted spelling has no capitals and is its own lower-case form |
| ParseLevels.ParseLevelRecognises | simplelogger.go:87-100 | ParseLevel gives `lv` silently exactly when the lower-cased input is a spelling of `lv` (both directions) |
| ParseLevels.ParseLevelAnyCase | simplelogger.go:87-100 | every spelling of every level, in any mix of letter cases, parses silently to that level |
| ParseLevels.WarningIsWarn | simplelogger.go:92 | "warning" in any case parses to WarnLevel, the same result as "warn" |
| ParseLevels.ParseLevelUnknown | simplelogger.go:101-102 | an unknown name gives DebugLevel and exactly one Error-level emission of `"ParseLevel: unknown level: %s"` with the name as given; it still continues |
| ParseLevels.ParseLevelSeesOnlyLowerCase | simplelogger.go:88-102 | level, outcome and emission count depend only on the lower-cased input; the whole result is the same as for the lower-cased input exactly when the name is known or already lower-case |
| ParseLevels.TestName | simplelogger_test.go:9-26 | each name the test uses is a spelling of its level |
| ParseLevels.ParseLevelTestNames | simplelogger_test.go:9-26 | each of those names parses silently to its level |
| GlobalLogger.Package.constructor | simplelogger.go:34-39 | the globals start at Go's zero values: no logger, no sugar, InfoLevel, zero configuration; nothing built yet |
| GlobalLogger.Package.InstalledIsNotRetired | simplelogger.go:105-115 | the installed logger is never one that was synced and replaced |
| GlobalLogger.Package.Init | simplelogger.go:41-61 | sets Debug level and the default configuration with ISO8601 timestamps. A successful build installs a new logger writing to `["stderr"]`. A failed build panics and keeps the old logger |
| GlobalLogger.Package.SetLevel | simplelogger.go:63-67 | both copies of the level become `lv`; the output paths, the logger, the sugar and the sync trace are unchanged; no build |
| GlobalLogger.Package.GetLevel | simplelogger.go:69-72 | returns the current level, which equals the configuration's level |
| GlobalLogger.Package.SetOutput | simplelogger.go:80-84 | the output paths become exactly `outputs` and the level is unchanged. A successful build installs a new logger writing to `outputs`. A failed build unwinds, and the old logger stays on the old paths |
| GlobalLogger.Package.RebuildLoggerFromCfg | simplelogger.go:105-115 | a successful build syncs the previous logger, if any, and installs a new instance with its sugar; that instance differs from the old one and was never retired. A failed build changes nothing and unwinds |
| GlobalLogger.Package.SetSugar | simplelogger.go:186-188 | installs the given sugared logger and touches nothing else |
| GlobalLogger.BackendStaysInstalled | simplelogger.go:63-84 | once a logger is installed, SetLevel followed by SetOutput keeps a live, unretired one installed whatever the build does, and keeps the levels in step |
| GlobalLogger.TestLevelChanges | simplelogger_test.go:6-29 | the test's SetOutput unwinds exactly when the build fails. Otherwise the new logger writes to the test's outputs, and each later SetLevel is seen by a GetLevel read-back (the read-backs are not in the test) |

## Left out

- The zap library itself is not modelled: JSON decoding of the configuration, encoding, the level check before writing, writing to sinks, and `Sync`. A build either fails or makes a new logger, which records only its sinks. Emissions are records of what the sugared logger receives. A call to `Sync` is only recorded in the trace.
- Level gating, the rule that the backend drops calls below the configured level, belongs to zap. It is not modelled. The property "a call below the level produces no output" is therefore not stated.
- Emit: the emitters do not read the global `sugar`. The model does not capture Go crashing when an emitter runs before a logger is installed.
- Clock and stack: `time.Now().Format("2006-01-02 15:04:05.000")` and `debug.Stack()` are opaque string parameters. Nothing is stated about the timestamp layout.
- Panics and exits are the `Outcome` values `Unwind` and `Exit`. Unwinding, `recover` and process termination are not modelled, so the state after a recovered panic is whatever the method's `ensures` leaves.
- GlobalLogger.Package.Init: the `panic` on a JSON decoding error is not modelled. The decoded text is a constant and decodes to `DefaultConfig`. Go cannot recover a panic raised in a package initialiser; that is not captured either.
- GlobalLogger.ZeroConfig: before `init`, zap's level cell is unset. It is taken as `InfoLevel`, the zero value of a Go `Level`.
- Levels.ToLower: only ASCII capitals are folded. Go's `strings.ToLower` also folds non-ASCII letters, so a name such as "İnfo" may be treated differently.
- `Level` covers only the six exported constants. A caller in Go can pass any `int8` to `SetLevel`, including zap's DPanic level; the model cannot express that.
- The `Assert*` functions and the `assertLogger` adapter (simplelogger.go:190-234) call into testify, and testify is not part of this model.
- Concurrency: the package does no synchronisation of its own, and the model is sequential.
