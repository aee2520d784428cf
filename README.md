# loglevel file-save plugin, modelled in Dafny

The plugin is a single function that extends a `loglevel` logger so that its
log calls are written to a file as well as, or instead of, the console. Setup
reads the options with their defaults, refuses a missing logger or one without
a method factory, truncates the target file, replaces the logger's method
factory with a wrapper and sets the logger's level to the lower of the file
and console thresholds. Each call of a wrapped logging method then makes two
independent decisions: append a formatted record plus the separator to the
file when the method's severity reaches the file level, and hand
`methodName + ': ' + message` to the method it wraps when the severity reaches
the console level.

The project has five modules:

- `Wrappers` (`wrappers.dfy`): `Option` (whose `None` stands for JavaScript's
  `undefined`) and `Result`.
- `Levels` (`levels.dfy`): loglevel's severity table (TRACE 0 … ERROR 4,
  SILENT 5), the upper-casing used for the lookup, the lookup itself, `>=`
  against a possibly undefined severity, and `Math.min`.
- `Options` (`options.dfy`): the prefix variants (`NoPrefix`, `Literal`,
  `Formatter`), the options as given, the options with defaults applied, and
  `Configure`, which applies the defaults and the guard in the source's order.
- `Routing` (`routing.dfy`): one call as a value (`Route` gives the record
  appended, if any, and the string forwarded, if any), and what a run of
  calls leaves in the file (`FileText`) and on the console (`ConsoleText`).
- `FileSave` (`filesave.dfy`): the imperative part. `TextFile` is the target
  file. `Logger` is the mutable logger, with its method factory, its level and
  what its own methods printed. `Setup` is the plugin function. `Logger.Log`
  calls a logging method.

The method factory is a datatype, `Original | Wrapped(cfg, file, inner)`.
The wrapper made by setup keeps the factory that was there before. So calling
setup twice composes two wrappers, as in the source. The forwarding step of
the outer wrapper is a call of the inner one, and the inner one receives the
already formatted `methodName: message`.

In the source the severity is looked up once, when the factory builds the
method. The model looks it up on every call. The level table never changes,
so the two give the same result.

## Model

| member | source | states |
|---|---|---|
| `Levels.ToUpper` | src/index.ts:49 | upper-casing keeps the length, maps each lower-case ASCII letter to its capital, leaves every other character alone, and leaves no lower-case letter |
| `Levels.ToUpperIdempotent` | src/index.ts:49 | upper-casing an upper-cased name changes nothing |
| `Levels.LevelOf` | src/index.ts:49 | a method's severity is defined exactly when its upper-cased name is a key of the level table; it is then the table's value, between TRACE and SILENT, and equals SILENT only for names that upper-case to "SILENT" (so `silent` too) |
| `Levels.LevelOfIgnoresCase` | src/index.ts:49 | the lookup gives the same answer for a name and its upper-cased form |
| `Levels.LevelOfLowerCase` | src/index.ts:49 | a lower-case method name finds the severity stored under its capitalised form |
| `Levels.LevelOfLoggingMethod` | src/index.ts:49 | each of trace, debug, info, warn and error has a defined severity below SILENT |
| `Levels.AtLeast` | src/index.ts:53 | `msgLevel >= threshold` where the severity may be `undefined`: an undefined severity never reaches a threshold; what the `Math.min` at line 70 relies on is stated by `Levels.AtLeastMin` |
| `Levels.AtLeastMin` | src/index.ts:53-70 | a severity, defined or not, reaches `Math.min(a, b)` if and only if it reaches `a` or reaches `b` |
| `Levels.Min` | src/index.ts:70 | `Math.min` is at most both arguments and is one of them |
| `Options.Configure` | src/index.ts:33-42 | setup succeeds exactly when a logger with a method factory is given; reading a default from a missing logger fails first, with its own error; a success keeps the prefix as given |
| `Options.ConfigureDefaults` | src/index.ts:33-39 | each optional field is defaulted on its own, for any settings: a console level left out is SILENT, a separator left out is the host line ending, a file level left out is WARN, and each field given is used as given |
| `Routing.FileLine` | src/index.ts:54-61 | with no prefix the record is the console form `methodName: message`; with no function prefix the record ends with the message |
| `Routing.ConsoleLine` | src/index.ts:65 | the forwarded string is the method name, then `: `, then the message, with nothing else |
| `Routing.PrefixExamples` | src/index.ts:54-61 | a string prefix gives `prefix + message`, a function prefix gives its own result, and no prefix gives `methodName: message` |
| `Routing.Route` | src/index.ts:53-66 | one call of the wrapped method as a value: an unknown method name has no effect at all, and what is forwarded is always the console form; its two if-and-only-if gates are stated by `Routing.FileRouting` and `Routing.ConsoleRouting` |
| `Routing.FileRouting` | src/index.ts:53-62 | a call appends to the file if and only if its severity is defined and at least the file level, and then appends exactly its record followed by the separator |
| `Routing.ConsoleRouting` | src/index.ts:64-66 | a call is forwarded if and only if its severity is defined and at least the console level, and what is forwarded is `methodName: message` |
| `Routing.RoutesIndependent` | src/index.ts:53-66 | the file route does not depend on the console level; the console route does not depend on the file level, the prefix or the separator |
| `Routing.UnknownMethodDropped` | src/index.ts:49-64 | a method name missing from the level table is neither written nor forwarded |
| `Routing.ThresholdIsExact` | src/index.ts:53-70 | a severity reaches `Math.min(level, consoleLevel)` exactly when at least one of the two routes acts on the call |
| `Routing.SilentConsole` | src/index.ts:64 | with the console level at SILENT, no call of a severity other than SILENT is forwarded |
| `Routing.Qualifying` | src/index.ts:53 | a call is in the selection if and only if it is one of the calls and reaches the file level; the order is stated by `Routing.QualifyingSnoc` |
| `Routing.QualifyingSnoc` | src/index.ts:53 | a later call lands after the earlier qualifying calls when it qualifies, and is left out otherwise, so the selection keeps the calls' order |
| `Routing.FileText` | src/index.ts:44-63 | the file after setup and a run of calls, one append per call in order; a run in which no call reaches the file level leaves it empty |
| `Routing.ConsoleText` | src/index.ts:64-66 | what a run of calls forwards, one step per call in order: at most one string per call, each the console form of one of the calls; fully characterised by `Routing.ConsoleTextIsForwarded` |
| `Routing.Forwarded` | src/index.ts:64-65 | an independent definition: the console form of each call that reaches a threshold, in call order; never longer than the run |
| `Routing.ForwardedSnoc` | src/index.ts:64-65 | a later call adds its console form after the earlier ones exactly when it reaches the threshold |
| `Routing.ConsoleTextIsForwarded` | src/index.ts:64-66 | the console output of a run is the console form of every call that reaches the console level, in call order, and nothing else |
| `Routing.FileTextIsQualifyingRecords` | src/index.ts:44-62 | after setup and a run of calls, the file is the in-order concatenation of `line + separator` over the calls that reach the file level, and nothing else |
| `Routing.TwoRecords` | src/index.ts:62 | two qualifying calls leave `line1 + separator + line2 + separator` |
| `Routing.ConsoleTextIgnoresPrefix` | src/index.ts:65 | what a run of calls forwards to the console never depends on the prefix |
| `Routing.SilentConsoleRun` | src/index.ts:36-38 | with the default console level, a run of calls to loglevel's methods forwards nothing |
| `FileSave.Printed` | src/index.ts:64-66 | one call through a chain of wrappers reaches loglevel's own method at most once |
| `FileSave.Appended` | src/index.ts:52-67 | what one call through a chain of wrappers appends to a given file; nothing when no wrapper of the chain targets that file; its single-wrapper form is stated by `FileSave.SingleWrapper` |
| `FileSave.SingleWrapper` | src/index.ts:52-67 | under one wrapper, a call appends its record when the file level lets it through and prints `methodName: message` when the console level does |
| `FileSave.FileTextStep` | src/index.ts:62 | under one wrapper, each call extends the file by exactly the increment `FileText` adds for that call; by induction on the calls, a file left empty by setup then holds `FileText` of the run |
| `FileSave.ConsoleTextStep` | src/index.ts:64-66 | under one wrapper, each call extends the console by exactly the increment `ConsoleText` adds for that call; by induction on the calls, the console after setup ends with `ConsoleText` of the run |
| `FileSave.GateIsMoot` | src/index.ts:70 | a call below `Math.min(level, consoleLevel)` appends nothing and prints nothing through the outermost wrapper, whatever it wraps |
| `FileSave.SetupTwiceSameFile` | src/index.ts:46-65 | setup twice on one file is not idempotent: with no prefix, a call that passes both thresholds writes `methodName: message` and then `methodName: methodName: message`, each followed by the separator |
| `FileSave.SilentByDefault` | src/index.ts:36 | with the console level left at SILENT, no call of a loglevel method prints anything, whatever the wrapper wraps |
| `FileSave.TextFile.Append` | src/index.ts:62 | `appendFileSync` adds the text at the end of the file and changes nothing else |
| `FileSave.TextFile.Record` | src/index.ts:53-63 | the file half of a wrapped call: the file grows by exactly the call's routed record, which is nothing below the file level |
| `FileSave.Logger.Log` | src/index.ts:52-67 | a call leaves the factory and level alone, adds to the console what the factory chain prints, and appends to each target file what the chain writes to it |
| `FileSave.Logger.Invoke` | src/index.ts:48-67 | the wrapped method first does the file half, then tests the console level and calls the wrapped method with `methodName: message`; the console and every target file end up as `Printed` and `Appended` say |
| `FileSave.Setup` | src/index.ts:32-72 | on a failure, the file and the logger are untouched; on success, the same logger is returned, the file is empty, the new factory wraps the old one with the resolved options, the logger's level is `Math.min(level, consoleLevel)`, and the console is unchanged |

## Left out

- The file system: `path.resolve` and the real `writeFileSync` and `appendFileSync` calls are not modelled. The file is a `TextFile` object whose content is a string. I/O errors (a missing directory, no permission, a full disk) are left out. In the source they propagate unchanged.
- The host line ending `os.EOL` is a parameter (`eol`), not a fixed value.
- loglevel's internals are left out: how it calls `methodFactory`, how `setLevel` rebuilds the methods and checks its argument, and what its default methods print. The logger records the level given to `setLevel` and the strings its own methods receive. `Logger.Log` does not apply loglevel's gate, which turns methods below the level into no-ops. `Routing.ThresholdIsExact` shows that this gate drops exactly the calls that neither route acts on, and `FileSave.GateIsMoot` shows that a call below it has no effect through the outermost wrapper whatever that wrapper wraps. So leaving the gate out changes nothing, with any number of wrappers.
- Options.Configure: every logger object is assumed to carry loglevel's `levels` table. For an object that is not a loglevel logger and has no `levels`, reading a default at lines 36 and 38 throws a TypeError before the guard at line 40; the model gives that object the guard's error instead. Both errors abort setup before the file is touched.
- Levels.ToUpper: only ASCII letters are case-mapped. JavaScript's `toUpperCase` also maps some non-ASCII letters, for example U+0131 to `I` and U+017F to `S`, so a few non-ASCII names that find a level in JavaScript find none in the model.
- Severities, messages and prefixes are typed. Severities are integers, so there is no `NaN` or fractional level. Messages are strings, so there is no coercion of non-string arguments. A prefix is one of the three variants, so a prefix of any other type is not modelled. A function prefix is a pure total function, so a prefix that throws or has side effects is not modelled.
- A logging call takes exactly one message. In the source, the wrapped method also takes only `_message`, and any further arguments are dropped.
- The `methodLevel` and `loggerName` arguments, which the source only passes on to the original factory, are not modelled. Neither are the TypeScript casts.
- Concurrent appends to one path from several processes are not modelled; the source has no logic for them.
