# nthings-cli in Dafny

nthings-cli is a small Node.js helper for building command-line tools. The
module it exports is a factory: given a tool name, it returns an object with
`init` (not part of this model), `cli` and `log`:

- `cli`: merges the caller's flags and commands into built-in defaults
  (`clear`, `debug`, `logFile`; `help`) and hands them to the flag parser and
  to its help-text builder;
- `log`: when given a log path, replaces `console.log` with a writer that
  sends each line both to the terminal and to a file named
  `<path>_<timestamp>.log`, stripping ANSI colour sequences from the file copy
  with one regular expression. `log` returns the alert builders `debug`,
  `info`, `error` and `success`, which build the `{type, name, msg}` records
  that the alert renderer draws.

This project models these operations and proves what they promise.

- JavaScript strings are sequences of UTF-16 code units (`JsText.Text`).
- The colour-stripping regular expression is modelled exactly as a
  backtracking engine runs it (`AnsiStrip`). Global replacement is `Strip`.
  - `PatternWords` reads the pattern declaratively, as the set of words it
    denotes, and proves the matcher sound and complete for it.
  - `MatchFacts` proves the matcher facts the properties need: locality, and
    that an SGR sequence is matched whole.
  - `StripProperties` states what the replacement guarantees, and two things
    it does not.
- The replaced `console.log` is a class (`ConsoleLog.DualSinkWriter`). Its
  two sinks are sequences of the chunks written to them. Its invariant says
  that the log file is always the terminal output with the colours stripped.
- The alert builders are functions that return the record handed to the
  renderer (`Alerts`).
- The argument objects of `cli` are maps, merged by right-biased union as
  object spread does (`CliArgs`).

Two facts about `index.js` worth knowing:

- The file copy can still hold ESC: the pattern removes only what it
  matches (`StripProperties.IntroSurvives`, `StripProperties.EscapeCanSurvive`).
- No alert announces the log file (index.js:94-107), so `Log` emits none.

## Model

| member | source | states |
|---|---|---|
| AnsiStrip.MatchAt | index.js:102 | a match starts only at an ESC (0x1B) or CSI (0x9B) unit and spans at least two units within the text (what it spells: `PatternWords.MatchAtSound`) |
| AnsiStrip.MatchParams | index.js:102 | the optional parameter group plus final unit, when it matches, ends strictly after its start and within the text (what it spells: `PatternWords.ParamsSound`) |
| PatternWords.MatchAtSound | index.js:102 | every match reported at `i` spells a word of the pattern: introducer, `[[()#;?]*`, optionally `[0-9]{1,4}(;[0-9]{0,4})*`, then one final unit |
| PatternWords.MatchAtComplete | index.js:102 | wherever a word of the pattern starts, a match is reported there |
| PatternWords.ParamsSound | index.js:102 | a match of the parameter part spells the optional digit group followed by one final unit |
| PatternWords.ParamsComplete | index.js:102 | wherever the parameter part of a word starts, the parameter matcher succeeds |
| AnsiStrip.Strip | index.js:102 | the global replacement never lengthens the text |
| MatchFacts.TryPrefixGreedy | index.js:102 | backtracking into `[[()#;?]*` never finds a match the greedy run does not |
| MatchFacts.MatchAtCut | index.js:102 | a match never reads past a unit that no part of the pattern accepts, such as a line feed or another introducer |
| MatchFacts.SgrMatchesWhole | index.js:102 | an SGR sequence `ESC [ p0;p1;...m` (1 to 4 digits first, then 0 to 4 per later parameter) is one match, covering the whole sequence |
| MatchFacts.ParamTailMatchesWhole | index.js:102 | the greedy `(;[0-9]{0,4})*` followed by the final unit consumes every later parameter and the `m` |
| StripProperties.StripWithoutIntro | index.js:102 | text with no ESC or CSI unit is left unchanged |
| StripProperties.StripIsSubsequence | index.js:102 | the output is a subsequence of the input: units are only removed, never changed or reordered |
| StripProperties.StripConcat | index.js:102 | the text before a barrier unit and the text from it are stripped independently |
| StripProperties.StripLine | index.js:102-103 | stripping a line and then adding the newline gives the same result as stripping the line with its newline |
| StripProperties.StripRemovesSgr | index.js:102 | an SGR sequence is removed whole, and the text before it and the text after it are each stripped separately |
| StripProperties.SgrSeparatesItsSurroundings | index.js:102 | stripping around an SGR sequence differs from stripping its surroundings joined: `ESC`, `ESC [ 0 m`, `m` leaves `ESC m`, which on its own strips to nothing |
| StripProperties.StripRemovesSgrFromPlainText | index.js:102 | plain text around an SGR sequence is kept exactly |
| StripProperties.IntroSurvives | index.js:102 | an ESC or CSI where no match starts is kept, and the text before and after it is stripped on its own |
| StripProperties.EscapeCanSurvive | index.js:102 | the witness `ESC X` comes out of stripping unchanged |
| StripProperties.StripNotIdempotent | index.js:102 | one pass of the replacement can leave a new match behind (`ESC ESC [ m m` becomes `ESC m`) |
| JsText.NumberText | index.js:97-98 | the template conversion of the timestamp is a minus sign exactly for negative numbers, followed by the decimal digits of the magnitude without leading zero, whose value is the magnitude |
| JsText.DigitsRoundTrip | index.js:98 | reading back the decimal digits of `n` gives `n` |
| JsText.NumberTextInjective | index.js:98 | different timestamps are rendered differently |
| ConsoleLog.LogFileName | index.js:98 | the file name is the path, `_`, the timestamp and `.log`, and no underscore follows the path |
| ConsoleLog.LogFileNameInjective | index.js:97-98 | two different (path, timestamp) pairs never name the same log file |
| ConsoleLog.StripAfterLine | index.js:102-104 | once a line ends with a newline, what follows it is stripped independently of it |
| ConsoleLog.StrippedTranscript | index.js:100-106 | when every write is a line, the whole file is the whole terminal output stripped |
| ConsoleLog.DualSinkWriter.constructor | index.js:98 | the file stream opens empty (flag `w`) under the given name |
| ConsoleLog.DualSinkWriter.Write | index.js:100-106 | an empty string writes nothing; otherwise the file gets the stripped line plus `\n` and the terminal gets the line plus `\n`; the file stays the stripped terminal output |
| ConsoleLog.Log | index.js:91-99 | a writer is installed iff the path is truthy, and it is fresh, empty and named `path_now.log` |
| Alerts.DebugName | index.js:114 | the name is `DEBUG LOG`, followed by ` - ` and the title exactly when the title is not empty |
| Alerts.DebugNameRoundTrip | index.js:114 | the title can be recovered from the name |
| Alerts.Debug | index.js:110-118 | no alert unless debug is on; otherwise a warning with the debug name and the serialised message |
| Alerts.LeveledAlerts | index.js:119-139 | info, error and success pass the message through with types info/error/success; info and success are named `🤖:` and error is named `🤖 OH NO!:` |
| Alerts.AlertsIdentifyTheirCall | index.js:109-139 | no two operations produce the same record, and each fixed-level operation is injective in its message; this follows from the record shape and is not a promise of the module |
| CliArgs.Spread | index.js:67 | object spread: the keys of both; a key of the later object wins wholesale |
| CliArgs.DefaultFlags | index.js:49-66 | the built-in flags are exactly `clear`, `debug` and `logFile` |
| CliArgs.DefaultCommands | index.js:71-73 | the built-in commands are exactly `help` |
| CliArgs.FlagsBuilt | index.js:48-68 | the three default flags are always present; a flag the caller gives replaces the default wholesale; the other defaults stay |
| CliArgs.CommandsBuilt | index.js:70-75 | `help` is always present; caller commands win; without one, `help` is the default |
| CliArgs.HelpArgs | index.js:78-82 | the help builder gets exactly the name, the built flags and the built commands |
| CliArgs.ParserOptions | index.js:83-87 | the parser gets every caller option, except that `flags` and `input` are the built flags and the input |
| CliArgs.Cli | index.js:34-88 | the help builder gets exactly the name, the built flags and the built commands; the parser gets every caller option, with `flags` being the same built flags the help text sees and `input` the input |
| CliArgs.CliDefaults | index.js:35-42 | with an empty argument object `{}`, the help builder and the parser get the default flags, the help builder gets the `help` command, and the parser gets an empty input and the default options |

## Left out

- `module.init` (index.js:9-32) only calls two external packages (the welcome banner and the unhandled-rejection handler). It is not part of this model.
- The flag parser and the help-text builder are external libraries. The model stops at the arguments handed to them; the help text and the parsed result are not modelled.
- The alert renderer is external. The records handed to it are the results; how they are drawn is not modelled.
- File and terminal I/O: streams are sequences of written chunks. Stream errors, buffering and the relative order of the two writes are not represented.
- The clock reading `new Date().getTime()` is the parameter `now` of `ConsoleLog.Log`. Timestamps large enough for exponent notation are not modelled (`NumberText` always writes plain digits).
- `JSON.stringify` is the function parameter `stringify` of `Alerts.Debug`. Its output, including `undefined` for values it cannot serialise, is not interpreted.
- `util.format` with a single string argument returns the string unchanged, and is modelled as that identity.
- `ConsoleLog.DualSinkWriter.Write`: only string arguments are modelled. For a truthy non-string, the source calls `replace`, which throws; extra arguments are ignored by the source and absent here.
- `ConsoleLog.Log`: a path is `Option<Text>`, with None for `null`/`undefined`. Truthy non-string paths (numbers, objects) are not modelled.
- `Alerts.Debug`: the title is a string and `debug` a boolean. The loose `!=` against `''` and truthiness of other types are not modelled.
- `CliArgs`: objects are maps, so property order (which affects the order of the help text) is not kept. Keys and values are Dafny strings, not code units. Calling `cli` with no argument object throws in the source; that case is absent here.
- The log file itself contains whatever the pattern leaves. The model does not claim that it contains no escape characters, nor that stripping twice equals stripping once; both are refuted by `StripProperties.EscapeCanSurvive` and `StripProperties.StripNotIdempotent`.
