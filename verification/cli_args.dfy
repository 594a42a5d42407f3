/** The argument objects `module.cli` builds before it calls the flag
    parser (index.js:34-88): the default flags and commands merged with the
    caller's by object spread, and the option object passed to the parser.
    Parsing and help-text generation belong to the parser library and are
    not modelled; the result is the pair of arguments it receives. */
module CliArgs {
  /** The JSON-like values that appear in these objects. */
  datatype JsValue =
    | JsBool(b: bool)
    | JsNumber(n: int)
    | JsStr(s: string)
    | JsArray(items: seq<JsValue>)
    | JsObject(props: map<string, JsValue>)

  /** A plain object: its own enumerable properties. Property names and
      string values are sequences of characters here; nothing in this part
      of the module looks at their code units. */
  type JsObj = map<string, JsValue>

  const CLEAR: string := "clear"
  const DEBUG: string := "debug"
  const LOG_FILE: string := "logFile"
  const HELP: string := "help"

  const NAME: string := "name"
  const FLAGS: string := "flags"
  const COMMANDS: string := "commands"
  const INPUT: string := "input"

  /** A flag description as the defaults write it. */
  function FlagSpec(kind: string, default: JsValue, alias: string, desc: string): JsValue {
    JsObject(map[
      "type" := JsStr(kind),
      "default" := default,
      "alias" := JsStr(alias),
      "desc" := JsStr(desc)])
  }

  /** The built-in flags (index.js:49-66). */
  function DefaultFlags(): (m: JsObj)
    ensures m.Keys == {CLEAR, DEBUG, LOG_FILE}
  {
    map[
      CLEAR := FlagSpec("boolean", JsBool(true), "c", "Clear the console"),
      DEBUG := FlagSpec("boolean", JsBool(false), "d", "Print debug info to console"),
      LOG_FILE := FlagSpec("string", JsStr(""), "l", "Path for the log file for the execution.")]
  }

  /** The built-in commands (index.js:71-73). */
  function DefaultCommands(): (m: JsObj)
    ensures m.Keys == {HELP}
  {
    map[HELP := JsObject(map["desc" := JsStr("Print help info")])]
  }

  /** The parser options used when the caller gives none (index.js:38-42). */
  function DefaultOptions(): JsObj {
    map[
      "inferType" := JsBool(true),
      "description" := JsBool(true),
      "hardRejection" := JsBool(false)]
  }

  /** `{...base, ...over}`: every property of `over`, and the properties of
      `base` that `over` does not have. A property of `over` replaces the
      one of `base` whole; nested objects are not merged. */
  function Spread(base: JsObj, over: JsObj): (r: JsObj)
    ensures r.Keys == base.Keys + over.Keys
    ensures forall k | k in over :: r[k] == over[k]
    ensures forall k | k in base && k !in over :: r[k] == base[k]
  {
    base + over
  }

  /** `flags_built` (index.js:48-68). */
  function FlagsBuilt(flags: JsObj): (r: JsObj)
    ensures CLEAR in r && DEBUG in r && LOG_FILE in r
    ensures r.Keys == flags.Keys + {CLEAR, DEBUG, LOG_FILE}
    ensures forall k | k in flags :: r[k] == flags[k]
    ensures forall k | k in DefaultFlags() && k !in flags :: r[k] == DefaultFlags()[k]
  {
    Spread(DefaultFlags(), flags)
  }

  /** `commands_built` (index.js:70-75). */
  function CommandsBuilt(commands: JsObj): (r: JsObj)
    ensures HELP in r
    ensures r.Keys == commands.Keys + {HELP}
    ensures forall k | k in commands :: r[k] == commands[k]
    ensures HELP !in commands ==> r[HELP] == DefaultCommands()[HELP]
  {
    Spread(DefaultCommands(), commands)
  }

  /** The object handed to the help-text builder (index.js:78-82). */
  function HelpArgs(name: string, flags: JsObj, commands: JsObj): (r: JsObj)
    ensures r.Keys == {NAME, FLAGS, COMMANDS}
    ensures r[NAME] == JsStr(name)
    ensures r[FLAGS] == JsObject(FlagsBuilt(flags))
    ensures r[COMMANDS] == JsObject(CommandsBuilt(commands))
  {
    KeysDistinct();
    map[NAME := JsStr(name), FLAGS := JsObject(FlagsBuilt(flags)), COMMANDS := JsObject(CommandsBuilt(commands))]
  }

  /** The options object handed to the parser (index.js:83-87): the
      caller's options, with `flags` and `input` replaced by the built flags
      and the input list. */
  function ParserOptions(options: JsObj, flags: JsObj, input: JsValue): (r: JsObj)
    ensures r.Keys == options.Keys + {FLAGS, INPUT}
    ensures r[FLAGS] == JsObject(FlagsBuilt(flags))
    ensures r[INPUT] == input
    ensures forall k | k in options && k != FLAGS && k != INPUT :: r[k] == options[k]
  {
    KeysDistinct();
    var over := map[FLAGS := JsObject(FlagsBuilt(flags)), INPUT := input];
    assert over.Keys == {FLAGS, INPUT};
    Spread(options, over)
  }

  /** The two arguments of the parser call. */
  datatype ParserCall = ParserCall(helpArgs: JsObj, options: JsObj)

  /** `module.cli({input = [], flags = {}, commands = {}, options = {...}})`
      up to the parser call (index.js:34-88). The help text and the parser
      see the same built flags. */
  function Cli(name: string, input: JsValue := JsArray([]), flags: JsObj := map[],
               commands: JsObj := map[], options: JsObj := DefaultOptions())
    : (call: ParserCall)
    ensures call.helpArgs.Keys == {NAME, FLAGS, COMMANDS}
    ensures call.helpArgs[NAME] == JsStr(name)
    ensures call.options.Keys == options.Keys + {FLAGS, INPUT}
    ensures call.options[FLAGS] == call.helpArgs[FLAGS] == JsObject(FlagsBuilt(flags))
    ensures call.helpArgs[COMMANDS] == JsObject(CommandsBuilt(commands))
    ensures call.options[INPUT] == input
    ensures forall k | k in options && k != FLAGS && k != INPUT :: call.options[k] == options[k]
  {
    ParserCall(HelpArgs(name, flags, commands), ParserOptions(options, flags, input))
  }

  lemma KeysDistinct()
    ensures NAME != FLAGS && NAME != COMMANDS && FLAGS != COMMANDS && FLAGS != INPUT
  {
  }

  /** Called with an empty argument object `{}`, the help builder and the parser
      see exactly the built-in flags, the help builder gets the `help`
      command, and the parser an empty input list and the default
      options. */
  lemma CliDefaults(name: string)
    ensures Cli(name).helpArgs[FLAGS] == JsObject(DefaultFlags())
    ensures Cli(name).helpArgs[COMMANDS] == JsObject(DefaultCommands())
    ensures Cli(name).options[INPUT] == JsArray([])
    ensures forall k | k in DefaultOptions() && k != FLAGS && k != INPUT
              :: Cli(name).options[k] == DefaultOptions()[k]
  {
    assert DefaultFlags() + map[] == DefaultFlags();
    assert DefaultCommands() + map[] == DefaultCommands();
  }
}
