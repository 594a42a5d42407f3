/** The console replacement `module.log` installs when it is given a log
    path (index.js:91-107): every non-empty line goes to the terminal as it
    is, and to a log file with its colour sequences stripped. The two
    output streams are modelled as the sequences of chunks written to
    them; the clock reading that names the file is a parameter. */
module ConsoleLog {
  import opened JsText
  import opened AnsiStrip
  import opened StripProperties

  const UNDERSCORE: CodeUnit := 0x5F
  /** `.log` */
  const LOG_EXTENSION: Text := [0x2E, 0x6C, 0x6F, 0x67]

  /** The file name `${path}_${now}.log` (index.js:98). Since neither the
      number nor the extension contains an underscore, the path is exactly
      what precedes the last underscore. */
  function LogFileName(path: Text, now: int): (r: Text)
    ensures |r| == |path| + 1 + |NumberText(now)| + |LOG_EXTENSION|
    ensures r[..|path|] == path && r[|path|] == UNDERSCORE
    ensures r[|path| + 1..|r| - |LOG_EXTENSION|] == NumberText(now)
    ensures r[|r| - |LOG_EXTENSION|..] == LOG_EXTENSION
    ensures forall i | |path| < i < |r| :: r[i] != UNDERSCORE
  {
    var digits := NumberText(now);
    var r := path + [UNDERSCORE] + digits + LOG_EXTENSION;
    assert forall i | |path| < i < |path| + 1 + |digits| :: r[i] == digits[i - |path| - 1];
    r
  }

  /** Different paths or different clock readings never share a log
      file. */
  lemma LogFileNameInjective(p1: Text, now1: int, p2: Text, now2: int)
    requires LogFileName(p1, now1) == LogFileName(p2, now2)
    ensures p1 == p2 && now1 == now2
  {
    var n := LogFileName(p1, now1);
    assert |p1| == |p2|;
    assert p1 == n[..|p1|] == p2;
    NumberTextInjective(now1, now2);
  }

  /** JavaScript truthiness of the `path_to_log` argument; None stands for
      `null`, the default. */
  predicate Truthy(path: Option<Text>) {
    path.Some? && path.value != []
  }

  /** Everything written to a stream, in order. */
  function Transcript(chunks: seq<Text>): Text {
    if chunks == [] then [] else chunks[0] + Transcript(chunks[1..])
  }

  /** A chunk the replacement writes: non-empty and ending in a line
      feed. */
  predicate IsLine(chunk: Text) {
    chunk != [] && chunk[|chunk| - 1] == LF
  }

  /** Stripping a line and what follows it is stripping each: the line
      feed ends any sequence the pattern could match. */
  lemma StripAfterLine(line: Text, rest: Text)
    requires IsLine(line)
    ensures Strip(line + rest) == Strip(line) + Strip(rest)
  {
    var body := line[..|line| - 1];
    var tail := [LF] + rest;
    assert line + rest == body + tail;
    StripConcat(body, tail);
    StripLeadingLine(rest);
    assert line == body + [LF];
    StripLine(body);
  }

  lemma StripLeadingLine(rest: Text)
    ensures Strip([LF] + rest) == [LF] + Strip(rest)
  {
  }

  /** When every terminal chunk is a line and every file chunk its
      stripped copy, the whole log file is the whole terminal output with
      its colour sequences stripped. */
  lemma {:induction false} StrippedTranscript(terminal: seq<Text>, file: seq<Text>)
    requires |file| == |terminal|
    requires forall i | 0 <= i < |terminal| :: IsLine(terminal[i]) && file[i] == Strip(terminal[i])
    ensures Transcript(file) == Strip(Transcript(terminal))
  {
    if terminal != [] {
      StrippedTranscript(terminal[1..], file[1..]);
      StripAfterLine(terminal[0], Transcript(terminal[1..]));
    }
  }

  /** The replaced `console.log`: a log file stream and the terminal. */
  class DualSinkWriter {
    /** The name the log file stream was opened with. */
    const fileName: Text
    /** Chunks written to the log file. */
    var fileSink: seq<Text>
    /** Chunks written to standard output. */
    var terminalSink: seq<Text>

    /** Both streams received the same number of writes, each a line, and
        the file's is the terminal's with colours stripped. */
    ghost predicate Valid()
      reads this
    {
      |fileSink| == |terminalSink|
      && forall i | 0 <= i < |terminalSink| ::
           IsLine(terminalSink[i]) && fileSink[i] == Strip(terminalSink[i])
    }

    /** Opening the file with flag `w` truncates it. */
    constructor(fileName: Text)
      ensures this.fileName == fileName
      ensures fileSink == [] && terminalSink == []
      ensures Valid()
    {
      this.fileName := fileName;
      fileSink := [];
      terminalSink := [];
    }

    /** `console.log(log)` for a string `log` (index.js:100-106). */
    method Write(log: Text)
      requires Valid()
      modifies this
      ensures Valid()
      ensures log == [] ==> fileSink == old(fileSink) && terminalSink == old(terminalSink)
      ensures log != [] ==> fileSink == old(fileSink) + [Strip(log) + [LF]]
      ensures log != [] ==> terminalSink == old(terminalSink) + [log + [LF]]
      ensures Transcript(fileSink) == Strip(Transcript(terminalSink))
    {
      if log != [] {
        var logNoColors := Strip(log);
        fileSink := fileSink + [logNoColors + [LF]];
        terminalSink := terminalSink + [log + [LF]];
        StripLine(log);
      }
      StrippedTranscript(terminalSink, fileSink);
    }
  }

  /** The console part of `module.log(path_to_log = null)`: a writer on
      `${path}_${now}.log` when the path is truthy, none otherwise. */
  method Log(pathToLog: Option<Text>, now: int) returns (writer: DualSinkWriter?)
    ensures writer != null <==> Truthy(pathToLog)
    ensures writer != null ==> fresh(writer) && writer.Valid()
    ensures writer != null ==> writer.fileName == LogFileName(pathToLog.value, now)
    ensures writer != null ==> writer.fileSink == [] && writer.terminalSink == []
  {
    if Truthy(pathToLog) {
      writer := new DualSinkWriter(LogFileName(pathToLog.value, now));
    } else {
      writer := null;
    }
  }
}
