/**
 * What one call of a wrapped logging method does, as a value: the record it
 * appends to the file and the string it forwards to the original method,
 * each present only when its threshold lets it through; and what a run of
 * calls leaves in the file and on the console.
 */
module Routing {
  import opened Wrappers
  import opened Levels
  import opened Options

  /** The record written to the file for one call, before the separator. */
  function FileLine(prefix: Prefix, methodName: string, message: string): (line: string)
    ensures prefix.NoPrefix? ==> line == ConsoleLine(methodName, message)
    ensures !prefix.Formatter? ==> |line| >= |message| && line[|line| - |message|..] == message
  {
    match prefix
    case Literal(text) => text + message
    case Formatter(format) => format(methodName, message)
    case NoPrefix => methodName + ": " + message
  }

  /** The string handed to the original method: fixed, whatever the prefix. */
  function ConsoleLine(methodName: string, message: string): (line: string)
    ensures |line| == |methodName| + 2 + |message|
    ensures line[..|methodName|] == methodName && line[|methodName|..|methodName| + 2] == ": "
    ensures line[|methodName| + 2..] == message
  {
    methodName + ": " + message
  }

  /** The two effects of one call; `None` is an effect that does not happen. */
  datatype Effect = Effect(record: Option<string>, forwarded: Option<string>)

  /** One call of the wrapped method `methodName` with `message`, under `cfg`. */
  function Route(cfg: Config, methodName: string, message: string): (e: Effect)
    ensures LevelOf(methodName).None? ==> e == Effect(None, None)
    ensures e.forwarded.Some? ==> e.forwarded.value == ConsoleLine(methodName, message)
  {
    var msgLevel := LevelOf(methodName);
    Effect(
      if AtLeast(msgLevel, cfg.level) then Some(FileLine(cfg.prefix, methodName, message) + cfg.separator) else None,
      if AtLeast(msgLevel, cfg.consoleLevel) then Some(ConsoleLine(methodName, message)) else None)
  }

  /** A call appends to the file exactly when its severity is known and at least the file level. */
  lemma FileRouting(cfg: Config, methodName: string, message: string)
    ensures Route(cfg, methodName, message).record.Some? <==>
      ToUpper(methodName) in LevelTable && LevelTable[ToUpper(methodName)] >= cfg.level
    ensures Route(cfg, methodName, message).record.Some? ==>
      Route(cfg, methodName, message).record.value == FileLine(cfg.prefix, methodName, message) + cfg.separator
  {
  }

  /** A call is forwarded exactly when its severity is known and at least the console level. */
  lemma ConsoleRouting(cfg: Config, methodName: string, message: string)
    ensures Route(cfg, methodName, message).forwarded.Some? <==>
      ToUpper(methodName) in LevelTable && LevelTable[ToUpper(methodName)] >= cfg.consoleLevel
    ensures Route(cfg, methodName, message).forwarded.Some? ==>
      Route(cfg, methodName, message).forwarded.value == methodName + ": " + message
  {
  }

  /**
   * The two routes are independent: the file route does not depend on the
   * console level, and the console route depends neither on the file level
   * nor on the prefix nor on the separator.
   */
  lemma RoutesIndependent(cfg: Config, methodName: string, message: string,
                          prefix: Prefix, consoleLevel: int, separator: string, level: int)
    ensures Route(cfg.(consoleLevel := consoleLevel), methodName, message).record
         == Route(cfg, methodName, message).record
    ensures Route(cfg.(prefix := prefix, separator := separator, level := level), methodName, message).forwarded
         == Route(cfg, methodName, message).forwarded
  {
  }

  /** A method name missing from the level table is dropped from both routes. */
  lemma UnknownMethodDropped(cfg: Config, methodName: string, message: string)
    requires ToUpper(methodName) !in LevelTable
    ensures Route(cfg, methodName, message) == Effect(None, None)
  {
  }

  /**
   * The logger's own threshold, `Math.min(level, consoleLevel)`, lets through
   * exactly the calls that at least one route acts on.
   */
  lemma ThresholdIsExact(cfg: Config, methodName: string, message: string)
    ensures AtLeast(LevelOf(methodName), Min(cfg.level, cfg.consoleLevel)) <==>
      Route(cfg, methodName, message).record.Some? || Route(cfg, methodName, message).forwarded.Some?
  {
  }

  /** With the console level at SILENT, no call of a real severity reaches the console. */
  lemma SilentConsole(cfg: Config, methodName: string, message: string)
    requires cfg.consoleLevel == SILENT
    requires ToUpper(methodName) != "SILENT"
    ensures Route(cfg, methodName, message).forwarded.None?
  {
  }

  /** The three prefix forms, on the message "boom". */
  lemma PrefixExamples()
    ensures FileLine(Literal("X: "), "error", "boom") == "X: boom"
    ensures FileLine(Formatter((m: string, msg: string) => m + "!" + msg), "error", "boom") == "error!boom"
    ensures FileLine(NoPrefix, "error", "boom") == "error: boom"
  {
  }

  /** One call of a logging method: its name and its message. */
  datatype Call = Call(methodName: string, message: string)

  /** The text of a record, or nothing when the call is not written. */
  function RecordText(e: Effect): string {
    e.record.GetOr("")
  }

  /** The file after `calls`, starting from the empty file setup leaves: one append per call, in order. */
  function FileText(cfg: Config, calls: seq<Call>): (text: string)
    ensures (forall i :: 0 <= i < |calls| ==> !AtLeast(LevelOf(calls[i].methodName), cfg.level)) ==> text == ""
  {
    if calls == [] then ""
    else
      var last := calls[|calls| - 1];
      FileText(cfg, calls[..|calls| - 1]) + RecordText(Route(cfg, last.methodName, last.message))
  }

  /** The strings forwarded to the original methods by `calls`, in order. */
  function ConsoleText(cfg: Config, calls: seq<Call>): (out: seq<string>)
    ensures |out| <= |calls|
    ensures forall i :: 0 <= i < |out| ==>
      exists j :: 0 <= j < |calls| && out[i] == ConsoleLine(calls[j].methodName, calls[j].message)
  {
    if calls == [] then []
    else
      var last := calls[|calls| - 1];
      var e := Route(cfg, last.methodName, last.message);
      ConsoleText(cfg, calls[..|calls| - 1]) + (if e.forwarded.Some? then [e.forwarded.value] else [])
  }

  /** The calls whose severity reaches the file level, in order. */
  function Qualifying(cfg: Config, calls: seq<Call>): (q: seq<Call>)
    ensures |q| <= |calls|
    ensures forall i :: 0 <= i < |q| ==> AtLeast(LevelOf(q[i].methodName), cfg.level)
    ensures forall c :: c in q <==> c in calls && AtLeast(LevelOf(c.methodName), cfg.level)
  {
    if calls == [] then []
    else if AtLeast(LevelOf(calls[0].methodName), cfg.level) then [calls[0]] + Qualifying(cfg, calls[1..])
    else Qualifying(cfg, calls[1..])
  }

  /** Each call's line followed by the separator, concatenated. */
  function Records(cfg: Config, calls: seq<Call>): string {
    if calls == [] then ""
    else FileLine(cfg.prefix, calls[0].methodName, calls[0].message) + cfg.separator + Records(cfg, calls[1..])
  }

  /** Order is kept: a call made after a run lands after the run's qualifying calls, if it qualifies. */
  lemma {:induction false} QualifyingSnoc(cfg: Config, calls: seq<Call>, c: Call)
    ensures Qualifying(cfg, calls + [c]) ==
      Qualifying(cfg, calls) + (if AtLeast(LevelOf(c.methodName), cfg.level) then [c] else [])
  {
    if calls != [] {
      assert (calls + [c])[1..] == calls[1..] + [c];
      QualifyingSnoc(cfg, calls[1..], c);
    }
  }

  lemma {:induction false} RecordsAppend(cfg: Config, a: seq<Call>, b: seq<Call>)
    ensures Records(cfg, a + b) == Records(cfg, a) + Records(cfg, b)
  {
    if a == [] {
      assert a + b == b;
    } else {
      assert (a + b)[1..] == a[1..] + b;
      RecordsAppend(cfg, a[1..], b);
    }
  }

  /**
   * The file after a run of calls is the in-order concatenation of
   * `line + separator` over the calls that reach the file level, and of
   * nothing else.
   */
  lemma {:induction false} FileTextIsQualifyingRecords(cfg: Config, calls: seq<Call>)
    ensures FileText(cfg, calls) == Records(cfg, Qualifying(cfg, calls))
  {
    if calls != [] {
      var init, last := calls[..|calls| - 1], calls[|calls| - 1];
      assert calls == init + [last];
      FileTextIsQualifyingRecords(cfg, init);
      QualifyingSnoc(cfg, init, last);
      var tail := if AtLeast(LevelOf(last.methodName), cfg.level) then [last] else [];
      RecordsAppend(cfg, Qualifying(cfg, init), tail);
      assert Records(cfg, tail) == RecordText(Route(cfg, last.methodName, last.message));
    }
  }

  /** Two qualifying calls leave each record terminated by the separator, not merely joined by it. */
  lemma TwoRecords(cfg: Config, first: Call, second: Call)
    requires AtLeast(LevelOf(first.methodName), cfg.level)
    requires AtLeast(LevelOf(second.methodName), cfg.level)
    ensures FileText(cfg, [first, second]) ==
      FileLine(cfg.prefix, first.methodName, first.message) + cfg.separator +
      FileLine(cfg.prefix, second.methodName, second.message) + cfg.separator
  {
    assert [first, second][..1] == [first];
    assert [first][..0] == [];
    assert FileText(cfg, [first]) == FileLine(cfg.prefix, first.methodName, first.message) + cfg.separator;
  }

  /** The console form of each call whose severity reaches `threshold`, in order. */
  function Forwarded(threshold: int, calls: seq<Call>): (out: seq<string>)
    ensures |out| <= |calls|
  {
    if calls == [] then []
    else if AtLeast(LevelOf(calls[0].methodName), threshold) then
      [ConsoleLine(calls[0].methodName, calls[0].message)] + Forwarded(threshold, calls[1..])
    else Forwarded(threshold, calls[1..])
  }

  /** A call made after a run adds its console form after the run's, exactly when it reaches `threshold`. */
  lemma {:induction false} ForwardedSnoc(threshold: int, calls: seq<Call>, c: Call)
    ensures Forwarded(threshold, calls + [c]) ==
      Forwarded(threshold, calls) + (if AtLeast(LevelOf(c.methodName), threshold) then [ConsoleLine(c.methodName, c.message)] else [])
  {
    if calls == [] {
      assert calls + [c] == [c];
    } else {
      assert (calls + [c])[1..] == calls[1..] + [c];
      ForwardedSnoc(threshold, calls[1..], c);
    }
  }

  /**
   * The console output of a run of calls is the console form of every call
   * that reaches the console level, in order, and nothing else.
   */
  lemma {:induction false} ConsoleTextIsForwarded(cfg: Config, calls: seq<Call>)
    ensures ConsoleText(cfg, calls) == Forwarded(cfg.consoleLevel, calls)
  {
    if calls != [] {
      var init, last := calls[..|calls| - 1], calls[|calls| - 1];
      assert calls == init + [last];
      ConsoleTextIsForwarded(cfg, init);
      ForwardedSnoc(cfg.consoleLevel, init, last);
    }
  }

  /** The console output of a run of calls never depends on the prefix. */
  lemma {:induction false} ConsoleTextIgnoresPrefix(cfg: Config, calls: seq<Call>, prefix: Prefix)
    ensures ConsoleText(cfg.(prefix := prefix), calls) == ConsoleText(cfg, calls)
  {
    if calls != [] {
      ConsoleTextIgnoresPrefix(cfg, calls[..|calls| - 1], prefix);
    }
  }

  /** With the console level at SILENT, a run of calls to loglevel's methods prints nothing. */
  lemma {:induction false} SilentConsoleRun(cfg: Config, calls: seq<Call>)
    requires cfg.consoleLevel == SILENT
    requires forall i :: 0 <= i < |calls| ==> calls[i].methodName in LoggingMethods
    ensures ConsoleText(cfg, calls) == []
  {
    if calls != [] {
      var last := calls[|calls| - 1];
      LevelOfLoggingMethod(last.methodName);
      SilentConsoleRun(cfg, calls[..|calls| - 1]);
    }
  }
}
