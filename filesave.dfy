/**
 * The plugin itself: setup mutates a loglevel logger in place, truncating the
 * target file and wrapping the logger's method factory, and every call of a
 * wrapped logging method appends to the file and forwards to the method it
 * wraps as its two thresholds decide.
 */
module FileSave {
  import opened Wrappers
  import opened Levels
  import opened Options
  import opened Routing

  /** The target file; its path and the file system around it are not modelled. */
  class TextFile {
    var content: string

    constructor (content: string)
      ensures this.content == content
    {
      this.content := content;
    }

    /** `appendFileSync`: adds `text` at the end of the file. */
    method Append(text: string)
      modifies this
      ensures content == old(content) + text
    {
      content := content + text;
    }

    /**
     * The file half of a wrapped call: when the call's severity reaches the
     * file level, append the formatted record and the separator.
     */
    method Record(cfg: Config, methodName: string, message: string)
      modifies this
      ensures content == old(content) + RecordText(Route(cfg, methodName, message))
    {
      if AtLeast(LevelOf(methodName), cfg.level) {
        Append(FileLine(cfg.prefix, methodName, message) + cfg.separator);
      }
    }
  }

  /**
   * A logger's method factory: loglevel's own, which prints what it is given,
   * or one installed by setup around the factory that was there before.
   */
  datatype Factory =
    | Original
    | Wrapped(cfg: Config, file: TextFile, inner: Factory)

  /** The files the wrappers of `f` append to. */
  function FilesOf(f: Factory): set<TextFile> {
    match f
    case Original => {}
    case Wrapped(_, file, inner) => {file} + FilesOf(inner)
  }

  /**
   * What one call through `f` appends to the file `g`, outermost wrapper
   * first; nothing when no wrapper of `f` targets `g`.
   */
  function Appended(g: TextFile, f: Factory, methodName: string, message: string): (text: string)
    ensures g !in FilesOf(f) ==> text == ""
  {
    match f
    case Original => ""
    case Wrapped(cfg, file, inner) =>
      var e := Route(cfg, methodName, message);
      (if file == g then RecordText(e) else "") +
      (if e.forwarded.Some? then Appended(g, inner, methodName, e.forwarded.value) else "")
  }

  /** What one call through `f` prints: at most one string, reaching loglevel's own method. */
  function Printed(f: Factory, methodName: string, message: string): (out: seq<string>)
    ensures |out| <= 1
  {
    match f
    case Original => [message]
    case Wrapped(cfg, _, inner) =>
      var e := Route(cfg, methodName, message);
      if e.forwarded.Some? then Printed(inner, methodName, e.forwarded.value) else []
  }

  /**
   * Under a single wrapper, a call appends its record when the file level lets
   * it and prints `methodName: message` when the console level lets it.
   */
  lemma SingleWrapper(cfg: Config, file: TextFile, methodName: string, message: string)
    ensures Appended(file, Wrapped(cfg, file, Original), methodName, message)
         == RecordText(Route(cfg, methodName, message))
    ensures Printed(Wrapped(cfg, file, Original), methodName, message)
         == if AtLeast(LevelOf(methodName), cfg.consoleLevel) then [ConsoleLine(methodName, message)] else []
  {
  }

  /**
   * Under a single wrapper the file grows call by call as `FileText` says, so
   * after setup and a run of calls it holds exactly `FileText` of the run.
   */
  lemma FileTextStep(cfg: Config, file: TextFile, calls: seq<Call>, c: Call)
    ensures FileText(cfg, calls + [c])
         == FileText(cfg, calls) + Appended(file, Wrapped(cfg, file, Original), c.methodName, c.message)
  {
  }

  /** Under a single wrapper the console grows call by call as `ConsoleText` says. */
  lemma ConsoleTextStep(cfg: Config, file: TextFile, calls: seq<Call>, c: Call)
    ensures ConsoleText(cfg, calls + [c])
         == ConsoleText(cfg, calls) + Printed(Wrapped(cfg, file, Original), c.methodName, c.message)
  {
  }

  /**
   * loglevel's own gate, the level `Math.min(level, consoleLevel)` set by the
   * last setup, sits in front of the outermost wrapper only. A call below it
   * would append nothing and print nothing through that wrapper, whatever it
   * wraps, so the gate never changes what a call does.
   */
  lemma GateIsMoot(cfg: Config, file: TextFile, inner: Factory, g: TextFile, methodName: string, message: string)
    requires !AtLeast(LevelOf(methodName), Min(cfg.level, cfg.consoleLevel))
    ensures Appended(g, Wrapped(cfg, file, inner), methodName, message) == ""
    ensures Printed(Wrapped(cfg, file, inner), methodName, message) == []
  {
  }

  /**
   * Setup twice on the same file is not idempotent: with no prefix, a call
   * that passes both thresholds writes two records, the inner wrapper
   * receiving the outer one's `methodName: message` form as its message.
   */
  lemma SetupTwiceSameFile(cfg: Config, file: TextFile, methodName: string, message: string)
    requires cfg.prefix == NoPrefix
    requires AtLeast(LevelOf(methodName), cfg.level)
    requires AtLeast(LevelOf(methodName), cfg.consoleLevel)
    ensures Appended(file, Wrapped(cfg, file, Wrapped(cfg, file, Original)), methodName, message)
         == ConsoleLine(methodName, message) + cfg.separator
          + ConsoleLine(methodName, ConsoleLine(methodName, message)) + cfg.separator
  {
  }

  /**
   * With the console level left at its default, SILENT, a call of one of
   * loglevel's methods prints nothing, whatever the wrapper wraps.
   */
  lemma SilentByDefault(cfg: Config, file: TextFile, inner: Factory, methodName: string, message: string)
    requires cfg.consoleLevel == SILENT
    requires methodName in LoggingMethods
    ensures Printed(Wrapped(cfg, file, inner), methodName, message) == []
  {
  }

  /** A loglevel logger, as far as the plugin sees and changes it. */
  class Logger {
    /** `methodFactory`; `None` when the object has none. */
    var methodFactory: Option<Factory>
    /** The level last given to `setLevel`. */
    var threshold: int
    /** What loglevel's own methods printed, in order. */
    var console: seq<string>

    /** A fresh logger with loglevel's own factory at its default level. */
    constructor ()
      ensures methodFactory == Some(Original) && threshold == WARN && console == []
    {
      methodFactory := Some(Original);
      threshold := WARN;
      console := [];
    }

    /** A call of the logging method `methodName` with `message`. */
    method Log(methodName: string, message: string)
      requires methodFactory.Some?
      modifies this`console, FilesOf(methodFactory.value)
      ensures console == old(console) + Printed(methodFactory.value, methodName, message)
      ensures forall g :: g in FilesOf(methodFactory.value) && old(allocated(g)) ==>
        g.content == old(g.content) + Appended(g, methodFactory.value, methodName, message)
    {
      Invoke(methodFactory.value, methodName, message);
    }

    /** The method that `f` makes for `methodName`, called with `message`. */
    method Invoke(f: Factory, methodName: string, message: string)
      modifies this`console, FilesOf(f)
      ensures console == old(console) + Printed(f, methodName, message)
      ensures forall g :: g in FilesOf(f) && old(allocated(g)) ==> g.content == old(g.content) + Appended(g, f, methodName, message)
      decreases f
    {
      if f.Original? {
        console := console + [message];
      } else {
        var cfg, file, inner := f.cfg, f.file, f.inner;
        var msgLevel := LevelOf(methodName);
        var e := Route(cfg, methodName, message);
        file.Record(cfg, methodName, message);
        label Written:
        if AtLeast(msgLevel, cfg.consoleLevel) {
          Invoke(inner, methodName, ConsoleLine(methodName, message));
        }
        forall g | g in FilesOf(f) && old(allocated(g))
          ensures g.content == old(g.content) + Appended(g, f, methodName, message)
        {
          var own := if file == g then RecordText(e) else "";
          var rest := if e.forwarded.Some? then Appended(g, inner, methodName, e.forwarded.value) else "";
          assert Appended(g, f, methodName, message) == own + rest;
          assert old@Written(g.content) == old(g.content) + own;
          assert g.content == old@Written(g.content) + rest;
          assert (old(g.content) + own) + rest == old(g.content) + (own + rest);
        }
      }
    }
  }

  /**
   * Setup: read the options with their defaults, throw if there is no logger
   * or no method factory, otherwise truncate the file, wrap the factory and
   * set the logger's level to the lower of the two thresholds.
   */
  method Setup(logger: Logger?, file: TextFile, settings: Settings, eol: string)
    returns (r: Result<Logger, SetupError>)
    modifies logger, file
    ensures var c := Configure(logger != null, logger != null && old(logger.methodFactory).Some?, settings, eol);
      && (r.Err? <==> c.Err?)
      && (r.Err? ==> r.error == c.error && unchanged(file) && (logger != null ==> unchanged(logger)))
      && (r.Ok? ==>
            && r.value == logger
            && file.content == ""
            && logger.methodFactory == Some(Wrapped(c.value, file, old(logger.methodFactory).value))
            && logger.threshold == Min(c.value.level, c.value.consoleLevel)
            && logger.console == old(logger.console))
  {
    var c := Configure(logger != null, logger != null && logger.methodFactory.Some?, settings, eol);
    if c.Err? {
      return Err(c.error);
    }
    file.content := "";
    var original := logger.methodFactory.value;
    logger.methodFactory := Some(Wrapped(c.value, file, original));
    logger.threshold := Min(c.value.level, c.value.consoleLevel);
    r := Ok(logger);
  }
}
