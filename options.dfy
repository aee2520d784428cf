/**
 * The plugin's options and how they are read at setup: the defaults applied
 * to the missing ones, and the two ways setup can throw before it touches the
 * target file.
 */
module Options {
  import opened Wrappers
  import opened Levels

  /**
   * How a file record is formatted: no prefix, a string placed before the
   * message, or a function of (methodName, message) giving the whole record.
   */
  datatype Prefix =
    | NoPrefix
    | Literal(text: string)
    | Formatter(format: (string, string) -> string)

  /** The options as the caller passes them; `None` is an option left out. */
  datatype Settings = Settings(
    prefix: Prefix,
    consoleLevel: Option<int>,
    separator: Option<string>,
    level: Option<int>)

  /** The options after the defaults are applied. */
  datatype Config = Config(
    prefix: Prefix,
    consoleLevel: int,
    separator: string,
    level: int)

  /** Why setup throws. */
  datatype SetupError =
    /** A default was read from `logger.levels` while the logger is missing (a TypeError). */
    | LevelsOfMissingLogger
    /** The guard: no logger, or a logger without a method factory. */
    | NotALoglevelInstance

  /**
   * Reads the options as setup does: the defaults come first (SILENT for the
   * console level, the host's line ending `eol` for the separator, WARN for
   * the file level), and only then the guard on the logger and its factory.
   */
  function Configure(loggerGiven: bool, factoryGiven: bool, settings: Settings, eol: string)
    : (r: Result<Config, SetupError>)
    ensures r.Ok? <==> loggerGiven && factoryGiven
    ensures r == Err(LevelsOfMissingLogger) <==>
      !loggerGiven && (settings.consoleLevel.None? || settings.level.None?)
    ensures r.Ok? ==> r.value.prefix == settings.prefix
  {
    if !loggerGiven && (settings.consoleLevel.None? || settings.level.None?) then
      Err(LevelsOfMissingLogger)
    else if !loggerGiven || !factoryGiven then
      Err(NotALoglevelInstance)
    else
      Ok(Config(
        settings.prefix,
        settings.consoleLevel.GetOr(SILENT),
        settings.separator.GetOr(eol),
        settings.level.GetOr(WARN)))
  }

  /**
   * Each optional field is defaulted on its own: a field left out takes its
   * default (SILENT for the console level, `eol` for the separator, WARN for
   * the file level) and a field given is used as given, whatever the others are.
   */
  lemma ConfigureDefaults(settings: Settings, eol: string)
    ensures Configure(true, true, settings, eol).Ok?
    ensures settings.consoleLevel.None? ==> Configure(true, true, settings, eol).value.consoleLevel == SILENT
    ensures settings.consoleLevel.Some? ==>
      Configure(true, true, settings, eol).value.consoleLevel == settings.consoleLevel.value
    ensures settings.separator.None? ==> Configure(true, true, settings, eol).value.separator == eol
    ensures settings.separator.Some? ==>
      Configure(true, true, settings, eol).value.separator == settings.separator.value
    ensures settings.level.None? ==> Configure(true, true, settings, eol).value.level == WARN
    ensures settings.level.Some? ==> Configure(true, true, settings, eol).value.level == settings.level.value
  {
  }
}
