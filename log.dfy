/** The logger set-up: parsing the configured level and checking the
    configured format, both without regard to case. Installing the
    resulting handler as the process-wide logger is not modelled. */
module Logging {
  import opened Base
  import opened GoStrings
  import AppConfig

  /** The four `slog` levels the configuration can name. */
  datatype Level = Debug | Info | Warn | Error

  /** The two handlers: `slog.NewTextHandler` and `slog.NewJSONHandler`. */
  datatype Format = TextFormat | JsonFormat

  /** Why `InitLogger` failed: the level as given, or the format after
      upper-casing (the form the error message prints). */
  datatype LogError = InvalidLevel(level: string) | InvalidFormat(format: string)

  /** The name of a level, in lower case. */
  function LevelName(l: Level): (w: string)
    ensures LowerAsciiWord(w)
  {
    match l
    case Debug => "debug"
    case Info => "info"
    case Warn => "warn"
    case Error => "error"
  }

  /** The name of a format, in lower case. */
  function FormatName(f: Format): (w: string)
    ensures LowerAsciiWord(w)
  {
    match f
    case TextFormat => "text"
    case JsonFormat => "json"
  }

  /** The upper-case spellings the code compares against. */
  lemma UpperLevelName(l: Level)
    ensures ToUpper(LevelName(l)) == match l
      case Debug => "DEBUG" case Info => "INFO" case Warn => "WARN" case Error => "ERROR"
  {
    var w := LevelName(l);
    var u := ToUpper(w);
    match l
    case Debug => assert u[0] == 'D' && u[1] == 'E' && u[2] == 'B' && u[3] == 'U' && u[4] == 'G';
    case Info => assert u[0] == 'I' && u[1] == 'N' && u[2] == 'F' && u[3] == 'O';
    case Warn => assert u[0] == 'W' && u[1] == 'A' && u[2] == 'R' && u[3] == 'N';
    case Error => assert u[0] == 'E' && u[1] == 'R' && u[2] == 'R' && u[3] == 'O' && u[4] == 'R';
  }

  lemma UpperFormatName(f: Format)
    ensures ToUpper(FormatName(f)) == match f case TextFormat => "TEXT" case JsonFormat => "JSON"
  {
    var u := ToUpper(FormatName(f));
    match f
    case TextFormat => assert u[0] == 'T' && u[1] == 'E' && u[2] == 'X' && u[3] == 'T';
    case JsonFormat => assert u[0] == 'J' && u[1] == 'S' && u[2] == 'O' && u[3] == 'N';
  }

  /** `parseLogLevel`: the level whose name the upper-cased input spells;
      anything else gives `Info` together with an error naming the input. */
  function ParseLogLevel(level: string): (r: (Level, Option<LogError>))
    ensures r.1.Some? ==> r == (Info, Some(InvalidLevel(level)))
  {
    var u := ToUpper(level);
    if u == "DEBUG" then (Debug, None)
    else if u == "INFO" then (Info, None)
    else if u == "WARN" then (Warn, None)
    else if u == "ERROR" then (Error, None)
    else (Info, Some(InvalidLevel(level)))
  }

  /** A level parses without error exactly when its upper case is the
      upper case of some level's name, and then it is that level. */
  lemma ParseLogLevelSpec(level: string)
    ensures ParseLogLevel(level).1.None? <==> exists l: Level :: ToUpper(level) == ToUpper(LevelName(l))
    ensures forall l: Level :: ToUpper(level) == ToUpper(LevelName(l)) ==> ParseLogLevel(level) == (l, None)
  {
    UpperLevelName(Debug);
    UpperLevelName(Info);
    UpperLevelName(Warn);
    UpperLevelName(Error);
  }

  /** Any ASCII casing of a level's name parses to that level. */
  lemma ParseLogLevelAnyCasing(level: string, l: Level)
    requires CasingOf(level, LevelName(l))
    ensures ParseLogLevel(level) == (l, None)
  {
    CasingOfMaps(level, LevelName(l));
    ParseLogLevelSpec(level);
  }

  /** Different levels have different names, so the parse of a name is
      its level: the names and the parse are inverse. */
  lemma ParseLevelName(l: Level)
    ensures ParseLogLevel(LevelName(l)) == (l, None)
  {
    ParseLogLevelSpec(LevelName(l));
  }

  /** `strings.ToUpper` also maps U+0131 (dotless i) to `I`, so "ınfo"
      names the info level although `LoadConfig`, which lower-cases,
      would not accept it. */
  lemma DotlessInfoParses()
    ensures ParseLogLevel("\U{0131}nfo") == (Info, None)
  {
    var u := ToUpper("\U{0131}nfo");
    assert u[0] == 'I' && u[1] == 'N' && u[2] == 'F' && u[3] == 'O';
    assert u == "INFO";
  }

  /** `InitLogger`: the level is checked first; then the upper-cased
      format must be TEXT or JSON. On success the handler is given by its
      format and minimum level. */
  function InitLogger(cfg: AppConfig.Config): (r: Result<(Level, Format), LogError>)
    ensures ParseLogLevel(cfg.logLevel).1.Some? ==> r == Err(InvalidLevel(cfg.logLevel))
    ensures ParseLogLevel(cfg.logLevel).1.None? && r.Err? ==> r == Err(InvalidFormat(ToUpper(cfg.logFormat)))
    ensures r.Ok? ==> r.value.0 == ParseLogLevel(cfg.logLevel).0
  {
    var (level, err) := ParseLogLevel(cfg.logLevel);
    if err.Some? then Err(err.value)
    else
      var format := ToUpper(cfg.logFormat);
      if format == "TEXT" then Ok((level, TextFormat))
      else if format == "JSON" then Ok((level, JsonFormat))
      else Err(InvalidFormat(format))
  }

  /** With a valid level, the format is accepted exactly when its upper
      case is that of a format name, and it selects that format. */
  lemma InitLoggerFormatSpec(cfg: AppConfig.Config)
    requires ParseLogLevel(cfg.logLevel).1.None?
    ensures InitLogger(cfg).Ok? <==> exists f: Format :: ToUpper(cfg.logFormat) == ToUpper(FormatName(f))
    ensures forall f: Format :: ToUpper(cfg.logFormat) == ToUpper(FormatName(f)) ==>
      InitLogger(cfg) == Ok((ParseLogLevel(cfg.logLevel).0, f))
  {
    UpperFormatName(TextFormat);
    UpperFormatName(JsonFormat);
  }

  /** Any ASCII casing of a format name selects that format. */
  lemma InitLoggerAnyCasing(cfg: AppConfig.Config, l: Level, f: Format)
    requires CasingOf(cfg.logLevel, LevelName(l)) && CasingOf(cfg.logFormat, FormatName(f))
    ensures InitLogger(cfg) == Ok((l, f))
  {
    ParseLogLevelAnyCasing(cfg.logLevel, l);
    CasingOfMaps(cfg.logFormat, FormatName(f));
    InitLoggerFormatSpec(cfg);
  }

  /** A configuration whose level and format are names that
      `LoadConfig` accepts passes both checks of `InitLogger`. */
  lemma ValidSettingsInitLogger(cfg: AppConfig.Config)
    requires AppConfig.ValidLogLevel(cfg.logLevel) && AppConfig.ValidLogFormat(cfg.logFormat)
    ensures InitLogger(cfg).Ok?
    ensures LevelName(InitLogger(cfg).value.0) == cfg.logLevel
    ensures FormatName(InitLogger(cfg).value.1) == cfg.logFormat
  {
    var l := if cfg.logLevel == "debug" then Debug else if cfg.logLevel == "info" then Info
      else if cfg.logLevel == "warn" then Warn else Error;
    var f := if cfg.logFormat == "text" then TextFormat else JsonFormat;
    assert LevelName(l) == cfg.logLevel && FormatName(f) == cfg.logFormat;
    ParseLevelName(l);
    InitLoggerFormatSpec(cfg);
  }

  /** Every configuration `LoadConfig` returns passes both checks of
      `InitLogger`, with the level and format it names. */
  lemma LoadedConfigInitsLogger(env: AppConfig.Env)
    requires AppConfig.LoadConfig(env).Ok?
    ensures InitLogger(AppConfig.LoadConfig(env).value).Ok?
    ensures LevelName(InitLogger(AppConfig.LoadConfig(env).value).value.0) == AppConfig.LoadConfig(env).value.logLevel
    ensures FormatName(InitLogger(AppConfig.LoadConfig(env).value).value.1) == AppConfig.LoadConfig(env).value.logFormat
  {
    ValidSettingsInitLogger(AppConfig.LoadConfig(env).value);
  }
}
