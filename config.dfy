/** `LoadConfig` and `NewQueueConfig` (internal/app/config.go). viper is
    reduced to what `LoadConfig` asks of it: with the prefix NOTEO and
    automatic environment binding, the key K reads the variable NOTEO_K,
    and a variable set to the empty string counts as unset. The defaults
    are applied explicitly. */
module AppConfig {
  import opened Base
  import opened GoStrings
  import Queue

  /** The process environment: variable name to value. */
  type Env = map<string, string>

  /** `app.Config`. */
  datatype Config = Config(botToken: string, port: int, logFormat: string, logLevel: string, dbDsn: string)

  /** The errors `LoadConfig` reports, one per check. */
  datatype ConfigError =
    | BotTokenRequired
    | DbDsnRequired
    | InvalidPort(port: int)
    | InvalidLogFormat(format: string)
    | InvalidLogLevel(level: string)

  const DEFAULT_PORT := 8080
  const DEFAULT_LOG_FORMAT := "json"
  const DEFAULT_LOG_LEVEL := "info"

  /** The variables the keys BOT_TOKEN, DB_DSN, PORT, LOG_FORMAT and
      LOG_LEVEL read under the prefix NOTEO. */
  const BOT_TOKEN := "NOTEO_BOT_TOKEN"
  const DB_DSN := "NOTEO_DB_DSN"
  const PORT := "NOTEO_PORT"
  const LOG_FORMAT := "NOTEO_LOG_FORMAT"
  const LOG_LEVEL := "NOTEO_LOG_LEVEL"

  /** The value of the variable, if it is set to a non-empty one (viper's
      `IsSet` for a key without a default). */
  function Setting(env: Env, name: string): (r: Option<string>)
    ensures r.Some? <==> name in env && env[name] != ""
    ensures r.Some? ==> r.value == env[name]
  {
    if name in env && env[name] != "" then Some(env[name]) else None
  }

  /** `viper.GetString` for a key with a default. */
  function StringSetting(env: Env, key: string, default: string): string {
    match Setting(env, key)
    case Some(s) => s
    case None => default
  }

  /** `viper.GetInt(PORT)`: the default when unset, otherwise the value
      parsed as `strconv.ParseInt(s, 0, 0)` does, and 0 when it does not
      parse. */
  function PortSetting(env: Env): (r: int)
    ensures InInt64(r)
    ensures Setting(env, PORT).None? ==> r == DEFAULT_PORT
    ensures Setting(env, PORT).Some? && ParseInt(Setting(env, PORT).value).None? ==> r == 0
    ensures Setting(env, PORT).Some? && r != 0 ==> ParseInt(Setting(env, PORT).value) == Some(r)
  {
    match Setting(env, PORT)
    case None => DEFAULT_PORT
    case Some(s) =>
      match ParseInt(s)
      case Some(v) => v
      case None => 0
  }

  /** `strings.ToLower(strings.TrimSpace(s))`. */
  function Normalized(s: string): string {
    ToLower(TrimSpace(s))
  }

  /** The log format `LoadConfig` checks, normalised. */
  function FormatSetting(env: Env): string {
    Normalized(StringSetting(env, LOG_FORMAT, DEFAULT_LOG_FORMAT))
  }

  /** The log level `LoadConfig` checks, normalised. */
  function LevelSetting(env: Env): string {
    Normalized(StringSetting(env, LOG_LEVEL, DEFAULT_LOG_LEVEL))
  }

  predicate ValidPort(port: int) { 1 <= port <= 65535 }
  predicate ValidLogFormat(format: string) { format == "json" || format == "text" }
  predicate ValidLogLevel(level: string) {
    level == "debug" || level == "info" || level == "warn" || level == "error"
  }

  /** `LoadConfig`. A returned configuration holds a valid port and the
      normalised format and level, with the token and the DSN trimmed. */
  function LoadConfig(env: Env): (r: Result<Config, ConfigError>)
    ensures r.Ok? ==>
      && Setting(env, BOT_TOKEN).Some? && Setting(env, DB_DSN).Some?
      && ValidPort(r.value.port) && ValidLogFormat(r.value.logFormat) && ValidLogLevel(r.value.logLevel)
      && r.value.botToken == TrimSpace(Setting(env, BOT_TOKEN).value)
      && r.value.dbDsn == TrimSpace(Setting(env, DB_DSN).value)
      && r.value.port == PortSetting(env)
      && r.value.logFormat == FormatSetting(env) && r.value.logLevel == LevelSetting(env)
  {
    if Setting(env, BOT_TOKEN).None? then Err(BotTokenRequired)
    else if Setting(env, DB_DSN).None? then Err(DbDsnRequired)
    else
      var port := PortSetting(env);
      if port <= 0 || port > 65535 then Err(InvalidPort(port))
      else
        var logFormat := FormatSetting(env);
        if logFormat != "json" && logFormat != "text" then Err(InvalidLogFormat(logFormat))
        else
          var logLevel := LevelSetting(env);
          if !ValidLogLevel(logLevel) then Err(InvalidLogLevel(logLevel))
          else Ok(Config(
            TrimSpace(Setting(env, BOT_TOKEN).value), port, logFormat, logLevel,
            TrimSpace(Setting(env, DB_DSN).value)))
  }

  /** The checks run in the order bot token, database DSN, port, log
      format, log level, and the first that fails is the only error
      reported; the configuration is returned exactly when all pass. */
  lemma LoadConfigCheckOrder(env: Env)
    ensures LoadConfig(env) == Err(BotTokenRequired) <==> Setting(env, BOT_TOKEN).None?
    ensures LoadConfig(env) == Err(DbDsnRequired) <==> Setting(env, BOT_TOKEN).Some? && Setting(env, DB_DSN).None?
    ensures LoadConfig(env) == Err(InvalidPort(PortSetting(env))) <==>
      Setting(env, BOT_TOKEN).Some? && Setting(env, DB_DSN).Some? && !ValidPort(PortSetting(env))
    ensures LoadConfig(env) == Err(InvalidLogFormat(FormatSetting(env))) <==>
      Setting(env, BOT_TOKEN).Some? && Setting(env, DB_DSN).Some? && ValidPort(PortSetting(env)) &&
      !ValidLogFormat(FormatSetting(env))
    ensures LoadConfig(env) == Err(InvalidLogLevel(LevelSetting(env))) <==>
      Setting(env, BOT_TOKEN).Some? && Setting(env, DB_DSN).Some? && ValidPort(PortSetting(env)) &&
      ValidLogFormat(FormatSetting(env)) && !ValidLogLevel(LevelSetting(env))
    ensures LoadConfig(env).Ok? <==>
      Setting(env, BOT_TOKEN).Some? && Setting(env, DB_DSN).Some? && ValidPort(PortSetting(env)) &&
      ValidLogFormat(FormatSetting(env)) && ValidLogLevel(LevelSetting(env))
  {
  }

  /** When every check passes, the configuration holds the checked values. */
  lemma LoadConfigAccepts(env: Env)
    requires Setting(env, BOT_TOKEN).Some? && Setting(env, DB_DSN).Some?
    requires ValidPort(PortSetting(env)) && ValidLogFormat(FormatSetting(env)) && ValidLogLevel(LevelSetting(env))
    ensures LoadConfig(env) == Ok(Config(
      TrimSpace(Setting(env, BOT_TOKEN).value), PortSetting(env), FormatSetting(env), LevelSetting(env),
      TrimSpace(Setting(env, DB_DSN).value)))
  {
  }

  /** Any casing of a valid word, padded with white space, normalises to
      the word. */
  lemma NormalizedCasing(pre: string, s: string, post: string, word: string)
    requires AllSpace(pre) && AllSpace(post) && LowerAsciiWord(word) && CasingOf(s, word)
    ensures Normalized(pre + s + post) == word
  {
    assert Trimmed(s) by {
      if s != [] {
        assert IsAsciiLower(word[0]) && IsAsciiLower(word[|s| - 1]);
      }
    }
    TrimSpacePadded(pre, s, post);
    CasingOfMaps(s, word);
  }

  /** A lower-case ASCII word is its own normalisation. */
  lemma NormalizedWord(w: string)
    requires LowerAsciiWord(w)
    ensures Normalized(w) == w
  {
    assert Trimmed(w) by {
      if w != [] {
        assert IsAsciiLower(w[0]) && IsAsciiLower(w[|w| - 1]);
      }
    }
    TrimSpaceOfTrimmed(w);
    forall i | 0 <= i < |w| ensures ToLower(w)[i] == w[i] {
      assert IsAsciiLower(w[i]);
    }
  }

  /** The defaults are valid and already normalised. */
  lemma DefaultsNormalized()
    ensures Normalized(DEFAULT_LOG_FORMAT) == "json" && Normalized(DEFAULT_LOG_LEVEL) == "info"
  {
    NormalizedWord("json");
    NormalizedWord("info");
  }

  /** With only the two required variables set, every default applies. */
  lemma DefaultsApply(env: Env, token: string, dsn: string)
    requires Setting(env, BOT_TOKEN) == Some(token) && Setting(env, DB_DSN) == Some(dsn)
    requires Setting(env, PORT).None? && Setting(env, LOG_FORMAT).None? && Setting(env, LOG_LEVEL).None?
    ensures LoadConfig(env) == Ok(Config(TrimSpace(token), 8080, "json", "info", TrimSpace(dsn)))
  {
    assert FormatSetting(env) == "json" && LevelSetting(env) == "info" by {
      DefaultsNormalized();
    }
    LoadConfigAccepts(env);
  }

  /** A port that does not start with a sign or a digit reads as 0 and
      is rejected as 0. */
  lemma NonNumericPortRejected(env: Env, port: string)
    requires Setting(env, BOT_TOKEN).Some? && Setting(env, DB_DSN).Some?
    requires Setting(env, PORT) == Some(port)
    requires port != [] && !('0' <= port[0] <= '9') && port[0] != '+' && port[0] != '-'
    ensures LoadConfig(env) == Err(InvalidPort(0))
  {
    assert PortSetting(env) == 0 by {
      ParseIntNonNumeric(port);
    }
    LoadConfigCheckOrder(env);
  }

  /** A port written with a digit separator, as Go's base-0 literals
      allow, is accepted as the number it groups. */
  lemma SeparatedPortAccepted(env: Env)
    requires Setting(env, BOT_TOKEN).Some? && Setting(env, DB_DSN).Some?
    requires Setting(env, PORT) == Some("8_080")
    requires Setting(env, LOG_FORMAT).None? && Setting(env, LOG_LEVEL).None?
    ensures LoadConfig(env).Ok? && LoadConfig(env).value.port == 8080
  {
    assert PortSetting(env) == 8080 by {
      SeparatedDigits();
    }
    assert FormatSetting(env) == "json" && LevelSetting(env) == "info" by {
      DefaultsNormalized();
    }
    LoadConfigAccepts(env);
  }

  /** A port of 0 is rejected. */
  lemma PortZeroRejected(env: Env)
    requires Setting(env, BOT_TOKEN).Some? && Setting(env, DB_DSN).Some?
    requires Setting(env, PORT) == Some("0")
    ensures LoadConfig(env) == Err(InvalidPort(0))
  {
    assert PortSetting(env) == 0 by {
      assert ParseUintBase0("0") == ParseDigits([], 8);
    }
    LoadConfigCheckOrder(env);
  }

  /** A port above 65535 is rejected with its value. */
  lemma PortTooLargeRejected(env: Env, port: Int64)
    requires Setting(env, BOT_TOKEN).Some? && Setting(env, DB_DSN).Some?
    requires Setting(env, PORT) == Some(FormatInt(port)) && port > 65535
    ensures LoadConfig(env) == Err(InvalidPort(port))
  {
    assert PortSetting(env) == port by {
      ParseFormatRoundTrip(port);
    }
    LoadConfigCheckOrder(env);
  }

  /** Every decimal port in range is accepted as that number. */
  lemma PortInRangeAccepted(env: Env, port: Int64)
    requires Setting(env, BOT_TOKEN).Some? && Setting(env, DB_DSN).Some?
    requires Setting(env, PORT) == Some(FormatInt(port)) && 1 <= port <= 65535
    requires Setting(env, LOG_FORMAT).None? && Setting(env, LOG_LEVEL).None?
    ensures LoadConfig(env).Ok? && LoadConfig(env).value.port == port
  {
    assert PortSetting(env) == port by {
      ParseFormatRoundTrip(port);
    }
    assert FormatSetting(env) == "json" && LevelSetting(env) == "info" by {
      DefaultsNormalized();
    }
    LoadConfigAccepts(env);
  }

  /** Once token, DSN and port pass, a format whose normalisation is
      neither json nor text is rejected, naming that normalisation; the
      level is not looked at. */
  lemma UnknownFormatRejected(env: Env, format: string)
    requires Setting(env, BOT_TOKEN).Some? && Setting(env, DB_DSN).Some? && ValidPort(PortSetting(env))
    requires Setting(env, LOG_FORMAT) == Some(format) && !ValidLogFormat(Normalized(format))
    ensures LoadConfig(env) == Err(InvalidLogFormat(Normalized(format)))
  {
    LoadConfigCheckOrder(env);
  }

  /** A trimmed format of a length other than four, such as the tests'
      "invalid-format", is not a log format. */
  lemma OtherLengthFormat(format: string)
    requires Trimmed(format) && |format| != 4
    ensures !ValidLogFormat(Normalized(format))
  {
    TrimSpaceOfTrimmed(format);
  }

  /** A trimmed level of a length other than four or five, such as the
      tests' "invalid-level", is not a log level. */
  lemma OtherLengthLevel(level: string)
    requires Trimmed(level) && |level| != 4 && |level| != 5
    ensures !ValidLogLevel(Normalized(level))
  {
    TrimSpaceOfTrimmed(level);
  }

  /** With the default format, a level outside debug, info, warn and
      error is rejected, naming its normalisation. */
  lemma UnknownLevelRejected(env: Env, level: string)
    requires Setting(env, BOT_TOKEN).Some? && Setting(env, DB_DSN).Some? && ValidPort(PortSetting(env))
    requires Setting(env, LOG_FORMAT).None?
    requires Setting(env, LOG_LEVEL) == Some(level) && !ValidLogLevel(Normalized(level))
    ensures LoadConfig(env) == Err(InvalidLogLevel(Normalized(level)))
  {
    assert FormatSetting(env) == "json" by {
      DefaultsNormalized();
    }
    LoadConfigCheckOrder(env);
  }

  /** Format and level are accepted in any casing and with surrounding
      white space, and stored trimmed and lower-cased. */
  lemma CaseInsensitiveSettings(env: Env, pre: string, post: string, format: string, level: string, fword: string, lword: string)
    requires Setting(env, BOT_TOKEN).Some? && Setting(env, DB_DSN).Some? && ValidPort(PortSetting(env))
    requires AllSpace(pre) && AllSpace(post)
    requires ValidLogFormat(fword) && ValidLogLevel(lword)
    requires LowerAsciiWord(fword) && CasingOf(format, fword)
    requires LowerAsciiWord(lword) && CasingOf(level, lword)
    requires Setting(env, LOG_FORMAT) == Some(pre + format + post)
    requires Setting(env, LOG_LEVEL) == Some(pre + level + post)
    ensures LoadConfig(env).Ok?
    ensures LoadConfig(env).value.logFormat == fword && LoadConfig(env).value.logLevel == lword
  {
    assert FormatSetting(env) == fword by {
      NormalizedCasing(pre, format, post, fword);
    }
    assert LevelSetting(env) == lword by {
      NormalizedCasing(pre, level, post, lword);
    }
    LoadConfigAccepts(env);
  }

  /** The first test scenario sets a token, a port, a format and a level
      but no DSN; the code, which requires the DSN, rejects it. */
  lemma TestScenarioWithoutDsn()
    ensures LoadConfig(map[BOT_TOKEN := "test-token", PORT := "9090",
                           LOG_FORMAT := "text", LOG_LEVEL := "debug"])
         == Err(DbDsnRequired)
  {
    var env := map[BOT_TOKEN := "test-token", PORT := "9090", LOG_FORMAT := "text", LOG_LEVEL := "debug"];
    assert DB_DSN !in env;
    assert Setting(env, BOT_TOKEN).Some?;
    LoadConfigCheckOrder(env);
  }

  /** The port of the test scenario reads as 9090. */
  lemma Parses9090()
    ensures ParseInt("9090") == Some(9090)
  {
    ParseFormatRoundTrip(9090);
    assert FormatInt(9090) == "9090";
  }

  /** The token of the test scenario has no surrounding space. */
  lemma TestTokenTrimmed()
    ensures TrimSpace("test-token") == "test-token"
  {
    TrimSpaceOfTrimmed("test-token");
  }

  /** The same scenario with a DSN added is accepted with the values set. */
  lemma TestScenarioWithDsn(env: Env, dsn: string)
    requires Setting(env, BOT_TOKEN) == Some("test-token") && Setting(env, PORT) == Some("9090")
    requires Setting(env, LOG_FORMAT) == Some("text") && Setting(env, LOG_LEVEL) == Some("debug")
    requires Setting(env, DB_DSN) == Some(dsn) && Trimmed(dsn)
    ensures LoadConfig(env) == Ok(Config("test-token", 9090, "text", "debug", dsn))
  {
    assert PortSetting(env) == 9090 by {
      Parses9090();
    }
    assert FormatSetting(env) == "text" && LevelSetting(env) == "debug" by {
      NormalizedWord("text");
      NormalizedWord("debug");
    }
    assert TrimSpace(dsn) == dsn by {
      TrimSpaceOfTrimmed(dsn);
    }
    assert TrimSpace("test-token") == "test-token" by {
      TestTokenTrimmed();
    }
    LoadConfigAccepts(env);
  }

  /** `NewQueueConfig`: capacity 1000, first retry delay one second, the
      delay capped at one minute, ten attempts. */
  function NewQueueConfig(cfg: Config): (q: Queue.Config)
    ensures q.capacity == 1000 && q.maxRetries == 10
    ensures q.initialRetryDelay == Base.SECOND && q.maxRetryDelay == Base.MINUTE
  {
    Queue.Config(1000, SECOND, MINUTE, 10)
  }

  /** Under the queue configuration the ten waits of a message that never
      goes through are 1, 2, 4, 8, 16, 32, 60, 60, 60 and 60 seconds. */
  lemma DefaultRetryWaits(cfg: Config)
    ensures forall i | 0 <= i < 10 ::
      Queue.DelayAt(NewQueueConfig(cfg), i) == [1, 2, 4, 8, 16, 32, 60, 60, 60, 60][i] * SECOND
  {
    var q := NewQueueConfig(cfg);
    assert Queue.DelayAt(q, 0) == SECOND;
    assert Queue.DelayAt(q, 1) == 2 * SECOND;
    assert Queue.DelayAt(q, 2) == 4 * SECOND;
    assert Queue.DelayAt(q, 3) == 8 * SECOND;
    assert Queue.DelayAt(q, 4) == 16 * SECOND;
    assert Queue.DelayAt(q, 5) == 32 * SECOND;
    assert Queue.DelayAt(q, 6) == 60 * SECOND;
    assert Queue.DelayAt(q, 7) == 60 * SECOND;
    assert Queue.DelayAt(q, 8) == 60 * SECOND;
    assert Queue.DelayAt(q, 9) == 60 * SECOND;
  }

}
