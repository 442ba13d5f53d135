/** Go's strconv.Itoa and strconv.Atoi on the 64-bit `int`, as the configuration loader uses
    them (internal/config/config.go:229-244). */
module GoStrconv {
  import opened Wrappers

  const MaxInt64: int := 0x7fff_ffff_ffff_ffff
  const MinInt64: int := -0x8000_0000_0000_0000
  const MaxUint64: int := 0xffff_ffff_ffff_ffff
  /** The first value whose product with 10 no longer fits a uint64 (ParseUint's `cutoff`). */
  const Cutoff: int := MaxUint64 / 10 + 1

  predicate IsDigit(c: char)
  {
    '0' <= c <= '9'
  }

  predicate AllDigits(s: string)
  {
    forall i | 0 <= i < |s| :: IsDigit(s[i])
  }

  function DigitChar(d: nat): char
    requires d < 10
  {
    ('0' as int + d) as char
  }

  /** The value of a decimal digit string, read left to right. */
  function DigitsValue(s: string): nat
    requires AllDigits(s)
  {
    if s == [] then 0 else DigitsValue(s[..|s| - 1]) * 10 + (s[|s| - 1] as int - '0' as int)
  }

  /** The decimal spelling of a natural number, without leading zeros. */
  function Digits(n: nat): (s: string)
    ensures |s| >= 1 && AllDigits(s)
  {
    if n < 10 then [DigitChar(n)] else Digits(n / 10) + [DigitChar(n % 10)]
  }

  /** Digits spells its argument. */
  lemma {:induction false} DigitsValueOfDigits(n: nat)
    ensures DigitsValue(Digits(n)) == n
  {
    if n >= 10 {
      DigitsValueOfDigits(n / 10);
      var s := Digits(n);
      assert s[..|s| - 1] == Digits(n / 10);
    }
  }

  /** strconv.Itoa: a minus sign for negative numbers, then the digits of the magnitude. */
  function Itoa(n: int): (s: string)
    ensures n >= 0 ==> s == Digits(n)
    ensures n < 0 ==> s == "-" + Digits(-n)
  {
    if n < 0 then "-" + Digits(-n) else Digits(n)
  }

  /** The result of ParseUint's left-to-right scan: a value, or the first failure met. */
  datatype Scan = Parsed(n: nat) | SyntaxFailure | RangeFailure

  /** ParseUint's digit loop over `s`: a non-digit is a syntax error and a value beyond the
      uint64 range a range error, whichever comes first from the left. */
  function ScanDigits(s: string): Scan
  {
    if s == [] then Parsed(0)
    else match ScanDigits(s[..|s| - 1])
      case Parsed(n) =>
        var c := s[|s| - 1];
        if !IsDigit(c) then SyntaxFailure
        else if n >= Cutoff then RangeFailure
        else if n * 10 + (c as int - '0' as int) > MaxUint64 then RangeFailure
        else Parsed(n * 10 + (c as int - '0' as int))
      case failure => failure
  }

  /** The scan succeeds exactly on digit strings whose value fits a uint64, with that value. */
  lemma {:induction false} ScanDigitsSpec(s: string)
    ensures AllDigits(s) && DigitsValue(s) <= MaxUint64 ==> ScanDigits(s) == Parsed(DigitsValue(s))
    ensures !(AllDigits(s) && DigitsValue(s) <= MaxUint64) ==> !ScanDigits(s).Parsed?
    ensures ScanDigits(s) == SyntaxFailure ==> !AllDigits(s)
  {
    if s != [] {
      var p := s[..|s| - 1];
      ScanDigitsSpec(p);
      assert AllDigits(s) ==> AllDigits(p) by {
        if AllDigits(s) {
          forall i | 0 <= i < |p| ensures IsDigit(p[i]) {
            assert p[i] == s[i];
          }
        }
      }
      if AllDigits(s) {
        assert DigitsValue(s) == DigitsValue(p) * 10 + (s[|s| - 1] as int - '0' as int);
      } else if AllDigits(p) {
        assert !IsDigit(s[|s| - 1]) by {
          var i :| 0 <= i < |s| && !IsDigit(s[i]);
          if i < |p| {
            assert s[i] == p[i];
          }
        }
      }
    }
  }

  /** The two failures of strconv.NumError.Err. */
  datatype NumErrorKind = ErrSyntax | ErrRange

  /** The sign of a ParseInt argument and the digits that follow it. */
  function SplitSign(s: string): (bool, string)
  {
    if |s| > 0 && s[0] == '+' then (false, s[1..])
    else if |s| > 0 && s[0] == '-' then (true, s[1..])
    else (false, s)
  }

  /** strconv.Atoi: the value and the failure, if any. A syntax error yields 0; a value out of
      the int64 range yields the nearest bound together with a range error. */
  function Atoi(s: string): (r: (int, Option<NumErrorKind>))
    ensures MinInt64 <= r.0 <= MaxInt64
    ensures r.1 == Some(ErrSyntax) ==> r.0 == 0
    ensures r.1 == Some(ErrRange) ==> r.0 == MaxInt64 || r.0 == MinInt64
  {
    if s == [] then (0, Some(ErrSyntax))
    else
      var (neg, body) := SplitSign(s);
      var un := if body == [] then SyntaxFailure else ScanDigits(body);
      match un
      case SyntaxFailure => (0, Some(ErrSyntax))
      case RangeFailure => (if neg then MinInt64 else MaxInt64, Some(ErrRange))
      case Parsed(n) =>
        if !neg && n > MaxInt64 then (MaxInt64, Some(ErrRange))
        else if neg && n > -MinInt64 then (MinInt64, Some(ErrRange))
        else (if neg then -(n as int) else n, None)
  }

  /** A decimal integer of the int64 range: an optional sign and at least one digit. */
  predicate IsDecimalInt64(s: string)
  {
    var (neg, body) := SplitSign(s);
    && s != [] && body != [] && AllDigits(body)
    && (if neg then DigitsValue(body) <= -MinInt64 else DigitsValue(body) <= MaxInt64)
  }

  /** Atoi succeeds exactly on decimal integers of the int64 range, with their value; on
      anything containing a non-digit after the sign it fails. */
  lemma AtoiSpec(s: string)
    ensures Atoi(s).1.None? <==> IsDecimalInt64(s)
    ensures IsDecimalInt64(s) ==>
      var (neg, body) := SplitSign(s);
      Atoi(s).0 == if neg then -(DigitsValue(body) as int) else DigitsValue(body)
    ensures !AllDigits(SplitSign(s).1) ==> Atoi(s).1.Some?
  {
    var (neg, body) := SplitSign(s);
    if body != [] {
      ScanDigitsSpec(body);
    }
  }

  /** Atoi reads back what Itoa writes, for every int64. */
  lemma AtoiItoa(n: int)
    requires MinInt64 <= n <= MaxInt64
    ensures Atoi(Itoa(n)) == (n, None)
  {
    var m: nat := if n < 0 then -n else n;
    DigitsValueOfDigits(m);
    var s := Itoa(n);
    assert SplitSign(s).1 == Digits(m) by {
      assert Digits(m)[0] != '+' && Digits(m)[0] != '-';
    }
    AtoiSpec(s);
  }
}

/** The application configuration and its builder (internal/config/config.go): each setting is
    read from an environment variable, falling back to a command-line flag and a built-in
    default; missing or malformed settings are collected as errors and joined by Build.
    The process environment is a parameter. */
module Config {
  import opened Wrappers
  import opened Errors
  import opened GoStrconv

  /** The command-line flags; None is a nil pointer. */
  datatype DBFlagsInitialConfig = DBFlagsInitialConfig(DatabaseDSN: Option<string>)
  datatype FlagsInitialConfig = FlagsInitialConfig(
    StoragePath: Option<string>,
    StartupAddress: Option<string>,
    BaseURL: Option<string>,
    DB: Option<DBFlagsInitialConfig>,
    AuditURL: Option<string>,
    AuditFile: Option<string>)

  datatype DBConfig = DBConfig(DatabaseDSN: string, StoragePath: string)
  datatype AuthConfig = AuthConfig(TokenLifeTimeHours: int, TokenSecretKey: string)
  datatype AuditConfig = AuditConfig(AuditURL: string, AuditFile: string)
  datatype ServerConfig = ServerConfig(BaseURL: string, Address: string, ShortLinksLength: int)
  datatype AppConfig = AppConfig(
    LoggingLevel: string, DB: DBConfig, Auth: AuthConfig, Audit: AuditConfig, Server: ServerConfig)

  /** The zero AppConfig a new builder starts from. */
  const ZeroConfig := AppConfig("", DBConfig("", ""), AuthConfig(0, ""), AuditConfig("", ""), ServerConfig("", "", 0))

  /** os.Getenv: the variable's value, "" when it is unset. */
  function Getenv(env: map<string, string>, name: string): string
  {
    if name in env then env[name] else ""
  }

  const DefaultStoragePath := "storage.json"
  const DefaultShortLinksLength := 8
  const DefaultStartupAddress := "localhost:8080"
  const DefaultLoggingLevel := "info"
  const DefaultTokenLifeTimeHours := 24
  const DefaultTokenSecretKey := "superTokenSecretKey"

  /** The value loadStringVariableFromEnv settles on: a non-empty environment value, else the
      default when there is one, else "". */
  function Resolve(envValue: string, default: Option<string>): (v: string)
    ensures envValue != "" ==> v == envValue
    ensures envValue == "" && default.Some? ==> v == default.value
    ensures v == "" <==> envValue == "" && (default.None? || default.value == "")
  {
    if envValue == "" && default.Some? then default.value else envValue
  }

  /** A flag that is set to a non-empty value, else the built-in default. */
  function FlagOrDefault(flag: Option<string>, builtin: string): (v: string)
    ensures flag.Some? && flag.value != "" ==> v == flag.value
    ensures flag.None? || flag.value == "" ==> v == builtin
  {
    if flag.Some? && flag.value != "" then flag.value else builtin
  }

  function NotSpecified(envName: string): Error
  {
    Message("configuration error: '" + envName + "' not specified")
  }

  /** strconv.Quote for the printable ASCII a setting normally holds: quotes around the text,
      with backslashes and double quotes escaped. */
  function Quote(s: string): string
  {
    "\"" + QuoteBody(s) + "\""
  }

  function QuoteBody(s: string): string
  {
    if s == [] then []
    else (if s[0] == '"' || s[0] == '\\' then ['\\', s[0]] else [s[0]]) + QuoteBody(s[1..])
  }

  /** The error text of Atoi's *strconv.NumError. */
  function NumErrorText(s: string, kind: NumErrorKind): string
  {
    "strconv.Atoi: parsing " + Quote(s) + ": " + (if kind == ErrSyntax then "invalid syntax" else "value out of range")
  }

  /** The error loadIntVariableFromEnv records, wrapping the NumError with %w. */
  function ConversionError(envName: string, s: string, kind: NumErrorKind): Error
  {
    Wrapped("configuration error: could not convert " + envName + " to int: " + NumErrorText(s, kind),
            Some(Message(NumErrorText(s, kind))))
  }

  /** The errors loadStringVariableFromEnv records for the value it settled on. */
  function MissingErrors(envName: string, value: string): (errs: seq<Error>)
    ensures |errs| <= 1
    ensures errs != [] <==> value == ""
  {
    if value == "" then [NotSpecified(envName)] else []
  }

  /** The value loadIntVariableFromEnv returns for the string setting `s`. */
  function IntSetting(s: string): int
  {
    if s == "" then 0 else Atoi(s).0
  }

  /** The errors loadIntVariableFromEnv records for the string setting `s`. */
  function IntErrors(envName: string, s: string): (errs: seq<Error>)
    ensures errs == [] <==> IsDecimalInt64(s)
  {
    AtoiSpec(s);
    if s == "" then [NotSpecified(envName)]
    else if Atoi(s).1.Some? then [ConversionError(envName, s, Atoi(s).1.value)]
    else []
  }

  /** A setting with a non-empty default never fails to resolve. */
  lemma DefaultedNeverMissing(envName: string, envValue: string, default: string)
    requires default != ""
    ensures Resolve(envValue, Some(default)) != ""
    ensures MissingErrors(envName, Resolve(envValue, Some(default))) == []
  {
  }

  /** An integer setting whose variable is unset takes its default, without error. */
  lemma IntDefaultApplies(envName: string, default: int)
    requires MinInt64 <= default <= MaxInt64
    ensures IntSetting(Resolve("", Some(Itoa(default)))) == default
    ensures IntErrors(envName, Resolve("", Some(Itoa(default)))) == []
  {
    AtoiItoa(default);
    AtoiSpec(Itoa(default));
  }

  /** AppConfigBuilder: the configuration under construction and the errors met so far. */
  class AppConfigBuilder {
    var config: AppConfig
    var errors: seq<Error>
    const flagsConfig: FlagsInitialConfig
    const env: map<string, string>

    /** NewAppConfigBuilder: a zero configuration and no errors. */
    constructor(flagsConfig: FlagsInitialConfig, env: map<string, string>)
      ensures config == ZeroConfig && errors == []
      ensures this.flagsConfig == flagsConfig && this.env == env
    {
      config := ZeroConfig;
      errors := [];
      this.flagsConfig := flagsConfig;
      this.env := env;
    }

    /** loadStringVariableFromEnv: resolves the variable and records one "not specified"
        error when nothing is found. */
    method LoadStringVariableFromEnv(envName: string, default: Option<string>) returns (value: string)
      modifies this
      ensures value == Resolve(Getenv(env, envName), default)
      ensures errors == old(errors) + MissingErrors(envName, value)
      ensures config == old(config)
    {
      value := Getenv(env, envName);
      if value == "" && default.Some? {
        value := default.value;
      }
      if value == "" {
        errors := errors + [NotSpecified(envName)];
      }
    }

    /** loadIntVariableFromEnv: resolves the variable against the spelled-out default and
        converts it, recording a conversion error when Atoi fails. */
    method LoadIntVariableFromEnv(envName: string, default: int) returns (value: int)
      modifies this
      ensures var s := Resolve(Getenv(env, envName), Some(Itoa(default)));
        value == IntSetting(s) && errors == old(errors) + IntErrors(envName, s)
      ensures config == old(config)
    {
      var stringedDefault := Itoa(default);
      var s := LoadStringVariableFromEnv(envName, Some(stringedDefault));
      if s == "" {
        return 0;
      }
      var (numericValue, err) := Atoi(s);
      if err.Some? {
        errors := errors + [ConversionError(envName, s, err.value)];
      }
      value := numericValue;
    }

    /** WithStartupAddress: SERVER_ADDRESS, else the -a flag, else localhost:8080. */
    method WithStartupAddress()
      modifies this
      ensures config == old(config).(Server := old(config).Server.(Address :=
        Resolve(Getenv(env, "SERVER_ADDRESS"), Some(FlagOrDefault(flagsConfig.StartupAddress, DefaultStartupAddress)))))
      ensures errors == old(errors)
    {
      var def := FlagOrDefault(flagsConfig.StartupAddress, DefaultStartupAddress);
      var v := LoadStringVariableFromEnv("SERVER_ADDRESS", Some(def));
      config := config.(Server := config.Server.(Address := v));
    }

    /** WithDatabaseDSN: DATABASE_CONN_STRING, else the -d flag, else "" with an error. */
    method WithDatabaseDSN()
      modifies this
      ensures var v := Resolve(Getenv(env, "DATABASE_CONN_STRING"), Some(DSNFlag(flagsConfig)));
        config == old(config).(DB := old(config).DB.(DatabaseDSN := v))
        && errors == old(errors) + MissingErrors("DATABASE_CONN_STRING", v)
    {
      var def := DSNFlag(flagsConfig);
      var v := LoadStringVariableFromEnv("DATABASE_CONN_STRING", Some(def));
      config := config.(DB := config.DB.(DatabaseDSN := v));
    }

    /** WithStoragePath: FILE_STORAGE_PATH, else the -f flag, else storage.json. */
    method WithStoragePath()
      modifies this
      ensures config == old(config).(DB := old(config).DB.(StoragePath :=
        Resolve(Getenv(env, "FILE_STORAGE_PATH"), Some(FlagOrDefault(flagsConfig.StoragePath, DefaultStoragePath)))))
      ensures errors == old(errors)
    {
      var def := FlagOrDefault(flagsConfig.StoragePath, DefaultStoragePath);
      var v := LoadStringVariableFromEnv("FILE_STORAGE_PATH", Some(def));
      config := config.(DB := config.DB.(StoragePath := v));
    }

    /** WithTokenLifeTime: AUTH_TOKEN_LIFE_TIME_HOURS as an integer, else 24. */
    method WithTokenLifeTime()
      modifies this
      ensures var s := Resolve(Getenv(env, "AUTH_TOKEN_LIFE_TIME_HOURS"), Some(Itoa(DefaultTokenLifeTimeHours)));
        config == old(config).(Auth := old(config).Auth.(TokenLifeTimeHours := IntSetting(s)))
        && errors == old(errors) + IntErrors("AUTH_TOKEN_LIFE_TIME_HOURS", s)
    {
      var v := LoadIntVariableFromEnv("AUTH_TOKEN_LIFE_TIME_HOURS", DefaultTokenLifeTimeHours);
      config := config.(Auth := config.Auth.(TokenLifeTimeHours := v));
    }

    /** WithTokenSecretKey: AUTH_TOKEN_SECRET_KEY, else the built-in key. */
    method WithTokenSecretKey()
      modifies this
      ensures config == old(config).(Auth := old(config).Auth.(TokenSecretKey :=
        Resolve(Getenv(env, "AUTH_TOKEN_SECRET_KEY"), Some(DefaultTokenSecretKey))))
      ensures errors == old(errors)
    {
      var v := LoadStringVariableFromEnv("AUTH_TOKEN_SECRET_KEY", Some(DefaultTokenSecretKey));
      config := config.(Auth := config.Auth.(TokenSecretKey := v));
    }

    /** WithBaseURL: BASE_URL, else the -b flag (even an empty one), with an error when
        neither gives a value. */
    method WithBaseURL()
      modifies this
      ensures var v := Resolve(Getenv(env, "BASE_URL"), flagsConfig.BaseURL);
        config == old(config).(Server := old(config).Server.(BaseURL := v))
        && errors == old(errors) + MissingErrors("BASE_URL", v)
    {
      var v := LoadStringVariableFromEnv("BASE_URL", flagsConfig.BaseURL);
      config := config.(Server := config.Server.(BaseURL := v));
    }

    /** WithShortLinksLength: SHORT_LINKS_LENGTH as an integer, else 8. */
    method WithShortLinksLength()
      modifies this
      ensures var s := Resolve(Getenv(env, "SHORT_LINKS_LENGTH"), Some(Itoa(DefaultShortLinksLength)));
        config == old(config).(Server := old(config).Server.(ShortLinksLength := IntSetting(s)))
        && errors == old(errors) + IntErrors("SHORT_LINKS_LENGTH", s)
    {
      var v := LoadIntVariableFromEnv("SHORT_LINKS_LENGTH", DefaultShortLinksLength);
      config := config.(Server := config.Server.(ShortLinksLength := v));
    }

    /** WithLoggingLevel: LOGGING_LEVEL, else info. */
    method WithLoggingLevel()
      modifies this
      ensures config == old(config).(LoggingLevel := Resolve(Getenv(env, "LOGGING_LEVEL"), Some(DefaultLoggingLevel)))
      ensures errors == old(errors)
    {
      var v := LoadStringVariableFromEnv("LOGGING_LEVEL", Some(DefaultLoggingLevel));
      config := config.(LoggingLevel := v);
    }

    /** WithAuditFile: the -audit-file flag when set; never an error. */
    method WithAuditFile()
      modifies this
      ensures flagsConfig.AuditFile.Some? ==>
        config == old(config).(Audit := old(config).Audit.(AuditFile := flagsConfig.AuditFile.value))
      ensures flagsConfig.AuditFile.None? ==> config == old(config)
      ensures errors == old(errors)
    {
      if flagsConfig.AuditFile.Some? {
        config := config.(Audit := config.Audit.(AuditFile := flagsConfig.AuditFile.value));
      }
    }

    /** WithAuditURL: the -audit-url flag when set; never an error. */
    method WithAuditURL()
      modifies this
      ensures flagsConfig.AuditURL.Some? ==>
        config == old(config).(Audit := old(config).Audit.(AuditURL := flagsConfig.AuditURL.value))
      ensures flagsConfig.AuditURL.None? ==> config == old(config)
      ensures errors == old(errors)
    {
      if flagsConfig.AuditURL.Some? {
        config := config.(Audit := config.Audit.(AuditURL := flagsConfig.AuditURL.value));
      }
    }

    /** Build: the configuration, and the joined errors when there are any. */
    method Build() returns (c: AppConfig, err: Option<Error>)
      ensures c == config
      ensures err.None? <==> errors == []
      ensures err.Some? ==> err.value == Joined(errors)
    {
      c := config;
      err := if errors == [] then None else Some(Joined(errors));
    }
  }

  /** The -d flag when it is set and non-empty, else "". */
  function DSNFlag(flags: FlagsInitialConfig): (v: string)
    ensures flags.DB.Some? && flags.DB.value.DatabaseDSN.Some? ==> v == flags.DB.value.DatabaseDSN.value
    ensures flags.DB.None? || flags.DB.value.DatabaseDSN.None? ==> v == ""
  {
    if flags.DB.Some? then FlagOrDefault(flags.DB.value.DatabaseDSN, "") else ""
  }

  /** The errors GetConfig can meet, in the order it meets them: only the base URL and the
      DSN, which have no built-in default, can be missing, and only the two integer settings
      can fail to convert. */
  function ConfigErrors(flags: FlagsInitialConfig, env: map<string, string>): seq<Error>
  {
    MissingErrors("BASE_URL", Resolve(Getenv(env, "BASE_URL"), flags.BaseURL))
    + MissingErrors("DATABASE_CONN_STRING", Resolve(Getenv(env, "DATABASE_CONN_STRING"), Some(DSNFlag(flags))))
    + IntErrors("SHORT_LINKS_LENGTH", Resolve(Getenv(env, "SHORT_LINKS_LENGTH"), Some(Itoa(DefaultShortLinksLength))))
    + IntErrors("AUTH_TOKEN_LIFE_TIME_HOURS", Resolve(Getenv(env, "AUTH_TOKEN_LIFE_TIME_HOURS"), Some(Itoa(DefaultTokenLifeTimeHours))))
  }

  /** GetConfig: every setting taken from its variable, else its flag, else its default, and
      an error exactly when the base URL or the DSN is missing or an integer setting is not a
      decimal int64. */
  method GetConfig(flags: FlagsInitialConfig, env: map<string, string>) returns (c: AppConfig, err: Option<Error>)
    ensures c.Server.BaseURL == Resolve(Getenv(env, "BASE_URL"), flags.BaseURL)
    ensures c.DB.DatabaseDSN == Resolve(Getenv(env, "DATABASE_CONN_STRING"), Some(DSNFlag(flags)))
    ensures c.DB.StoragePath == Resolve(Getenv(env, "FILE_STORAGE_PATH"), Some(FlagOrDefault(flags.StoragePath, DefaultStoragePath)))
    ensures c.Server.Address == Resolve(Getenv(env, "SERVER_ADDRESS"), Some(FlagOrDefault(flags.StartupAddress, DefaultStartupAddress)))
    ensures c.Server.ShortLinksLength == IntSetting(Resolve(Getenv(env, "SHORT_LINKS_LENGTH"), Some(Itoa(DefaultShortLinksLength))))
    ensures c.LoggingLevel == Resolve(Getenv(env, "LOGGING_LEVEL"), Some(DefaultLoggingLevel))
    ensures c.Auth.TokenSecretKey == Resolve(Getenv(env, "AUTH_TOKEN_SECRET_KEY"), Some(DefaultTokenSecretKey))
    ensures c.Auth.TokenLifeTimeHours == IntSetting(Resolve(Getenv(env, "AUTH_TOKEN_LIFE_TIME_HOURS"), Some(Itoa(DefaultTokenLifeTimeHours))))
    ensures c.Audit.AuditFile == (if flags.AuditFile.Some? then flags.AuditFile.value else "")
    ensures c.Audit.AuditURL == (if flags.AuditURL.Some? then flags.AuditURL.value else "")
    ensures err.None? <==> ConfigErrors(flags, env) == []
    ensures err.Some? ==> err.value == Joined(ConfigErrors(flags, env))
  {
    ghost var missingBase := MissingErrors("BASE_URL", Resolve(Getenv(env, "BASE_URL"), flags.BaseURL));
    ghost var missingDSN := MissingErrors("DATABASE_CONN_STRING", Resolve(Getenv(env, "DATABASE_CONN_STRING"), Some(DSNFlag(flags))));
    ghost var badLength := IntErrors("SHORT_LINKS_LENGTH", Resolve(Getenv(env, "SHORT_LINKS_LENGTH"), Some(Itoa(DefaultShortLinksLength))));
    ghost var badLifeTime := IntErrors("AUTH_TOKEN_LIFE_TIME_HOURS", Resolve(Getenv(env, "AUTH_TOKEN_LIFE_TIME_HOURS"), Some(Itoa(DefaultTokenLifeTimeHours))));
    var b := new AppConfigBuilder(flags, env);
    b.WithBaseURL();
    b.WithDatabaseDSN();
    assert b.errors == missingBase + missingDSN;
    b.WithStoragePath();
    b.WithStartupAddress();
    b.WithShortLinksLength();
    assert b.errors == missingBase + missingDSN + badLength;
    b.WithLoggingLevel();
    b.WithTokenSecretKey();
    b.WithTokenLifeTime();
    assert b.errors == ConfigErrors(flags, env);
    ghost var server := b.config.Server;
    ghost var db := b.config.DB;
    ghost var auth := b.config.Auth;
    ghost var level := b.config.LoggingLevel;
    b.WithAuditFile();
    b.WithAuditURL();
    assert b.config.Server == server && b.config.DB == db && b.config.Auth == auth && b.config.LoggingLevel == level;
    c, err := b.Build();
  }

  /** With no environment and no flags, GetConfig yields the built-in defaults and reports
      exactly the missing base URL and DSN. */
  lemma DefaultsOnEmptyEnvironment()
    ensures var env: map<string, string> := map[];
      var flags := FlagsInitialConfig(None, None, None, None, None, None);
      && ConfigErrors(flags, env) == [NotSpecified("BASE_URL"), NotSpecified("DATABASE_CONN_STRING")]
      && Resolve(Getenv(env, "FILE_STORAGE_PATH"), Some(FlagOrDefault(flags.StoragePath, DefaultStoragePath))) == "storage.json"
      && Resolve(Getenv(env, "SERVER_ADDRESS"), Some(FlagOrDefault(flags.StartupAddress, DefaultStartupAddress))) == "localhost:8080"
      && Resolve(Getenv(env, "LOGGING_LEVEL"), Some(DefaultLoggingLevel)) == "info"
      && IntSetting(Resolve(Getenv(env, "SHORT_LINKS_LENGTH"), Some(Itoa(DefaultShortLinksLength)))) == 8
      && IntSetting(Resolve(Getenv(env, "AUTH_TOKEN_LIFE_TIME_HOURS"), Some(Itoa(DefaultTokenLifeTimeHours)))) == 24
  {
    IntDefaultApplies("SHORT_LINKS_LENGTH", DefaultShortLinksLength);
    IntDefaultApplies("AUTH_TOKEN_LIFE_TIME_HOURS", DefaultTokenLifeTimeHours);
  }

  /** A non-numeric SHORT_LINKS_LENGTH is reported as a conversion error (and leaves the
      length 0 when it is a syntax error). */
  lemma NonNumericLengthReported(flags: FlagsInitialConfig, env: map<string, string>)
    requires Getenv(env, "SHORT_LINKS_LENGTH") != "" && !AllDigits(SplitSign(Getenv(env, "SHORT_LINKS_LENGTH")).1)
    ensures ConfigErrors(flags, env) != []
    ensures exists kind :: ConversionError("SHORT_LINKS_LENGTH", Getenv(env, "SHORT_LINKS_LENGTH"), kind) in ConfigErrors(flags, env)
  {
    var s := Getenv(env, "SHORT_LINKS_LENGTH");
    AtoiSpec(s);
    var errs := IntErrors("SHORT_LINKS_LENGTH", s);
    assert errs == [ConversionError("SHORT_LINKS_LENGTH", s, Atoi(s).1.value)];
  }
}
