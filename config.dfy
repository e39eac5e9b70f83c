/**
 * Configuration: every setting comes from an environment variable and falls back to a
 * built-in default when the variable is unset, empty or (for numbers and durations)
 * malformed.
 */
module Config {
  import opened Wrappers
  import Decimal

  /** The process environment; a variable absent from the map is unset. */
  type Env = map<string, string>

  /** A time.Duration, in nanoseconds. */
  type Duration = int

  const Second: Duration := 1_000_000_000

  /** time.ParseDuration, which the model does not re-implement. */
  type DurationParser = string -> Option<Duration>

  datatype DatabaseConfig = DatabaseConfig(
    host: string, port: int, user: string, password: string,
    dbName: string, sslMode: string, timeZone: string)

  datatype ApiConfig = ApiConfig(
    coinGeckoBaseUrl: string, timeout: Duration, retryAttempts: int, retryDelay: Duration)

  datatype ServerConfig = ServerConfig(port: int, host: string)

  datatype LoggingConfig = LoggingConfig(level: string, format: string)

  datatype Config = Config(
    database: DatabaseConfig, api: ApiConfig, server: ServerConfig, logging: LoggingConfig)

  /** os.Getenv: an unset variable reads as the empty string. */
  function Getenv(env: Env, key: string): string
  {
    if key in env then env[key] else ""
  }

  /** A string setting: the variable when it is set to something non-empty. */
  function GetEnv(env: Env, key: string, default: string): (r: string)
    ensures key in env && env[key] != "" ==> r == env[key]
    ensures key !in env || env[key] == "" ==> r == default
    ensures r == "" ==> default == ""
  {
    var value := Getenv(env, key);
    if value != "" then value else default
  }

  /** An integer setting: the variable when strconv.Atoi accepts it, else the default. */
  function GetEnvAsInt(env: Env, key: string, default: int): (r: int)
    ensures key in env && Decimal.Atoi(env[key]).Some? ==> r == Decimal.Atoi(env[key]).value
    ensures key !in env || Decimal.Atoi(env[key]).None? ==> r == default
  {
    var value := Getenv(env, key);
    if value != "" then
      match Decimal.Atoi(value)
      case Some(n) => n
      case None => default
    else default
  }

  /** A duration setting: the variable when time.ParseDuration accepts it, else the default. */
  function GetEnvAsDuration(env: Env, key: string, default: Duration, parse: DurationParser): (r: Duration)
    ensures key in env && env[key] != "" && parse(env[key]).Some? ==> r == parse(env[key]).value
    ensures key !in env || env[key] == "" || parse(env[key]).None? ==> r == default
  {
    var value := Getenv(env, key);
    if value != "" then
      match parse(value)
      case Some(d) => d
      case None => default
    else default
  }

  /** Builds the configuration from the environment, one variable per setting. */
  function LoadConfig(env: Env, parse: DurationParser): Config
  {
    Config(
      DatabaseConfig(
        GetEnv(env, "DB_HOST", "localhost"),
        GetEnvAsInt(env, "DB_PORT", 5432),
        GetEnv(env, "DB_USER", "postgres"),
        GetEnv(env, "DB_PASSWORD", "password"),
        GetEnv(env, "DB_NAME", "cgoffline"),
        GetEnv(env, "DB_SSLMODE", "disable"),
        GetEnv(env, "DB_TIMEZONE", "UTC")),
      ApiConfig(
        GetEnv(env, "COINGECKO_BASE_URL", "https://api.coingecko.com/api/v3"),
        GetEnvAsDuration(env, "API_TIMEOUT", 30 * Second, parse),
        GetEnvAsInt(env, "API_RETRY_ATTEMPTS", 3),
        GetEnvAsDuration(env, "API_RETRY_DELAY", 1 * Second, parse)),
      ServerConfig(
        GetEnvAsInt(env, "SERVER_PORT", 8080),
        GetEnv(env, "SERVER_HOST", "0.0.0.0")),
      LoggingConfig(
        GetEnv(env, "LOG_LEVEL", "info"),
        GetEnv(env, "LOG_FORMAT", "json")))
  }

  /** The DSN handed to the Postgres driver. */
  function GetDsn(c: Config): string
  {
    "host=" + c.database.host +
    " port=" + Decimal.Itoa(c.database.port) +
    " user=" + c.database.user +
    " password=" + c.database.password +
    " dbname=" + c.database.dbName +
    " sslmode=" + c.database.sslMode +
    " TimeZone=" + c.database.timeZone
  }

  /** key=value pairs separated by single spaces, the libpq connection-string format. */
  function JoinPairs(pairs: seq<(string, string)>): string
    decreases |pairs|
  {
    if pairs == [] then ""
    else if |pairs| == 1 then pairs[0].0 + "=" + pairs[0].1
    else JoinPairs(pairs[..|pairs| - 1]) + (" " + pairs[|pairs| - 1].0 + "=") + pairs[|pairs| - 1].1
  }

  /** The seven connection parameters, in the order the DSN lists them. */
  function DsnPairs(d: DatabaseConfig): seq<(string, string)>
  {
    [("host", d.host), ("port", Decimal.Itoa(d.port)), ("user", d.user),
     ("password", d.password), ("dbname", d.dbName), ("sslmode", d.sslMode),
     ("TimeZone", d.timeZone)]
  }

  /** GetDsn is exactly the connection-string rendering of the seven parameters. */
  lemma DsnIsJoinedPairs(c: Config)
    ensures GetDsn(c) == JoinPairs(DsnPairs(c.database))
  {
    var d := c.database;
    var p := DsnPairs(d);
    var prefix := "host=" + d.host;
    assert JoinPairs(p[..1]) == prefix;
    JoinStep(p[..2], prefix, " port=");
    prefix := prefix + " port=" + Decimal.Itoa(d.port);
    assert p[..3][..2] == p[..2];
    JoinStep(p[..3], prefix, " user=");
    prefix := prefix + " user=" + d.user;
    assert p[..4][..3] == p[..3];
    JoinStep(p[..4], prefix, " password=");
    prefix := prefix + " password=" + d.password;
    assert p[..5][..4] == p[..4];
    JoinStep(p[..5], prefix, " dbname=");
    prefix := prefix + " dbname=" + d.dbName;
    assert p[..6][..5] == p[..5];
    JoinStep(p[..6], prefix, " sslmode=");
    prefix := prefix + " sslmode=" + d.sslMode;
    assert p[..7][..6] == p[..6];
    JoinStep(p[..7], prefix, " TimeZone=");
    assert p[..7] == p;
  }

  /** One more pair extends the rendering by its space, key, `=` and value. */
  lemma JoinStep(pairs: seq<(string, string)>, prefix: string, sep: string)
    requires |pairs| >= 2
    requires JoinPairs(pairs[..|pairs| - 1]) == prefix
    requires sep == " " + pairs[|pairs| - 1].0 + "="
    ensures JoinPairs(pairs) == prefix + sep + pairs[|pairs| - 1].1
  {
  }

  /** The port in the DSN reads back as the configured port. */
  lemma DsnPortRoundTrip(c: Config)
    requires Decimal.Int64Min <= c.database.port <= Decimal.Int64Max
    ensures Decimal.Atoi(DsnPairs(c.database)[1].1) == Some(c.database.port)
  {
    Decimal.AtoiItoa(c.database.port);
  }

  /** With nothing set, every setting takes its documented default. */
  lemma DefaultsWhenUnset(parse: DurationParser)
    ensures LoadConfig(map[], parse) ==
      Config(
        DatabaseConfig("localhost", 5432, "postgres", "password", "cgoffline", "disable", "UTC"),
        ApiConfig("https://api.coingecko.com/api/v3", 30 * Second, 3, 1 * Second),
        ServerConfig(8080, "0.0.0.0"),
        LoggingConfig("info", "json"))
  {
  }

  /** A set integer variable wins exactly when it parses; junk falls back silently. */
  lemma EnvIntRoundTrip(env: Env, key: string, n: int, default: int)
    requires Decimal.Int64Min <= n <= Decimal.Int64Max
    ensures GetEnvAsInt(env[key := Decimal.Itoa(n)], key, default) == n
  {
    Decimal.AtoiItoa(n);
  }
}
