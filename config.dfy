/** The configuration loader of pkg/config/config.go: a YAML file read into
    a Config, then environment variables laid over it field by field. The
    file system and the YAML decoder come in from outside; the environment
    is a map, an unset variable reading as the empty string as os.Getenv
    does. Durations are whole nanoseconds. */
module Config {
  import opened Model
  import opened Strings

  datatype App = App(name: string, env: string)
  datatype Tushare = Tushare(apiKey: string, baseUrl: string, timeout: int)
  datatype TimescaleDB = TimescaleDB(host: string, port: int, user: string, password: string, dbName: string, sslMode: string)
  datatype Nats = Nats(url: string, clusterId: string, clientId: string)
  datatype ApiServer = ApiServer(port: string, readTimeout: int, writeTimeout: int)

  /** A Config's value at one moment. */
  datatype Settings = Settings(app: App, tushare: Tushare, timescaleDb: TimescaleDB, nats: Nats, api: ApiServer)

  type Env = map<string, string>

  function Getenv(env: Env, key: string): string
  {
    if key in env then env[key] else ""
  }

  const MinInt64: int := -0x8000_0000_0000_0000
  const MaxInt64: int := 0x7fff_ffff_ffff_ffff

  /** The white space fmt's scanner skips before a number: the code points
      of its own space table (tab to carriage return, space, U+0085, U+00A0,
      U+1680, U+2000 to U+200A, U+2028, U+2029, U+202F, U+205F, U+3000),
      except the newline, at which Sscanf stops with an error. */
  predicate IsScanSpace(c: char)
  {
    ('\t' <= c <= '\r' && c != '\n') || c == ' ' || c == '\U{85}' || c == '\U{A0}' || c == '\U{1680}'
    || ('\U{2000}' <= c <= '\U{200A}') || c == '\U{2028}' || c == '\U{2029}' || c == '\U{202F}'
    || c == '\U{205F}' || c == '\U{3000}'
  }

  /** The text left once the leading white space is skipped. */
  function SkipScanSpace(s: string): (r: string)
    ensures |r| <= |s| && r == s[|s| - |r|..]
    ensures forall i :: 0 <= i < |s| - |r| ==> IsScanSpace(s[i])
    ensures |r| == 0 || !IsScanSpace(r[0])
    decreases |s|
  {
    if |s| > 0 && IsScanSpace(s[0]) then SkipScanSpace(s[1..]) else s
  }

  /** fmt.Sscanf(s, "%d", &n) with a 64-bit int: leading white space is
      skipped, then the number there is read (ScanToken). */
  function ScanInt(s: string): (r: Option<int>)
    ensures r.Some? ==> MinInt64 <= r.value <= MaxInt64
    ensures AllDigits(s) && |s| > 0 ==> r == (if DigitsValue(s) <= MaxInt64 then Some(DigitsValue(s)) else None)
  {
    assert AllDigits(s) && |s| > 0 ==> SkipScanSpace(s) == s;
    ScanToken(SkipScanSpace(s))
  }

  /** An optional sign and the digits after it; anything after them is
      ignored. None when there is no digit there or the value lies outside
      int64 (strconv.ParseInt fails), both of which leave n at zero. */
  function ScanToken(t: string): (r: Option<int>)
    ensures r.Some? ==> MinInt64 <= r.value <= MaxInt64
    ensures AllDigits(t) && |t| > 0 ==> r == (if DigitsValue(t) <= MaxInt64 then Some(DigitsValue(t)) else None)
  {
    var signed := |t| > 0 && (t[0] == '+' || t[0] == '-');
    var d := DigitPrefix(if signed then t[1..] else t);
    assert AllDigits(t) && |t| > 0 ==> d == t;
    if |d| == 0 then None
    else
      var v := if signed && t[0] == '-' then -(DigitsValue(d) as int) else DigitsValue(d);
      if MinInt64 <= v <= MaxInt64 then Some(v) else None
  }

  /** White space before the number does not change what is read. */
  lemma ScanIntSkipsSpace(s: string)
    requires |s| > 0 && IsScanSpace(s[0])
    ensures ScanInt(s) == ScanInt(s[1..])
  {
    assert SkipScanSpace(s) == SkipScanSpace(s[1..]);
  }

  /** A decimal number within int64 scans back to itself. */
  lemma ScanIntOfNatToString(n: nat)
    requires n <= MaxInt64
    ensures ScanInt(NatToString(n)) == Some(n)
  {
    DigitsValueOfNatToString(n);
  }

  /** A decimal number within int64 is read whatever white space precedes it. */
  lemma {:induction false} ScanIntAfterSpace(pad: string, n: nat)
    requires forall i :: 0 <= i < |pad| ==> IsScanSpace(pad[i])
    requires n <= MaxInt64
    ensures ScanInt(pad + NatToString(n)) == Some(n)
    decreases |pad|
  {
    if |pad| == 0 {
      assert pad + NatToString(n) == NatToString(n);
      ScanIntOfNatToString(n);
    } else {
      ScanIntAfterSpace(pad[1..], n);
      assert (pad + NatToString(n))[1..] == pad[1..] + NatToString(n);
      ScanIntSkipsSpace(pad + NatToString(n));
    }
  }

  /** A decimal number past int64 is not read at all. */
  lemma ScanIntOverflow(n: nat)
    requires n > MaxInt64
    ensures ScanInt(NatToString(n)) == None
  {
    DigitsValueOfNatToString(n);
  }


  /** A non-empty variable replaces a string field verbatim; an empty or
      unset one leaves it. */
  function Override(current: string, env: Env, key: string): (r: string)
    ensures Getenv(env, key) == "" ==> r == current
    ensures Getenv(env, key) != "" ==> r == Getenv(env, key)
  {
    if Getenv(env, key) != "" then Getenv(env, key) else current
  }

  /** DB_PORT replaces the port only when it scans to a positive number. */
  function PortOverride(current: int, text: string): (r: int)
    ensures r == current || r > 0
    ensures r != current ==> text != "" && ScanInt(text) == Some(r)
  {
    if text == "" then current
    else
      var p := ScanInt(text);
      if p.Some? && p.value > 0 then p.value else current
  }

  /** The environment variables that name a string field. */
  datatype StringVar =
    | AppName | AppEnv | TushareApiKey | TushareBaseUrl | DbHost | DbUser | DbPassword | DbName
    | NatsUrl | NatsClusterId | NatsClientId | ApiPort
  {
    function Name(): string
    {
      match this
      case AppName => "APP_NAME"
      case AppEnv => "APP_ENV"
      case TushareApiKey => "TUSHARE_API_KEY"
      case TushareBaseUrl => "TUSHARE_BASE_URL"
      case DbHost => "DB_HOST"
      case DbUser => "DB_USER"
      case DbPassword => "DB_PASSWORD"
      case DbName => "DB_NAME"
      case NatsUrl => "NATS_URL"
      case NatsClusterId => "NATS_CLUSTER_ID"
      case NatsClientId => "NATS_CLIENT_ID"
      case ApiPort => "API_PORT"
    }
  }

  /** The string field a variable names. */
  function StringField(s: Settings, v: StringVar): string
  {
    match v
    case AppName => s.app.name
    case AppEnv => s.app.env
    case TushareApiKey => s.tushare.apiKey
    case TushareBaseUrl => s.tushare.baseUrl
    case DbHost => s.timescaleDb.host
    case DbUser => s.timescaleDb.user
    case DbPassword => s.timescaleDb.password
    case DbName => s.timescaleDb.dbName
    case NatsUrl => s.nats.url
    case NatsClusterId => s.nats.clusterId
    case NatsClientId => s.nats.clientId
    case ApiPort => s.api.port
  }

  /** overrideFromEnv on a value. */
  function Overridden(s: Settings, env: Env): Settings
  {
    Settings(
      App(Override(s.app.name, env, "APP_NAME"), Override(s.app.env, env, "APP_ENV")),
      s.tushare.(apiKey := Override(s.tushare.apiKey, env, "TUSHARE_API_KEY"),
                 baseUrl := Override(s.tushare.baseUrl, env, "TUSHARE_BASE_URL")),
      s.timescaleDb.(host := Override(s.timescaleDb.host, env, "DB_HOST"),
                     port := PortOverride(s.timescaleDb.port, Getenv(env, "DB_PORT")),
                     user := Override(s.timescaleDb.user, env, "DB_USER"),
                     password := Override(s.timescaleDb.password, env, "DB_PASSWORD"),
                     dbName := Override(s.timescaleDb.dbName, env, "DB_NAME")),
      Nats(Override(s.nats.url, env, "NATS_URL"), Override(s.nats.clusterId, env, "NATS_CLUSTER_ID"),
           Override(s.nats.clientId, env, "NATS_CLIENT_ID")),
      s.api.(port := Override(s.api.port, env, "API_PORT")))
  }

  /** One variable's effect: a string field is its variable's value when
      that is non-empty and the file's value otherwise. */
  lemma OverriddenField(s: Settings, env: Env, v: StringVar)
    ensures StringField(Overridden(s, env), v)
      == (if Getenv(env, v.Name()) != "" then Getenv(env, v.Name()) else StringField(s, v))
  {
    match v
    case AppName =>
    case AppEnv =>
    case TushareApiKey =>
    case TushareBaseUrl =>
    case DbHost =>
    case DbUser =>
    case DbPassword =>
    case DbName =>
    case NatsUrl =>
    case NatsClusterId =>
    case NatsClientId =>
    case ApiPort =>
  }

  /** The port follows DB_PORT's rule and the fields without a variable
      keep the file's value. */
  lemma OverriddenOthers(s: Settings, env: Env)
    ensures Overridden(s, env).timescaleDb.port == PortOverride(s.timescaleDb.port, Getenv(env, "DB_PORT"))
    ensures Overridden(s, env).tushare.timeout == s.tushare.timeout
    ensures Overridden(s, env).timescaleDb.sslMode == s.timescaleDb.sslMode
    ensures Overridden(s, env).api.readTimeout == s.api.readTimeout
    ensures Overridden(s, env).api.writeTimeout == s.api.writeTimeout
  {
  }

  /** Laying the same environment over twice changes nothing more. */
  lemma OverriddenIdempotent(s: Settings, env: Env)
    ensures Overridden(Overridden(s, env), env) == Overridden(s, env)
  {
  }

  /** An empty environment leaves the file's values. */
  lemma OverriddenEmpty(s: Settings)
    ensures Overridden(s, map[]) == s
  {
  }

  /** A Config being loaded. */
  class Config {
    var app: App
    var tushare: Tushare
    var timescaleDb: TimescaleDB
    var nats: Nats
    var api: ApiServer

    constructor (s: Settings)
      ensures Snapshot() == s
    {
      app, tushare, timescaleDb, nats, api := s.app, s.tushare, s.timescaleDb, s.nats, s.api;
    }

    function Snapshot(): Settings
      reads this
    {
      Settings(app, tushare, timescaleDb, nats, api)
    }
  }

  /** overrideFromEnv: each variable in turn, assigned in place. */
  method OverrideFromEnv(config: Config, env: Env)
    modifies config
    ensures config.Snapshot() == Overridden(old(config.Snapshot()), env)
  {
    OverrideApp(config, env);
    OverrideTushare(config, env);
    OverrideDatabase(config, env);
    OverrideNats(config, env);
    if Getenv(env, "API_PORT") != "" { config.api := config.api.(port := Getenv(env, "API_PORT")); }
  }

  method OverrideApp(config: Config, env: Env)
    modifies config`app
    ensures config.app == Overridden(old(config.Snapshot()), env).app
  {
    if Getenv(env, "APP_NAME") != "" { config.app := config.app.(name := Getenv(env, "APP_NAME")); }
    if Getenv(env, "APP_ENV") != "" { config.app := config.app.(env := Getenv(env, "APP_ENV")); }
  }

  method OverrideTushare(config: Config, env: Env)
    modifies config`tushare
    ensures config.tushare == Overridden(old(config.Snapshot()), env).tushare
  {
    if Getenv(env, "TUSHARE_API_KEY") != "" { config.tushare := config.tushare.(apiKey := Getenv(env, "TUSHARE_API_KEY")); }
    if Getenv(env, "TUSHARE_BASE_URL") != "" { config.tushare := config.tushare.(baseUrl := Getenv(env, "TUSHARE_BASE_URL")); }
  }

  method OverrideDatabase(config: Config, env: Env)
    modifies config`timescaleDb
    ensures config.timescaleDb == Overridden(old(config.Snapshot()), env).timescaleDb
  {
    if Getenv(env, "DB_HOST") != "" { config.timescaleDb := config.timescaleDb.(host := Getenv(env, "DB_HOST")); }
    var portText := Getenv(env, "DB_PORT");
    if portText != "" {
      var port := 0;
      var scanned := ScanInt(portText);
      if scanned.Some? {
        port := scanned.value;
      }
      if port > 0 {
        config.timescaleDb := config.timescaleDb.(port := port);
      }
    }
    if Getenv(env, "DB_USER") != "" { config.timescaleDb := config.timescaleDb.(user := Getenv(env, "DB_USER")); }
    if Getenv(env, "DB_PASSWORD") != "" { config.timescaleDb := config.timescaleDb.(password := Getenv(env, "DB_PASSWORD")); }
    if Getenv(env, "DB_NAME") != "" { config.timescaleDb := config.timescaleDb.(dbName := Getenv(env, "DB_NAME")); }
  }

  method OverrideNats(config: Config, env: Env)
    modifies config`nats
    ensures config.nats == Overridden(old(config.Snapshot()), env).nats
  {
    if Getenv(env, "NATS_URL") != "" { config.nats := config.nats.(url := Getenv(env, "NATS_URL")); }
    if Getenv(env, "NATS_CLUSTER_ID") != "" { config.nats := config.nats.(clusterId := Getenv(env, "NATS_CLUSTER_ID")); }
    if Getenv(env, "NATS_CLIENT_ID") != "" { config.nats := config.nats.(clientId := Getenv(env, "NATS_CLIENT_ID")); }
  }

  /** What LoadConfig yields: a read or a parse failure is reported with its
      own prefix; otherwise the parsed file with the environment over it. */
  function Loaded(path: string, readFile: string -> Result<seq<bv8>>, parseYaml: seq<bv8> -> Result<Settings>,
                  env: Env): (r: Result<Settings>)
    ensures readFile(path).Err? ==> r == Err("读取配置文件失败: " + readFile(path).error)
    ensures readFile(path).Ok? && parseYaml(readFile(path).value).Err? ==>
      r == Err("解析配置文件失败: " + parseYaml(readFile(path).value).error)
  {
    match readFile(path)
    case Err(e) => Err("读取配置文件失败: " + e)
    case Ok(data) =>
      match parseYaml(data)
      case Err(e) => Err("解析配置文件失败: " + e)
      case Ok(parsed) => Ok(Overridden(parsed, env))
  }

  /** The environment wins over the file: a non-empty variable decides its
      field whatever the file says. */
  lemma EnvironmentWins(path: string, readFile: string -> Result<seq<bv8>>, parseYaml: seq<bv8> -> Result<Settings>,
                        env: Env, v: StringVar)
    requires Loaded(path, readFile, parseYaml, env).Ok?
    requires Getenv(env, v.Name()) != ""
    ensures StringField(Loaded(path, readFile, parseYaml, env).value, v) == Getenv(env, v.Name())
  {
    OverriddenField(parseYaml(readFile(path).value).value, env, v);
  }

  /** LoadConfig. */
  method LoadConfig(path: string, readFile: string -> Result<seq<bv8>>, parseYaml: seq<bv8> -> Result<Settings>,
                    env: Env) returns (result: Result<Config>)
    ensures result.Ok? <==> Loaded(path, readFile, parseYaml, env).Ok?
    ensures result.Err? ==> result.error == Loaded(path, readFile, parseYaml, env).error
    ensures result.Ok? ==> fresh(result.value) && result.value.Snapshot() == Loaded(path, readFile, parseYaml, env).value
  {
    var data := readFile(path);
    if data.Err? {
      return Err("读取配置文件失败: " + data.error);
    }
    var parsed := parseYaml(data.value);
    if parsed.Err? {
      return Err("解析配置文件失败: " + parsed.error);
    }
    var config := new Config(parsed.value);
    OverrideFromEnv(config, env);
    return Ok(config);
  }

  /** GetDefaultConfigPath. */
  function DefaultConfigPath(env: Env): (path: string)
    ensures Getenv(env, "APP_ENV") == "" ==> path == "configs/dev/app.yaml"
    ensures Getenv(env, "APP_ENV") != "" ==>
      && |path| == |"configs/"| + |Getenv(env, "APP_ENV")| + |"/app.yaml"|
      && HasPrefix(path, "configs/") && HasSuffix(path, "/app.yaml")
      && path[|"configs/"|..|path| - |"/app.yaml"|] == Getenv(env, "APP_ENV")
  {
    var name := if Getenv(env, "APP_ENV") == "" then "dev" else Getenv(env, "APP_ENV");
    var path := "configs/" + name + "/app.yaml";
    assert path[..|"configs/"|] == "configs/";
    assert path[|path| - |"/app.yaml"|..] == "/app.yaml";
    assert path[|"configs/"|..|path| - |"/app.yaml"|] == name;
    path
  }
}
