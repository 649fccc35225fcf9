/**
 * backend/config/config.go: the server configuration record, its defaults,
 * the validator, the decision order of Load and the duration getters.
 * File access and JSON decoding are parameters of Load.
 */
module Config {
  import opened Wrappers

  datatype ServerConfig = ServerConfig(
    host: string, port: int, tcpPort: int, maxConnections: int,
    readTimeout: int, writeTimeout: int, enableCors: bool, staticFilesPath: string)

  datatype UniverseConfig = UniverseConfig(
    tickRate: int, physicsEnabled: bool, collisionEnabled: bool, maxObjects: int,
    gravityConstant: real, dragCoefficient: real, maxGravityDistance: real,
    autoSave: bool, autoSaveInterval: int)

  datatype NetworkConfig = NetworkConfig(
    heartbeatInterval: int, clientTimeout: int, maxMessageSize: int,
    compressionEnabled: bool, encryptionEnabled: bool, broadcastBatchSize: int,
    stateUpdateInterval: int, wifiSsid: string, wifiPassword: string)

  datatype PanelsConfig = PanelsConfig(
    enabled: bool, autoDiscovery: bool, maxPanels: int, heartbeatInterval: int,
    configRetryAttempts: int, deviceResponseTime: int, supportedDeviceTypes: seq<string>)

  datatype MissionsConfig = MissionsConfig(
    scriptsPath: string, autoLoad: bool, defaultMission: string, luaTimeout: int,
    maxScriptMemory: int, allowedLibraries: seq<string>)

  datatype LoggingConfig = LoggingConfig(
    level: string, outputFile: string, maxFileSize: int, maxFiles: int,
    enableConsole: bool, enableTimestamp: bool, logRequests: bool, logErrors: bool)

  datatype Config = Config(
    server: ServerConfig, universe: UniverseConfig, network: NetworkConfig,
    panels: PanelsConfig, missions: MissionsConfig, logging: LoggingConfig)

  /** The reasons validateConfig gives, one per check, in the order tried. */
  datatype ConfigError =
    | InvalidServerPort(port: int)
    | InvalidTcpPort(port: int)
    | InvalidTickRate(rate: int)
    | InvalidHeartbeatInterval(interval: int)
    | TimeoutNotGreaterThanHeartbeat
    | InvalidMaxPanels(count: int)
    | InvalidLogLevel(level: string)

  const ValidLogLevels: seq<string> := ["debug", "info", "warn", "error"]

  const DefaultConfig := Config(
    ServerConfig("0.0.0.0", 8080, 8081, 100, 60, 60, true, "./static"),
    UniverseConfig(60, true, true, 10000, 0.0000000000667430, 0.01, 100000.0, false, 300),
    NetworkConfig(30, 60, 65536, false, false, 50, 16, "Celestial_Bridge", "starship2024"),
    PanelsConfig(true, true, 20, 10, 3, 100,
      ["button", "potentiometer", "led", "7segment", "rgb_strip", "encoder", "switch"]),
    MissionsConfig("./missions", false, "tutorial.lua", 5000, 10485760, ["math", "string", "table"]),
    LoggingConfig("info", "./logs/celestial.log", 10485760, 5, true, true, true, true))

  predicate PortInRange(p: int) { 1 <= p <= 65535 }

  /**
   * validateConfig: None when every check passes, otherwise the first
   * failing check. The timeout check rejects only a timeout strictly below
   * the heartbeat interval, so equal values are accepted.
   */
  function ValidateConfig(c: Config): (r: Option<ConfigError>)
    ensures r == None <==>
      PortInRange(c.server.port) && PortInRange(c.server.tcpPort) &&
      1 <= c.universe.tickRate <= 1000 &&
      c.network.heartbeatInterval >= 1 &&
      c.network.clientTimeout >= c.network.heartbeatInterval &&
      1 <= c.panels.maxPanels <= 50 &&
      c.logging.level in ValidLogLevels
    ensures r == Some(InvalidServerPort(c.server.port)) <==> !PortInRange(c.server.port)
    ensures PortInRange(c.server.port) && !PortInRange(c.server.tcpPort) ==>
      r == Some(InvalidTcpPort(c.server.tcpPort))
    ensures (PortInRange(c.server.port) && PortInRange(c.server.tcpPort) &&
       !(1 <= c.universe.tickRate <= 1000)) ==>
      r == Some(InvalidTickRate(c.universe.tickRate))
    ensures (PortInRange(c.server.port) && PortInRange(c.server.tcpPort) &&
       1 <= c.universe.tickRate <= 1000 && c.network.heartbeatInterval < 1) ==>
      r == Some(InvalidHeartbeatInterval(c.network.heartbeatInterval))
    ensures (PortInRange(c.server.port) && PortInRange(c.server.tcpPort) &&
       1 <= c.universe.tickRate <= 1000 && c.network.heartbeatInterval >= 1 &&
       c.network.clientTimeout < c.network.heartbeatInterval) ==>
      r == Some(TimeoutNotGreaterThanHeartbeat)
    ensures (PortInRange(c.server.port) && PortInRange(c.server.tcpPort) &&
       1 <= c.universe.tickRate <= 1000 && c.network.heartbeatInterval >= 1 &&
       c.network.clientTimeout >= c.network.heartbeatInterval &&
       !(1 <= c.panels.maxPanels <= 50)) ==>
      r == Some(InvalidMaxPanels(c.panels.maxPanels))
    ensures (PortInRange(c.server.port) && PortInRange(c.server.tcpPort) &&
       1 <= c.universe.tickRate <= 1000 && c.network.heartbeatInterval >= 1 &&
       c.network.clientTimeout >= c.network.heartbeatInterval &&
       1 <= c.panels.maxPanels <= 50 && c.logging.level !in ValidLogLevels) ==>
      r == Some(InvalidLogLevel(c.logging.level))
    ensures r.Some? && r.value.InvalidLogLevel? ==> c.logging.level !in ValidLogLevels
  {
    if !PortInRange(c.server.port) then Some(InvalidServerPort(c.server.port))
    else if !PortInRange(c.server.tcpPort) then Some(InvalidTcpPort(c.server.tcpPort))
    else if c.universe.tickRate < 1 || c.universe.tickRate > 1000 then Some(InvalidTickRate(c.universe.tickRate))
    else if c.network.heartbeatInterval < 1 then Some(InvalidHeartbeatInterval(c.network.heartbeatInterval))
    else if c.network.clientTimeout < c.network.heartbeatInterval then Some(TimeoutNotGreaterThanHeartbeat)
    else if c.panels.maxPanels < 1 || c.panels.maxPanels > 50 then Some(InvalidMaxPanels(c.panels.maxPanels))
    else if !IsValidLogLevel(c.logging.level) then Some(InvalidLogLevel(c.logging.level))
    else None
  }

  /** The membership loop of validateConfig over the valid log levels, with its early exit. */
  method CheckLogLevel(level: string) returns (found: bool)
    ensures found <==> level in ValidLogLevels
  {
    found := false;
    var i := 0;
    while i < |ValidLogLevels|
      invariant 0 <= i <= |ValidLogLevels|
      invariant found <==> level in ValidLogLevels[..i]
    {
      if ValidLogLevels[i] == level {
        found := true;
        assert level in ValidLogLevels[..i + 1];
        break;
      }
      assert ValidLogLevels[..i + 1] == ValidLogLevels[..i] + [ValidLogLevels[i]];
      i := i + 1;
    }
    assert found || ValidLogLevels[..i] == ValidLogLevels;
  }

  predicate IsValidLogLevel(level: string) { level in ValidLogLevels }

  /** The shipped defaults pass validation. */
  lemma DefaultConfigIsValid()
    ensures ValidateConfig(DefaultConfig) == None
  {
    assert DefaultConfig.logging.level == ValidLogLevels[1];
  }

  /** A client timeout equal to the heartbeat interval is accepted, whatever the error text says. */
  lemma EqualTimeoutAccepted(c: Config)
    requires ValidateConfig(c) == None
    ensures ValidateConfig(c.(network := c.network.(clientTimeout := c.network.heartbeatInterval))) == None
  {
  }

  /** How the config file looks to Load: absent, unreadable, or readable with this text. */
  datatype FileState = Missing | Unreadable | Readable(contents: string)

  datatype LoadError =
    | CreateDefaultFailed
    | ReadFailed
    | ParseFailed
    | Invalid(reason: ConfigError)

  datatype LoadResult = Loaded(config: Config) | LoadFailed(error: LoadError)

  /**
   * Load: a missing file is replaced by the defaults (failing only if the
   * defaults cannot be saved); otherwise the text is read, decoded over the
   * defaults by `unmarshal`, and validated. `saveOk` is the outcome of Save.
   */
  function Load(file: FileState, saveOk: bool, unmarshal: (string, Config) -> Option<Config>): (r: LoadResult)
    ensures file.Missing? ==> r == (if saveOk then Loaded(DefaultConfig) else LoadFailed(CreateDefaultFailed))
    ensures file.Unreadable? ==> r == LoadFailed(ReadFailed)
    ensures file.Readable? && unmarshal(file.contents, DefaultConfig).None? ==> r == LoadFailed(ParseFailed)
    ensures file.Readable? && unmarshal(file.contents, DefaultConfig).Some? ==>
      var c := unmarshal(file.contents, DefaultConfig).value;
      r == (if ValidateConfig(c) == None then Loaded(c) else LoadFailed(Invalid(ValidateConfig(c).value)))
  {
    match file
    case Missing => if saveOk then Loaded(DefaultConfig) else LoadFailed(CreateDefaultFailed)
    case Unreadable => LoadFailed(ReadFailed)
    case Readable(text) =>
      match unmarshal(text, DefaultConfig)
      case None => LoadFailed(ParseFailed)
      case Some(c) =>
        match ValidateConfig(c)
        case None => Loaded(c)
        case Some(e) => LoadFailed(Invalid(e))
  }

  /** Every configuration Load hands back passes validation, including the saved defaults. */
  lemma LoadedConfigsAreValid(file: FileState, saveOk: bool, unmarshal: (string, Config) -> Option<Config>)
    requires Load(file, saveOk, unmarshal).Loaded?
    ensures ValidateConfig(Load(file, saveOk, unmarshal).config) == None
  {
    DefaultConfigIsValid();
  }

  /** GetTickDuration in milliseconds: Go's truncating 1000 / TickRate; a zero rate would panic. */
  function TickDurationMs(c: Config): (ms: int)
    requires c.universe.tickRate != 0
    ensures 0 < c.universe.tickRate ==>
      ms * c.universe.tickRate <= 1000 < (ms + 1) * c.universe.tickRate
    ensures 0 < c.universe.tickRate <= 1000 ==> 1 <= ms <= 1000
  {
    var rate := c.universe.tickRate;
    var ms := GoDiv(1000, rate);
    assert rate > 0 ==> 1000 == ms * rate + 1000 % rate && (ms + 1) * rate == ms * rate + rate;
    ms
  }

  /** Go's integer division, which truncates toward zero. */
  function GoDiv(a: int, b: int): (q: int)
    requires b != 0
    ensures Abs(q) == Abs(a) / Abs(b)
    ensures q != 0 ==> (q > 0 <==> (a > 0) == (b > 0))
    ensures a >= 0 && b > 0 ==> q == a / b
  {
    var d := Abs(a) / Abs(b);
    QuotientOfNaturals(Abs(a), Abs(b));
    if (a >= 0) == (b > 0) then d else -d
  }

  lemma QuotientOfNaturals(x: nat, y: nat)
    requires y > 0
    ensures x / y >= 0 && (x == 0 ==> x / y == 0)
  {}

  function Abs(x: int): nat { if x < 0 then -x else x }

  /** The default 60 Hz tick lasts 16 ms. */
  lemma DefaultTickDuration()
    ensures TickDurationMs(DefaultConfig) == 16
  {
  }

  /** GetHeartbeatDuration and GetClientTimeoutDuration, in seconds. */
  function HeartbeatDurationSeconds(c: Config): int { c.network.heartbeatInterval }

  function ClientTimeoutDurationSeconds(c: Config): int { c.network.clientTimeout }

  /** For a valid configuration the client timeout never undercuts the heartbeat period. */
  lemma ValidTimeoutCoversHeartbeat(c: Config)
    requires ValidateConfig(c) == None
    ensures ClientTimeoutDurationSeconds(c) >= HeartbeatDurationSeconds(c) >= 1
  {
  }
}
