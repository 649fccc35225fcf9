/**
 * Message payloads shared by the panel registry, the stations and the TCP
 * server (backend/networking/messages.go). Timestamps are seconds as reals;
 * JSON maps of arbitrary values are maps to Values.Value.
 */
module Messages {
  import Wrappers
  import MathUtils
  import Values

  /** The station kinds; a StationType is a Go string, so any string can appear. */
  const Helm := "helm"
  const Tactical := "tactical"
  const Communication := "communication"
  const Logistics := "logistics"
  const Captain := "captain"
  const GameMaster := "gamemaster"

  datatype PanelDevice = PanelDevice(id: string, dtype: string, pin: int, config: map<string, Values.Value>)

  datatype NetworkConfig = NetworkConfig(serverHost: string, serverPort: int, wifiSsid: string, wifiPass: string)

  datatype PanelConfiguration = PanelConfiguration(
    panelId: string,
    station: string,
    name: string,
    devices: seq<PanelDevice>,
    network: NetworkConfig)

  datatype PanelInputData = PanelInputData(
    panelId: string,
    deviceId: string,
    value: Values.Value,
    timestamp: real,
    context: map<string, Values.Value>)

  datatype PanelStatusData = PanelStatusData(
    panelId: string,
    status: string,
    lastSeen: real,
    deviceCount: int,
    errors: seq<string>)

  datatype InputEventData = InputEventData(
    station: string,
    action: string,
    value: Values.Value,
    timestamp: real,
    context: map<string, Values.Value>)

  datatype PanelOutputData = PanelOutputData(
    panelId: string,
    deviceId: string,
    command: string,
    value: Values.Value,
    context: map<string, Values.Value>)

  datatype UniverseObject = UniverseObject(
    id: string,
    otype: string,
    name: string,
    position: MathUtils.Vector3,
    velocity: MathUtils.Vector3,
    rotation: MathUtils.Quaternion,
    scale: MathUtils.Vector3,
    health: real,
    maxHealth: real,
    shield: real,
    maxShield: real,
    power: real,
    maxPower: real,
    mass: real,
    radius: real,
    isPlayerShip: bool,
    properties: map<string, Values.Value>)

  datatype VisualEffect = VisualEffect(
    id: string,
    etype: string,
    position: MathUtils.Vector3,
    direction: MathUtils.Vector3,
    color: (real, real, real),
    intensity: real,
    duration: real,
    timeLeft: real,
    properties: map<string, Values.Value>)

  datatype UniverseState = UniverseState(
    objects: seq<UniverseObject>,
    effects: seq<VisualEffect>,
    playerShipId: string,
    timeAcceleration: real,
    alertLevel: int,
    timestamp: real)

  /** A station's view of the state; `full` is the nil-able pointer to the whole state. */
  datatype StateUpdateData = StateUpdateData(
    full: Wrappers.Option<UniverseState>,
    objects: seq<UniverseObject>,
    effects: seq<VisualEffect>,
    removed: seq<string>,
    meta: map<string, Values.Value>)
}
