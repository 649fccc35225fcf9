/**
 * The panel registry (backend/panels/manager.go): the default panel
 * configurations, the per-panel state kept by the backend, and the
 * translation of a panel's raw device input into a station input event.
 * The registry's mutex, the output callbacks and the station manager the
 * event is handed to are not part of this model: ProcessInput returns the
 * event it would hand over.
 */
module PanelManager {
  import opened Wrappers
  import Values
  import opened Messages

  /** The backend's record of one panel. */
  datatype PanelState = PanelState(
    id: string,
    name: string,
    station: string,
    isOnline: bool,
    lastSeen: real,
    configuration: PanelConfiguration,
    deviceStates: map<string, Values.Value>,
    errorCount: int,
    lastErrors: seq<string>)

  /** The state a panel is registered with: offline, never seen, no device states, no errors. */
  function FreshState(c: PanelConfiguration): PanelState
  {
    PanelState(c.panelId, c.name, c.station, false, 0.0, c, map[], 0, [])
  }

  // ----- Default configurations -----

  const BridgeNetwork := NetworkConfig("192.168.1.100", 8081, "Celestial_Bridge", "starship2024")

  function Knob(id: string, dtype: string, pin: int): PanelDevice
  {
    PanelDevice(id, dtype, pin, map["min" := Values.Int(0), "max" := Values.Int(1023)])
  }

  function Button(id: string, pin: int): PanelDevice
  {
    PanelDevice(id, "button", pin, map["pullup" := Values.Bool(true)])
  }

  function Single(id: string, dtype: string, pin: int, key: string, v: Values.Value): PanelDevice
  {
    PanelDevice(id, dtype, pin, map[key := v])
  }

  const HelmPanel := PanelConfiguration("helm_main", Helm, "Helm Control Panel", [
    Knob("throttle", "potentiometer", 34), Knob("rudder", "potentiometer", 35),
    Knob("pitch", "potentiometer", 32), Knob("roll", "potentiometer", 33),
    Button("autopilot_btn", 18),
    Single("warp_dial", "encoder", 19, "steps", Values.Int(100)),
    Single("engine_led", "led", 2, "pwm", Values.Bool(true)),
    Single("nav_display", "7segment", 4, "digits", Values.Int(4))], BridgeNetwork)

  const TacticalPanel := PanelConfiguration("tactical_weapons", Tactical, "Weapons Control Panel", [
    Button("phaser_btn", 18), Button("torpedo_btn", 19), Button("target_lock", 21),
    Knob("shield_power", "potentiometer", 34), Knob("weapon_power", "potentiometer", 35),
    Single("alert_lights", "rgb_strip", 5, "pixels", Values.Int(12)),
    Single("weapon_status", "led", 2, "pwm", Values.Bool(false)),
    Single("ammo_display", "7segment", 4, "digits", Values.Int(2))], BridgeNetwork)

  const CommPanel := PanelConfiguration("comm_main", Communication, "Communications Panel", [
    Single("freq_dial", "encoder", 18, "steps", Values.Int(999)),
    Button("transmit_btn", 19), Button("emergency_btn", 21),
    Single("channel_sel", "rotary_switch", 22, "positions", Values.Int(8)),
    Single("signal_strength", "led_bar", 23, "leds", Values.Int(10)),
    Single("freq_display", "7segment", 4, "digits", Values.Int(4)),
    Single("status_led", "led", 2, "pwm", Values.Bool(false))], BridgeNetwork)

  const EngineeringPanel := PanelConfiguration("engineering_power", Logistics, "Power Management Panel", [
    Knob("engines_power", "slider", 34), Knob("shields_power", "slider", 35),
    Knob("weapons_power", "slider", 32), Knob("life_support_power", "slider", 33),
    Button("repair_btn", 18), Button("emergency_power", 19),
    Single("power_display", "7segment", 4, "digits", Values.Int(3)),
    Single("system_leds", "led_array", 5, "count", Values.Int(8))], BridgeNetwork)

  const CaptainPanel := PanelConfiguration("captain_console", Captain, "Captain's Console", [
    Button("red_alert", 18), Button("yellow_alert", 19), Button("all_stop", 21),
    Button("general_quarters", 22),
    Single("camera_select", "rotary_switch", 23, "positions", Values.Int(6)),
    Single("bridge_lights", "rgb_strip", 5, "pixels", Values.Int(20)),
    Single("alert_klaxon", "buzzer", 25, "frequency", Values.Int(440))], BridgeNetwork)

  const DefaultConfigurations := [HelmPanel, TacticalPanel, CommPanel, EngineeringPanel, CaptainPanel]

  const DefaultPanelIds := {"helm_main", "tactical_weapons", "comm_main", "engineering_power", "captain_console"}

  /** The configuration map after registering configs in order: a later entry overwrites an earlier one. */
  function ConfigsFrom(configs: seq<PanelConfiguration>): map<string, PanelConfiguration>
  {
    if configs == [] then map[]
    else ConfigsFrom(configs[..|configs| - 1])[configs[|configs| - 1].panelId := configs[|configs| - 1]]
  }

  /** The panel state map after registering configs in order. */
  function PanelsFrom(configs: seq<PanelConfiguration>): map<string, PanelState>
  {
    if configs == [] then map[]
    else PanelsFrom(configs[..|configs| - 1])[configs[|configs| - 1].panelId := FreshState(configs[|configs| - 1])]
  }

  /**
   * Registering a list of configurations registers exactly their ids, each
   * panel under its own id, offline, with no device states and no errors,
   * and holding the configuration stored under the same id.
   */
  lemma {:induction false} RegisteredPanels(configs: seq<PanelConfiguration>)
    ensures ConfigsFrom(configs).Keys == PanelsFrom(configs).Keys == set c | c in configs :: c.panelId
    ensures forall id :: id in PanelsFrom(configs) ==>
      PanelsFrom(configs)[id] == FreshState(ConfigsFrom(configs)[id]) && ConfigsFrom(configs)[id].panelId == id
  {
    if configs != [] {
      var init := configs[..|configs| - 1];
      RegisteredPanels(init);
      assert configs == init + [configs[|configs| - 1]];
      assert (set c | c in configs :: c.panelId) == (set c | c in init :: c.panelId) + {configs[|configs| - 1].panelId};
    }
  }

  /** The five default panels are registered, offline and empty. */
  lemma DefaultRegistry()
    ensures PanelsFrom(DefaultConfigurations).Keys == DefaultPanelIds
    ensures forall id :: id in PanelsFrom(DefaultConfigurations) ==>
      var p := PanelsFrom(DefaultConfigurations)[id];
      p.id == id && !p.isOnline && p.deviceStates == map[] && p.errorCount == 0 && p.lastErrors == []
  {
    RegisteredPanels(DefaultConfigurations);
    FiveIds(HelmPanel, TacticalPanel, CommPanel, EngineeringPanel, CaptainPanel);
  }

  lemma FiveIds(a: PanelConfiguration, b: PanelConfiguration, c: PanelConfiguration, d: PanelConfiguration, e: PanelConfiguration)
    ensures (set x | x in [a, b, c, d, e] :: x.panelId) == {a.panelId, b.panelId, c.panelId, d.panelId, e.panelId}
  {
    var s := [a, b, c, d, e];
    assert s[0] == a && s[1] == b && s[2] == c && s[3] == d && s[4] == e;
  }

  // ----- Device lookup, action mapping and value scaling -----

  /** The index of the first device with this id. */
  function DeviceIndex(devices: seq<PanelDevice>, id: string): (r: Option<nat>)
    ensures r.None? <==> forall k :: 0 <= k < |devices| ==> devices[k].id != id
    ensures r.Some? ==> r.value < |devices| && devices[r.value].id == id &&
                        forall k :: 0 <= k < r.value ==> devices[k].id != id
  {
    if devices == [] then None
    else if devices[0].id == id then Some(0)
    else match DeviceIndex(devices[1..], id)
      case None => None
      case Some(k) => Some(k + 1)
  }

  const HelmActions := map["throttle" := "throttle", "rudder" := "rudder", "pitch" := "pitch", "roll" := "roll",
                           "autopilot_btn" := "autopilot_mode", "warp_dial" := "warp_factor"]
  const TacticalActions := map["phaser_btn" := "fire_weapon", "torpedo_btn" := "fire_weapon",
                               "target_lock" := "target_lock", "shield_power" := "shield_power",
                               "weapon_power" := "weapon_power"]
  const CommActions := map["freq_dial" := "set_frequency", "transmit_btn" := "send_message",
                           "emergency_btn" := "emergency_broadcast", "channel_sel" := "comm_channel"]
  const LogisticsActions := map["engines_power" := "power_allocation", "shields_power" := "power_allocation",
                                "weapons_power" := "power_allocation", "life_support_power" := "power_allocation",
                                "repair_btn" := "repair_system", "emergency_power" := "emergency_power"]
  const CaptainActions := map["red_alert" := "alert_level", "yellow_alert" := "alert_level",
                              "all_stop" := "emergency_stop", "general_quarters" := "general_quarters",
                              "camera_select" := "camera_control"]

  /** The device-to-action table of a station; the Game Master and unknown stations have none. */
  function StationTable(station: string): Option<map<string, string>>
  {
    if station == Helm then Some(HelmActions)
    else if station == Tactical then Some(TacticalActions)
    else if station == Communication then Some(CommActions)
    else if station == Logistics then Some(LogisticsActions)
    else if station == Captain then Some(CaptainActions)
    else None
  }

  /** A table lookup that falls back to the key itself. */
  function MapOrSelf(table: map<string, string>, key: string): string
  {
    if key in table then table[key] else key
  }

  /**
   * mapDeviceToAction: a device of the panel's configuration takes its
   * action from the station's table, falling back to the device id; a
   * device the configuration does not list, or a station without a table,
   * keeps its id.
   */
  function ActionFor(deviceId: string, config: PanelConfiguration): (a: string)
    ensures DeviceIndex(config.devices, deviceId).None? || StationTable(config.station).None? ==> a == deviceId
    ensures DeviceIndex(config.devices, deviceId).Some? && StationTable(config.station).Some? ==>
      a == MapOrSelf(StationTable(config.station).value, deviceId)
  {
    if DeviceIndex(config.devices, deviceId).Some? && StationTable(config.station).Some?
    then MapOrSelf(StationTable(config.station).value, deviceId)
    else deviceId
  }

  /** (raw - min) / (max - min) for a proper range, otherwise 0. */
  function Normalized(raw: real, min: real, max: real): (r: real)
  {
    if max > min then (raw - min) / (max - min) else 0.0
  }

  /** A reading inside a proper range normalises into [0, 1], its ends to 0 and 1. */
  lemma NormalizedInUnit(raw: real, min: real, max: real)
    requires min < max && min <= raw <= max
    ensures 0.0 <= Normalized(raw, min, max) <= 1.0
    ensures Normalized(min, min, max) == 0.0 && Normalized(max, min, max) == 1.0
  {
    UnitQuotient(raw - min, max - min);
    assert (max - min) / (max - min) == 1.0;
  }

  lemma UnitQuotient(a: real, b: real)
    requires 0.0 <= a <= b && 0.0 < b
    ensures 0.0 <= a / b <= 1.0
  {
    var q := a / b;
    assert q * b == a;
  }

  /** raw / steps for a non-zero step count, otherwise 0. */
  function PerStep(raw: real, steps: real): real
  {
    if steps != 0.0 then raw / steps else 0.0
  }

  /**
   * processDeviceValue: the first device with the id decides. Knobs
   * (potentiometer, slider) normalise by their min/max config, encoders
   * divide by their step count, every other type and an unlisted device
   * pass the value through.
   */
  function ValueFor(deviceId: string, value: Values.Value, config: PanelConfiguration): (v: Values.Value)
    ensures DeviceIndex(config.devices, deviceId).None? ==> v == value
    ensures DeviceIndex(config.devices, deviceId).Some? ==>
      var d := config.devices[DeviceIndex(config.devices, deviceId).value];
      (d.dtype == "potentiometer" || d.dtype == "slider" ==>
         v == Values.Float(Normalized(Values.ToFloat64(value), Values.ToFloat64(Values.Lookup(d.config, "min")),
                                      Values.ToFloat64(Values.Lookup(d.config, "max"))))) &&
      (d.dtype == "encoder" ==>
         v == Values.Float(PerStep(Values.ToFloat64(value), Values.ToFloat64(Values.Lookup(d.config, "steps"))))) &&
      (d.dtype != "potentiometer" && d.dtype != "slider" && d.dtype != "encoder" ==> v == value)
  {
    match DeviceIndex(config.devices, deviceId)
    case None => value
    case Some(k) =>
      var d := config.devices[k];
      var raw := Values.ToFloat64(value);
      if d.dtype == "potentiometer" || d.dtype == "slider" then
        Values.Float(Normalized(raw, Values.ToFloat64(Values.Lookup(d.config, "min")),
                                Values.ToFloat64(Values.Lookup(d.config, "max"))))
      else if d.dtype == "encoder" then
        Values.Float(PerStep(raw, Values.ToFloat64(Values.Lookup(d.config, "steps"))))
      else value
  }

  /** A listed device of a station with a table takes the table's action, falling back to its id. */
  lemma TableAction(id: string, c: PanelConfiguration, t: map<string, string>)
    requires DeviceIndex(c.devices, id).Some? && StationTable(c.station) == Some(t)
    ensures ActionFor(id, c) == MapOrSelf(t, id)
  {}

  /** The value of the device at index k, when k is the first index with this id. */
  lemma ListedValue(id: string, value: Values.Value, c: PanelConfiguration, k: nat)
    requires DeviceIndex(c.devices, id) == Some(k)
    ensures k < |c.devices| && c.devices[k].id == id
    ensures c.devices[k].dtype == "potentiometer" || c.devices[k].dtype == "slider" ==>
      ValueFor(id, value, c) == Values.Float(Normalized(Values.ToFloat64(value),
        Values.ToFloat64(Values.Lookup(c.devices[k].config, "min")), Values.ToFloat64(Values.Lookup(c.devices[k].config, "max"))))
    ensures c.devices[k].dtype == "encoder" ==>
      ValueFor(id, value, c) == Values.Float(PerStep(Values.ToFloat64(value), Values.ToFloat64(Values.Lookup(c.devices[k].config, "steps"))))
    ensures c.devices[k].dtype != "potentiometer" && c.devices[k].dtype != "slider" && c.devices[k].dtype != "encoder" ==>
      ValueFor(id, value, c) == value
  {}

  /** A listed device without a table entry keeps its id. */
  lemma UnmappedKeepsId(id: string, c: PanelConfiguration, t: map<string, string>)
    requires DeviceIndex(c.devices, id).Some? && StationTable(c.station) == Some(t) && id !in t
    ensures ActionFor(id, c) == id
  {}

  /** A device whose id no earlier device has is the first with it. */
  lemma FirstDevice(ds: seq<PanelDevice>, id: string, k: nat)
    requires k < |ds| && ds[k].id == id && forall j :: 0 <= j < k ==> ds[j].id != id
    ensures DeviceIndex(ds, id) == Some(k)
  {
    var r := DeviceIndex(ds, id);
    assert r.Some?;
  }

  /** On the tactical panel both buttons fire a weapon. */
  lemma TacticalButtonsFire()
    ensures ActionFor("phaser_btn", TacticalPanel) == "fire_weapon"
    ensures ActionFor("torpedo_btn", TacticalPanel) == "fire_weapon"
  {
    TacticalListsButtons();
    TableAction("phaser_btn", TacticalPanel, TacticalActions);
    TableAction("torpedo_btn", TacticalPanel, TacticalActions);
  }

  lemma TacticalListsButtons()
    ensures DeviceIndex(TacticalPanel.devices, "phaser_btn").Some?
    ensures DeviceIndex(TacticalPanel.devices, "torpedo_btn").Some?
  {
    var ds := TacticalPanel.devices;
    assert ds[0].id == "phaser_btn" && ds[1].id == "torpedo_btn";
  }

  /** A helm device without a table entry, and a device the helm panel does not list, keep their ids. */
  lemma HelmFallbacks()
    ensures ActionFor("engine_led", HelmPanel) == "engine_led"
    ensures ActionFor("red_alert", HelmPanel) == "red_alert"
  {
    HelmListsEngineLed();
    UnmappedKeepsId("engine_led", HelmPanel, HelmActions);
    HelmLacksRedAlert();
  }

  lemma HelmListsEngineLed()
    ensures DeviceIndex(HelmPanel.devices, "engine_led").Some?
  {
    assert HelmPanel.devices[6].id == "engine_led";
  }

  lemma HelmLacksRedAlert()
    ensures DeviceIndex(HelmPanel.devices, "red_alert").None?
  {
    var ds := HelmPanel.devices;
    assert forall k :: 0 <= k < |ds| ==> ds[k].id != "red_alert" by {
      assert ds[5].id == "warp_dial";
    }
  }

  /** The helm throttle reads 0 to 1 over its 0..1023 range, and 0 for a non-number. */
  lemma ThrottleScaling()
    ensures ValueFor("throttle", Values.Int(1023), HelmPanel) == Values.Float(1.0)
    ensures ValueFor("throttle", Values.Int(0), HelmPanel) == Values.Float(0.0)
    ensures ValueFor("throttle", Values.Str("x"), HelmPanel) == Values.Float(0.0)
  {
    HelmThrottleFirst();
    ListedValue("throttle", Values.Int(1023), HelmPanel, 0);
    ListedValue("throttle", Values.Int(0), HelmPanel, 0);
    ListedValue("throttle", Values.Str("x"), HelmPanel, 0);
  }

  lemma HelmThrottleFirst()
    ensures DeviceIndex(HelmPanel.devices, "throttle") == Some(0)
  {
    assert HelmPanel.devices[0].id == "throttle";
  }

  /** The warp dial divides by its 100 steps; the autopilot button's value passes through. */
  lemma DialAndButtonValues()
    ensures ValueFor("warp_dial", Values.Float(50.0), HelmPanel) == Values.Float(0.5)
    ensures ValueFor("autopilot_btn", Values.Bool(true), HelmPanel) == Values.Bool(true)
  {
    WarpDialValue();
    AutopilotValue();
  }

  lemma WarpDialValue()
    ensures ValueFor("warp_dial", Values.Float(50.0), HelmPanel) == Values.Float(0.5)
  {
    HelmWarpDialFirst();
    ListedValue("warp_dial", Values.Float(50.0), HelmPanel, 5);
  }

  lemma AutopilotValue()
    ensures ValueFor("autopilot_btn", Values.Bool(true), HelmPanel) == Values.Bool(true)
  {
    HelmAutopilotFirst();
    ListedValue("autopilot_btn", Values.Bool(true), HelmPanel, 4);
  }

  lemma HelmWarpDialFirst()
    ensures DeviceIndex(HelmPanel.devices, "warp_dial") == Some(5)
  {
    var ds := HelmPanel.devices;
    assert ds[0].id == "throttle" && ds[1].id == "rudder" && ds[2].id == "pitch" && ds[3].id == "roll";
    assert ds[4].id == "autopilot_btn" && ds[5].id == "warp_dial";
    FirstDevice(ds, "warp_dial", 5);
  }

  lemma HelmAutopilotFirst()
    ensures DeviceIndex(HelmPanel.devices, "autopilot_btn") == Some(4)
  {
    var ds := HelmPanel.devices;
    assert ds[0].id == "throttle" && ds[1].id == "rudder" && ds[2].id == "pitch" && ds[3].id == "roll";
    assert ds[4].id == "autopilot_btn";
    FirstDevice(ds, "autopilot_btn", 4);
  }

  /** The Game Master's panels, having no table, send device ids as actions. */
  lemma GameMasterActionsAreDeviceIds(deviceId: string, config: PanelConfiguration)
    requires config.station == GameMaster
    ensures ActionFor(deviceId, config) == deviceId
  {
  }

  /** mapDeviceToAction's scan over the configured devices. */
  method MapDeviceToAction(deviceId: string, config: PanelConfiguration) returns (a: string)
    ensures a == ActionFor(deviceId, config)
  {
    var i := 0;
    while i < |config.devices|
      invariant i <= |config.devices|
      invariant StationTable(config.station).Some? ==> forall k :: 0 <= k < i ==> config.devices[k].id != deviceId
    {
      if config.devices[i].id == deviceId {
        var table := StationTable(config.station);
        if table.Some? {
          return MapOrSelf(table.value, deviceId);
        }
      }
      i := i + 1;
    }
    return deviceId;
  }

  /** processDeviceValue's scan over the configured devices. */
  method ProcessDeviceValue(deviceId: string, value: Values.Value, config: PanelConfiguration) returns (v: Values.Value)
    ensures v == ValueFor(deviceId, value, config)
  {
    var i := 0;
    while i < |config.devices|
      invariant i <= |config.devices|
      invariant forall k :: 0 <= k < i ==> config.devices[k].id != deviceId
    {
      var d := config.devices[i];
      if d.id == deviceId {
        FirstDevice(config.devices, deviceId, i);
        ListedValue(deviceId, value, config, i);
        var raw := Values.ToFloat64(value);
        if d.dtype == "potentiometer" || d.dtype == "slider" {
          var min := Values.ToFloat64(Values.Lookup(d.config, "min"));
          var max := Values.ToFloat64(Values.Lookup(d.config, "max"));
          if max > min {
            return Values.Float((raw - min) / (max - min));
          }
          return Values.Float(0.0);
        } else if d.dtype == "encoder" {
          var steps := Values.ToFloat64(Values.Lookup(d.config, "steps"));
          if steps != 0.0 {
            return Values.Float(raw / steps);
          }
          return Values.Float(0.0);
        }
        return value;
      }
      i := i + 1;
    }
    return value;
  }

  // ----- Registry transitions -----

  /** Every registered panel holds the configuration stored under its id, and carries its id. */
  predicate ConsistentMaps(panels: map<string, PanelState>, configurations: map<string, PanelConfiguration>)
  {
    forall id :: id in panels ==>
      id in configurations && panels[id].configuration == configurations[id] && panels[id].id == id
  }

  /** SetPanelOnline's effect on the panel map. */
  function MarkedOnline(panels: map<string, PanelState>, id: string, now: real): map<string, PanelState>
  {
    if id in panels then panels[id := panels[id].(isOnline := true, lastSeen := now)] else panels
  }

  /** SetPanelOffline's effect on the panel map. */
  function MarkedOffline(panels: map<string, PanelState>, id: string): map<string, PanelState>
  {
    if id in panels then panels[id := panels[id].(isOnline := false)] else panels
  }

  /** UpdatePanelStatus's effect on the panel map. */
  function StatusRecorded(panels: map<string, PanelState>, id: string, status: PanelStatusData): map<string, PanelState>
  {
    if id in panels
    then panels[id := panels[id].(lastSeen := status.lastSeen, errorCount := |status.errors|, lastErrors := status.errors)]
    else panels
  }

  /** Whether ProcessInput acts on an input: its panel is registered and online. */
  predicate Accepts(panels: map<string, PanelState>, input: PanelInputData)
  {
    input.panelId in panels && panels[input.panelId].isOnline
  }

  /** ProcessInput's effect on the panel map: the device's latest raw value. */
  function InputRecorded(panels: map<string, PanelState>, input: PanelInputData): map<string, PanelState>
  {
    if Accepts(panels, input)
    then
      var p := panels[input.panelId];
      panels[input.panelId := p.(deviceStates := p.deviceStates[input.deviceId := input.value])]
    else panels
  }

  /** The station event ProcessInput hands on, if any. */
  function EventFor(panels: map<string, PanelState>, input: PanelInputData): Option<InputEventData>
  {
    if Accepts(panels, input)
    then
      var p := panels[input.panelId];
      Some(InputEventData(p.station, ActionFor(input.deviceId, p.configuration),
                          ValueFor(input.deviceId, input.value, p.configuration),
                          input.timestamp, input.context))
    else None
  }

  /**
   * The online flag moves only for a registered panel, and only that
   * panel's entry changes; the map's keys never change.
   */
  lemma OnlineFlag(panels: map<string, PanelState>, id: string, now: real)
    ensures MarkedOnline(panels, id, now).Keys == panels.Keys == MarkedOffline(panels, id).Keys
    ensures id in panels ==> MarkedOnline(panels, id, now)[id].isOnline && !MarkedOffline(panels, id)[id].isOnline
    ensures id !in panels ==> MarkedOnline(panels, id, now) == panels == MarkedOffline(panels, id)
    ensures forall other :: other in panels && other != id ==>
      MarkedOnline(panels, id, now)[other] == panels[other] == MarkedOffline(panels, id)[other]
  {
  }

  /** A status report leaves the error count equal to the number of errors it reported. */
  lemma StatusCountsErrors(panels: map<string, PanelState>, id: string, status: PanelStatusData)
    requires id in panels
    ensures StatusRecorded(panels, id, status)[id].errorCount == |status.errors|
    ensures StatusRecorded(panels, id, status)[id].lastErrors == status.errors
  {
  }

  /**
   * Input from an unknown or offline panel is dropped without a trace; an
   * accepted one records the raw value and yields an event for the panel's
   * station.
   */
  lemma InputGate(panels: map<string, PanelState>, input: PanelInputData)
    ensures EventFor(panels, input).None? <==> !Accepts(panels, input)
    ensures !Accepts(panels, input) ==> InputRecorded(panels, input) == panels
    ensures Accepts(panels, input) ==>
      InputRecorded(panels, input)[input.panelId].deviceStates[input.deviceId] == input.value &&
      EventFor(panels, input).value.station == panels[input.panelId].station
  {
  }

  /** Every registry operation keeps each panel tied to the configuration stored under its id. */
  lemma TransitionsKeepConsistency(panels: map<string, PanelState>, configurations: map<string, PanelConfiguration>,
                                   id: string, now: real, status: PanelStatusData, input: PanelInputData)
    requires ConsistentMaps(panels, configurations)
    ensures ConsistentMaps(MarkedOnline(panels, id, now), configurations)
    ensures ConsistentMaps(MarkedOffline(panels, id), configurations)
    ensures ConsistentMaps(StatusRecorded(panels, id, status), configurations)
    ensures ConsistentMaps(InputRecorded(panels, input), configurations)
    ensures ConsistentMaps(panels - {id}, configurations - {id})
  {
    FlagsKeepConsistency(panels, configurations, id, now);
    StatusKeepsConsistency(panels, configurations, id, status);
    InputKeepsConsistency(panels, configurations, input);
  }

  lemma FlagsKeepConsistency(panels: map<string, PanelState>, configurations: map<string, PanelConfiguration>,
                             id: string, now: real)
    requires ConsistentMaps(panels, configurations)
    ensures ConsistentMaps(MarkedOnline(panels, id, now), configurations)
    ensures ConsistentMaps(MarkedOffline(panels, id), configurations)
  {}

  lemma StatusKeepsConsistency(panels: map<string, PanelState>, configurations: map<string, PanelConfiguration>,
                               id: string, status: PanelStatusData)
    requires ConsistentMaps(panels, configurations)
    ensures ConsistentMaps(StatusRecorded(panels, id, status), configurations)
  {}

  lemma InputKeepsConsistency(panels: map<string, PanelState>, configurations: map<string, PanelConfiguration>,
                              input: PanelInputData)
    requires ConsistentMaps(panels, configurations)
    ensures ConsistentMaps(InputRecorded(panels, input), configurations)
  {}

  class Manager {
    var panels: map<string, PanelState>
    var configurations: map<string, PanelConfiguration>

    predicate Consistent()
      reads this
    {
      ConsistentMaps(panels, configurations)
    }

    /** NewPanelManager registers the default configurations. */
    constructor ()
      ensures configurations == ConfigsFrom(DefaultConfigurations)
      ensures panels == PanelsFrom(DefaultConfigurations)
      ensures panels.Keys == DefaultPanelIds && Consistent()
    {
      panels := map[];
      configurations := map[];
      new;
      InitializeDefaultConfigurations();
      DefaultRegistry();
      RegisteredPanels(DefaultConfigurations);
    }

    /** initializeDefaultConfigurations: the panels of the list registered in order. */
    method InitializeDefaultConfigurations()
      requires panels == map[] && configurations == map[]
      modifies this`panels, this`configurations
      ensures configurations == ConfigsFrom(DefaultConfigurations)
      ensures panels == PanelsFrom(DefaultConfigurations)
    {
      var configs := DefaultConfigurations;
      var i := 0;
      while i < |configs|
        invariant i <= |configs|
        invariant configurations == ConfigsFrom(configs[..i]) && panels == PanelsFrom(configs[..i])
      {
        var config := configs[i];
        assert configs[..i + 1][..i] == configs[..i];
        configurations := configurations[config.panelId := config];
        panels := panels[config.panelId := FreshState(config)];
        i := i + 1;
      }
      assert configs[..i] == configs;
    }

    /** GetPanelConfiguration: the stored configuration, or none. */
    function GetPanelConfiguration(panelId: string): (r: Option<PanelConfiguration>)
      reads this
      ensures r.Some? <==> panelId in configurations
      ensures r.Some? ==> r.value == configurations[panelId]
    {
      if panelId in configurations then Some(configurations[panelId]) else None
    }

    /** SetPanelOnline marks a registered panel online and seen now; unknown ids change nothing. */
    method SetPanelOnline(panelId: string, now: real)
      modifies this`panels
      ensures panels == MarkedOnline(old(panels), panelId, now)
    {
      if panelId in panels {
        panels := panels[panelId := panels[panelId].(isOnline := true, lastSeen := now)];
      }
    }

    /** SetPanelOffline marks a registered panel offline; unknown ids change nothing. */
    method SetPanelOffline(panelId: string)
      modifies this`panels
      ensures panels == MarkedOffline(old(panels), panelId)
    {
      if panelId in panels {
        panels := panels[panelId := panels[panelId].(isOnline := false)];
      }
    }

    /** UpdatePanelStatus records the reported errors and their number, and the reported last-seen time. */
    method UpdatePanelStatus(panelId: string, status: PanelStatusData)
      modifies this`panels
      ensures panels == StatusRecorded(old(panels), panelId, status)
    {
      if panelId in panels {
        panels := panels[panelId := panels[panelId].(lastSeen := status.lastSeen,
                                                     errorCount := |status.errors|,
                                                     lastErrors := status.errors)];
      }
    }

    /**
     * ProcessInput: input from an unknown or offline panel is dropped.
     * Otherwise the device's state is recorded and the station event is
     * returned: the panel's station, the mapped action, the scaled value
     * and the input's timestamp and context.
     */
    method ProcessInput(input: PanelInputData) returns (event: Option<InputEventData>)
      modifies this`panels
      ensures panels == InputRecorded(old(panels), input)
      ensures event == EventFor(old(panels), input)
    {
      if input.panelId !in panels || !panels[input.panelId].isOnline {
        return None;
      }
      var p := panels[input.panelId];
      panels := panels[input.panelId := p.(deviceStates := p.deviceStates[input.deviceId := input.value])];
      var action := MapDeviceToAction(input.deviceId, p.configuration);
      var value := ProcessDeviceValue(input.deviceId, input.value, p.configuration);
      event := Some(InputEventData(p.station, action, value, input.timestamp, input.context));
    }

    /** GetOnlinePanels: each online panel's id exactly once, in map order. */
    method GetOnlinePanels() returns (online: seq<string>)
      ensures forall id :: id in online <==> id in panels && panels[id].isOnline
      ensures forall i, j :: 0 <= i < j < |online| ==> online[i] != online[j]
    {
      online := [];
      var todo := panels.Keys;
      while todo != {}
        invariant todo <= panels.Keys
        invariant forall id :: id in online <==> id in panels && id !in todo && panels[id].isOnline
        invariant forall i, j :: 0 <= i < j < |online| ==> online[i] != online[j]
        decreases todo
      {
        var id :| id in todo;
        if panels[id].isOnline {
          online := online + [id];
        }
        todo := todo - {id};
      }
    }

    /**
     * UpdatePanelConfiguration always stores the configuration; a
     * registered panel takes it over with its name and station.
     */
    method UpdatePanelConfiguration(panelId: string, config: PanelConfiguration)
      modifies this`panels, this`configurations
      ensures configurations == old(configurations)[panelId := config]
      ensures panelId in old(panels) ==>
        panels == old(panels)[panelId := old(panels)[panelId].(configuration := config, name := config.name, station := config.station)]
      ensures panelId !in old(panels) ==> panels == old(panels)
      ensures old(Consistent()) ==> Consistent()
    {
      configurations := configurations[panelId := config];
      if panelId in panels {
        panels := panels[panelId := panels[panelId].(configuration := config, name := config.name, station := config.station)];
      }
    }

    /** RemovePanel deletes the id from both maps. */
    method RemovePanel(panelId: string)
      modifies this`panels, this`configurations
      ensures panels == old(panels) - {panelId} && configurations == old(configurations) - {panelId}
      ensures old(Consistent()) ==> Consistent()
    {
      panels := panels - {panelId};
      configurations := configurations - {panelId};
    }
  }
}
