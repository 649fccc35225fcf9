/**
 * The station registry (backend/stations/stations.go): the six bridge
 * stations with their permission lists, the permission check, the gate in
 * front of each station's input handler, and the per-station input
 * validators. The handlers themselves are in the StationHandlers module;
 * HandleInput here decides whether the handler runs and records the time.
 */
module Stations {
  import Values
  import opened Messages

  datatype StationData = StationData(
    stype: string,
    name: string,
    description: string,
    permissions: seq<string>,
    inputMapping: map<string, string>,
    lastUpdate: real,
    isActive: bool)

  const OverrideAll := "override_all"

  const HelmStation := StationData(Helm, "Helm Control", "Ship navigation, movement, and autopilot systems",
    ["navigation", "autopilot", "engines", "time_acceleration"],
    map["throttle" := "engine_throttle", "rudder" := "ship_rudder", "pitch" := "ship_pitch", "roll" := "ship_roll",
        "autopilot_mode" := "autopilot_control", "warp_factor" := "time_acceleration",
        "desired_heading" := "navigation_heading"], 0.0, true)

  const TacticalStation := StationData(Tactical, "Tactical Systems", "Weapons, shields, and combat operations",
    ["weapons", "shields", "targeting", "tactical_sensors"],
    map["weapon_type" := "weapon_selection", "target_id" := "target_lock", "fire_command" := "weapon_fire",
        "shield_power" := "shield_allocation", "weapon_power" := "weapon_allocation",
        "torpedo_type" := "torpedo_selection"], 0.0, true)

  const CommunicationStation := StationData(Communication, "Communications", "Ship-to-ship communications and message handling",
    ["communications", "messages", "alerts", "broadcasts"],
    map["frequency" := "comm_frequency", "message" := "comm_message", "target_ship_id" := "comm_target",
        "broadcast_type" := "comm_broadcast", "priority" := "comm_priority",
        "auto_response" := "comm_auto_response"], 0.0, true)

  const LogisticsStation := StationData(Logistics, "Engineering & Logistics", "Power management, repairs, and resource allocation",
    ["power_management", "repairs", "crew_management", "systems"],
    map["power_allocation" := "power_grid", "repair_priority" := "repair_queue",
        "crew_assignment" := "crew_stations", "system_priority" := "system_priorities"], 0.0, true)

  const CaptainStation := StationData(Captain, "Captain's Chair", "Emergency controls and ship-wide systems",
    ["emergency", "startup_sequence", "cameras", "ship_wide_controls"],
    map["alert_level" := "ship_alert", "emergency_power" := "emergency_systems",
        "startup_sequence" := "ship_startup", "camera_selection" := "viewscreen_camera",
        "general_quarters" := "battle_stations"], 0.0, true)

  const GameMasterStation := StationData(GameMaster, "Game Master Console", "Mission control and universe administration",
    ["admin", "spawn_objects", "mission_control", OverrideAll],
    map["spawn_object" := "gm_spawn", "modify_object" := "gm_modify", "mission_load" := "gm_mission",
        "universe_control" := "gm_universe", "player_assist" := "gm_assist"], 0.0, true)

  const DefaultStations := [HelmStation, TacticalStation, CommunicationStation, LogisticsStation,
                            CaptainStation, GameMasterStation]

  /** The six station types; each has an input handler and an update filter. */
  const StationTypes := {Helm, Tactical, Communication, Logistics, Captain, GameMaster}

  /** The registry after registering the list in order, each station under its type. */
  function StationsFrom(list: seq<StationData>): map<string, StationData>
  {
    if list == [] then map[]
    else StationsFrom(list[..|list| - 1])[list[|list| - 1].stype := list[|list| - 1]]
  }

  /** With distinct types, registering a list files each station under its own type and nothing else. */
  lemma {:induction false} StationsFromDistinct(list: seq<StationData>)
    requires forall i, j :: 0 <= i < j < |list| ==> list[i].stype != list[j].stype
    ensures StationsFrom(list).Keys == set s | s in list :: s.stype
    ensures forall k :: 0 <= k < |list| ==> StationsFrom(list)[list[k].stype] == list[k]
  {
    StationsFromKeys(list);
    if list != [] {
      var init := list[..|list| - 1];
      var last := list[|list| - 1];
      StationsFromDistinct(init);
      forall k | 0 <= k < |list|
        ensures StationsFrom(list)[list[k].stype] == list[k]
      {
        if k < |init| {
          assert init[k] == list[k] && list[k].stype != last.stype;
        }
      }
    }
  }

  /** Registering a list files stations under exactly the types it holds. */
  lemma {:induction false} StationsFromKeys(list: seq<StationData>)
    ensures StationsFrom(list).Keys == set s | s in list :: s.stype
  {
    if list != [] {
      var init := list[..|list| - 1];
      var last := list[|list| - 1];
      StationsFromKeys(init);
      assert list == init + [last];
      assert (set s | s in list :: s.stype) == (set s | s in init :: s.stype) + {last.stype};
    }
  }

  /** Six stations of distinct types are each filed under their type. */
  lemma SixStations(a: StationData, b: StationData, c: StationData, d: StationData, e: StationData, f: StationData)
    ensures StationsFrom([a, b, c, d, e, f]) ==
      map[a.stype := a, b.stype := b, c.stype := c, d.stype := d, e.stype := e, f.stype := f]
  {
    var l := [a, b, c, d, e, f];
    assert StationsFrom([a]) == map[a.stype := a] by {
      assert [a][..0] == [];
    }
    assert StationsFrom([a, b]) == StationsFrom([a])[b.stype := b] by {
      assert [a, b][..1] == [a];
    }
    assert StationsFrom([a, b, c]) == StationsFrom([a, b])[c.stype := c] by {
      assert [a, b, c][..2] == [a, b];
    }
    assert StationsFrom([a, b, c, d]) == StationsFrom([a, b, c])[d.stype := d] by {
      assert [a, b, c, d][..3] == [a, b, c];
    }
    assert StationsFrom([a, b, c, d, e]) == StationsFrom([a, b, c, d])[e.stype := e] by {
      assert [a, b, c, d, e][..4] == [a, b, c, d];
    }
    assert StationsFrom(l) == StationsFrom([a, b, c, d, e])[f.stype := f] by {
      assert l[..5] == [a, b, c, d, e];
    }
  }

  /** The default registry: each of the six stations under its own type. */
  lemma DefaultRegistry()
    ensures StationsFrom(DefaultStations) ==
      map[Helm := HelmStation, Tactical := TacticalStation, Communication := CommunicationStation,
          Logistics := LogisticsStation, Captain := CaptainStation, GameMaster := GameMasterStation]
  {
    SixStations(HelmStation, TacticalStation, CommunicationStation, LogisticsStation, CaptainStation, GameMasterStation);
  }

  // ----- Permissions -----

  /** hasPermission: the station exists and lists the action or the override permission. */
  predicate Permitted(stations: map<string, StationData>, station: string, action: string)
  {
    station in stations && (action in stations[station].permissions || OverrideAll in stations[station].permissions)
  }

  /**
   * With the shipped lists, only the Game Master passes actions it does
   * not list; every other station passes exactly its four listed
   * permissions, so none of the helm's own control names gets through.
   */
  lemma DefaultPermissions(action: string)
    ensures Permitted(StationsFrom(DefaultStations), GameMaster, action)
    ensures Permitted(StationsFrom(DefaultStations), Helm, action) <==> action in HelmStation.permissions
    ensures !Permitted(StationsFrom(DefaultStations), Helm, "throttle")
    ensures !Permitted(StationsFrom(DefaultStations), "science", action)
  {
    DefaultRegistry();
    assert GameMasterStation.permissions[3] == OverrideAll;
  }

  // ----- Validators -----

  const AutopilotModes := ["manual", "position", "heading", "follow", "station_keeping"]
  const WeaponTypes := ["phaser", "torpedo", "mine"]

  /** validateHelmInput: the axes in [-1, 1], warp in [0.1, 10], headings in [-180, 180], a known autopilot mode. */
  predicate HelmValid(action: string, value: Values.Value)
  {
    if action in {"throttle", "rudder", "pitch", "roll"} then value.Float? && -1.0 <= value.f <= 1.0
    else if action == "warp_factor" then value.Float? && 0.1 <= value.f <= 10.0
    else if action in {"desired_heading", "desired_pitch"} then value.Float? && -180.0 <= value.f <= 180.0
    else if action == "autopilot_mode" then value.Str? && value.s in AutopilotModes
    else false
  }

  /** validateTacticalInput: a known weapon type, power in [0, 1], a boolean fire command, a string target. */
  predicate TacticalValid(action: string, value: Values.Value)
  {
    if action == "weapon_type" then value.Str? && value.s in WeaponTypes
    else if action in {"shield_power", "weapon_power"} then value.Float? && 0.0 <= value.f <= 1.0
    else if action == "fire_command" then value.Bool?
    else if action == "target_id" then value.Str?
    else false
  }

  /** validateCommunicationInput: frequency in [1, 999.9], string texts, an integer priority 1..5, a boolean switch. */
  predicate CommunicationValid(action: string, value: Values.Value)
  {
    if action == "frequency" then value.Float? && 1.0 <= value.f <= 999.9
    else if action in {"message", "target_ship_id", "broadcast_type"} then value.Str?
    else if action == "priority" then value.Int? && 1 <= value.i <= 5
    else if action == "auto_response" then value.Bool?
    else false
  }

  /** Every allocation of a power grid lies in [0, 1]. */
  predicate AllocationsInUnit(grid: map<string, real>)
  {
    forall k :: k in grid ==> 0.0 <= grid[k] <= 1.0
  }

  /** validateLogisticsInput: allocations in [0, 1] summing to at most 1, at most 10 repairs, priorities 1..10. */
  ghost predicate LogisticsValid(action: string, value: Values.Value)
  {
    if action == "power_allocation" then value.FloatMap? && AllocationsInUnit(value.fm) && Values.MapSum(value.fm) <= 1.0
    else if action == "repair_priority" then value.StrList? && |value.sl| <= 10
    else if action == "crew_assignment" then value.StrMap?
    else if action == "system_priority" then value.IntMap? && forall k :: k in value.im ==> 1 <= value.im[k] <= 10
    else false
  }

  /** validateCaptainInput: an integer alert level 0..3, boolean switches, a string camera. */
  predicate CaptainValid(action: string, value: Values.Value)
  {
    if action == "alert_level" then value.Int? && 0 <= value.i <= 3
    else if action in {"emergency_power", "startup_sequence", "general_quarters"} then value.Bool?
    else if action == "camera_selection" then value.Str?
    else false
  }

  /** The station's own validator; the Game Master accepts everything, an unknown station nothing. */
  ghost predicate StationValid(station: string, action: string, value: Values.Value)
  {
    if station == Helm then HelmValid(action, value)
    else if station == Tactical then TacticalValid(action, value)
    else if station == Communication then CommunicationValid(action, value)
    else if station == Logistics then LogisticsValid(action, value)
    else if station == Captain then CaptainValid(action, value)
    else station == GameMaster
  }

  /** ValidateInput: an active station, the permission, then the station's validator. */
  ghost predicate InputValid(stations: map<string, StationData>, station: string, action: string, value: Values.Value)
  {
    station in stations && stations[station].isActive && Permitted(stations, station, action) &&
    StationValid(station, action, value)
  }

  /** A JSON number decodes as a float, so an alert level sent as JSON never validates. */
  lemma JsonAlertLevelRejected(f: real)
    ensures !CaptainValid("alert_level", Values.Float(f))
    ensures !CommunicationValid("priority", Values.Float(f))
  {
  }

  /** With the shipped lists the helm, tactical, communication and logistics stations validate nothing they are permitted. */
  lemma DefaultCrewStationsRejectAll(station: string, action: string, value: Values.Value)
    requires station in {Helm, Tactical, Communication, Logistics}
    ensures !InputValid(StationsFrom(DefaultStations), station, action, value)
  {
    if station == Helm {
      HelmRejectsAll(action, value);
    } else if station == Tactical {
      TacticalRejectsAll(action, value);
    } else if station == Communication {
      CommunicationRejectsAll(action, value);
    } else {
      LogisticsRejectsAll(action, value);
    }
  }

  lemma HelmRejectsAll(action: string, value: Values.Value)
    ensures !InputValid(StationsFrom(DefaultStations), Helm, action, value)
  {
    DefaultRegistry();
    if Permitted(StationsFrom(DefaultStations), Helm, action) {
      assert action in HelmStation.permissions;
    }
  }

  lemma TacticalRejectsAll(action: string, value: Values.Value)
    ensures !InputValid(StationsFrom(DefaultStations), Tactical, action, value)
  {
    DefaultRegistry();
    if Permitted(StationsFrom(DefaultStations), Tactical, action) {
      assert action in TacticalStation.permissions;
    }
  }

  lemma CommunicationRejectsAll(action: string, value: Values.Value)
    ensures !InputValid(StationsFrom(DefaultStations), Communication, action, value)
  {
    DefaultRegistry();
    if Permitted(StationsFrom(DefaultStations), Communication, action) {
      assert action in CommunicationStation.permissions;
    }
  }

  lemma LogisticsRejectsAll(action: string, value: Values.Value)
    ensures !InputValid(StationsFrom(DefaultStations), Logistics, action, value)
  {
    DefaultRegistry();
    if Permitted(StationsFrom(DefaultStations), Logistics, action) {
      assert action in LogisticsStation.permissions;
    }
  }

  /** The captain's one input that passes both halves is a boolean startup sequence. */
  lemma DefaultCaptainValidation(action: string, value: Values.Value)
    ensures InputValid(StationsFrom(DefaultStations), Captain, action, value) <==>
      action == "startup_sequence" && value.Bool?
  {
    DefaultRegistry();
    var s := StationsFrom(DefaultStations);
    if Permitted(s, Captain, action) {
      assert action in CaptainStation.permissions;
    }
    if action == "startup_sequence" {
      assert CaptainStation.permissions[1] == action;
    }
  }

  /**
   * With the shipped permission lists the two halves of ValidateInput
   * almost never agree: the Game Master accepts everything, the captain's
   * boolean startup sequence is the one other input that passes.
   */
  lemma DefaultValidation(station: string, action: string, value: Values.Value)
    ensures InputValid(StationsFrom(DefaultStations), station, action, value) <==>
      station == GameMaster || (station == Captain && action == "startup_sequence" && value.Bool?)
  {
    DefaultRegistry();
    DefaultPermissions(action);
    if station in {Helm, Tactical, Communication, Logistics} {
      DefaultCrewStationsRejectAll(station, action, value);
    } else if station == Captain {
      DefaultCaptainValidation(action, value);
    }
  }

  /** The power-grid check: the early exit on a bad allocation, then the total. */
  method ValidatePowerAllocation(grid: map<string, real>) returns (ok: bool)
    ensures ok <==> AllocationsInUnit(grid) && Values.MapSum(grid) <= 1.0
  {
    var total := 0.0;
    var todo := grid.Keys;
    ghost var done: set<string> := {};
    while todo != {}
      invariant todo !! done && todo + done == grid.Keys
      invariant forall k :: k in done ==> 0.0 <= grid[k] <= 1.0
      invariant total == Values.MapSum(Values.Restrict(grid, done))
      decreases |todo|
    {
      var k :| k in todo;
      if grid[k] < 0.0 || grid[k] > 1.0 {
        return false;
      }
      Values.MapSumRestrictStep(grid, done, k);
      total := total + grid[k];
      done := done + {k};
      todo := todo - {k};
    }
    assert Values.Restrict(grid, done) == grid;
    return total <= 1.0;
  }

  /** The system-priority check: every priority in 1..10. */
  method ValidateSystemPriorities(priorities: map<string, int>) returns (ok: bool)
    ensures ok <==> forall k :: k in priorities ==> 1 <= priorities[k] <= 10
  {
    var todo := priorities.Keys;
    while todo != {}
      invariant todo <= priorities.Keys
      invariant forall k :: k in priorities && k !in todo ==> 1 <= priorities[k] <= 10
      decreases |todo|
    {
      var k :| k in todo;
      if priorities[k] < 1 || priorities[k] > 10 {
        return false;
      }
      todo := todo - {k};
    }
    return true;
  }

  /** validateLogisticsInput. */
  method ValidateLogisticsInput(action: string, value: Values.Value) returns (ok: bool)
    ensures ok <==> LogisticsValid(action, value)
  {
    if action == "power_allocation" {
      if value.FloatMap? {
        ok := ValidatePowerAllocation(value.fm);
      } else {
        ok := false;
      }
    } else if action == "repair_priority" {
      ok := value.StrList? && |value.sl| <= 10;
    } else if action == "crew_assignment" {
      ok := value.StrMap?;
    } else if action == "system_priority" {
      if value.IntMap? {
        ok := ValidateSystemPriorities(value.im);
      } else {
        ok := false;
      }
    } else {
      ok := false;
    }
  }

  class StationManager {
    var stations: map<string, StationData>
    /** The stations that have an input handler. */
    var handlers: set<string>

    /** NewStationManager: the six default stations, each with a handler. */
    constructor ()
      ensures stations == StationsFrom(DefaultStations) && handlers == StationTypes
    {
      stations := map[];
      handlers := {};
      new;
      InitializeStations();
      handlers := StationTypes;
    }

    /** initializeStations: registers the list in order (each entry its own record). */
    method InitializeStations()
      requires stations == map[]
      modifies this`stations
      ensures stations == StationsFrom(DefaultStations)
    {
      var list := DefaultStations;
      var i := 0;
      while i < |list|
        invariant i <= |list| && stations == StationsFrom(list[..i])
      {
        assert list[..i + 1][..i] == list[..i];
        stations := stations[list[i].stype := list[i]];
        i := i + 1;
      }
      assert list[..i] == list;
    }

    /** hasPermission's scan over the station's permission list. */
    method HasPermission(station: string, action: string) returns (ok: bool)
      ensures ok <==> Permitted(stations, station, action)
    {
      if station !in stations {
        return false;
      }
      var perms := stations[station].permissions;
      var i := 0;
      while i < |perms|
        invariant i <= |perms|
        invariant forall k :: 0 <= k < i ==> perms[k] != action && perms[k] != OverrideAll
      {
        if perms[i] == action || perms[i] == OverrideAll {
          return true;
        }
        i := i + 1;
      }
      return false;
    }

    /** Whether HandleInput runs the station's handler for this action. */
    predicate Admits(station: string, action: string)
      reads this
    {
      station in stations && stations[station].isActive && station in handlers &&
      Permitted(stations, station, action)
    }

    /**
     * HandleInput: a missing, inactive or handler-less station, or a
     * denied action, is refused and nothing changes; otherwise the handler
     * runs and the station's last update becomes now.
     */
    method HandleInput(station: string, input: InputEventData, now: real) returns (handled: bool)
      modifies this`stations
      ensures handled <==> old(Admits(station, input.action))
      ensures handled ==> stations == old(stations)[station := old(stations)[station].(lastUpdate := now)]
      ensures !handled ==> stations == old(stations)
    {
      if station !in stations || !stations[station].isActive || station !in handlers {
        return false;
      }
      var permitted := HasPermission(station, input.action);
      if !permitted {
        return false;
      }
      stations := stations[station := stations[station].(lastUpdate := now)];
      return true;
    }

    /** SetStationActive: sets the flag of a registered station; unknown stations change nothing. */
    method SetStationActive(station: string, active: bool)
      modifies this`stations
      ensures station in old(stations) ==> stations == old(stations)[station := old(stations)[station].(isActive := active)]
      ensures station !in old(stations) ==> stations == old(stations)
    {
      if station in stations {
        stations := stations[station := stations[station].(isActive := active)];
      }
    }

    /** ValidateInput: active station, permission, then the station's validator. */
    method ValidateInput(station: string, action: string, value: Values.Value) returns (ok: bool)
      ensures ok <==> InputValid(stations, station, action, value)
    {
      if station !in stations || !stations[station].isActive {
        return false;
      }
      var permitted := HasPermission(station, action);
      if !permitted {
        return false;
      }
      if station == Helm {
        ok := HelmValid(action, value);
      } else if station == Tactical {
        ok := TacticalValid(action, value);
      } else if station == Communication {
        ok := CommunicationValid(action, value);
      } else if station == Logistics {
        ok := ValidateLogisticsInput(action, value);
      } else if station == Captain {
        ok := CaptainValid(action, value);
      } else {
        ok := station == GameMaster;
      }
    }
  }
}
