/**
 * Station input handlers and state filters (backend/stations/handlers.go).
 * The filters are pure: each builds a station's view of the universe state.
 * The handlers modelled are the ones that change the player ship's systems
 * directly; each takes the player ship that GetPlayerShip returned (the
 * source returns early when there is none). Handlers that decode JSON from
 * the input context, or that go through the universe, are not part of this
 * model.
 */
module StationHandlers {
  import opened Wrappers
  import MathUtils
  import Values
  import opened Messages
  import Objects

  // ----- Filters -----

  /** The elements a predicate keeps, in their original order. */
  function Filter<T>(s: seq<T>, keep: T -> bool): seq<T>
  {
    if s == [] then [] else (if keep(s[0]) then [s[0]] else []) + Filter(s[1..], keep)
  }

  /** A filter keeps exactly the elements the predicate accepts. */
  lemma {:induction false} FilterExact<T>(s: seq<T>, keep: T -> bool)
    ensures forall x :: x in Filter(s, keep) <==> x in s && keep(x)
    ensures |Filter(s, keep)| <= |s|
  {
    if s != [] {
      FilterExact(s[1..], keep);
      assert s == [s[0]] + s[1..];
    }
  }

  /** A filter distributes over concatenation, so it keeps the input order. */
  lemma {:induction false} FilterAppend<T>(a: seq<T>, b: seq<T>, keep: T -> bool)
    ensures Filter(a + b, keep) == Filter(a, keep) + Filter(b, keep)
  {
    if a == [] {
      assert a + b == b;
    } else {
      var head := if keep(a[0]) then [a[0]] else [];
      assert (a + b)[0] == a[0] && (a + b)[1..] == a[1..] + b;
      assert Filter(a + b, keep) == head + Filter(a[1..] + b, keep);
      FilterAppend(a[1..], b, keep);
      assert Filter(a, keep) == head + Filter(a[1..], keep);
      assert head + (Filter(a[1..], keep) + Filter(b, keep)) == (head + Filter(a[1..], keep)) + Filter(b, keep);
    }
  }

  predicate HelmSees(o: UniverseObject)
  {
    o.isPlayerShip || o.otype == "planet" || o.otype == "station"
  }

  predicate TacticalSees(o: UniverseObject)
  {
    o.otype == "ship" || o.otype == "torpedo" || o.otype == "mine"
  }

  predicate TacticalEffect(e: VisualEffect)
  {
    e.etype == "phaser_beam" || e.etype == "torpedo_trail" || e.etype == "explosion"
  }

  predicate CommunicationSees(o: UniverseObject)
  {
    o.otype == "ship" || o.otype == "station"
  }

  /** What communications may not see of an object: its motion and its condition. */
  function Redact(o: UniverseObject): UniverseObject
  {
    o.(velocity := MathUtils.Zero3, health := 0.0, maxHealth := 0.0, shield := 0.0, maxShield := 0.0)
  }

  /** filterHelmUpdate's object list. */
  function FilterHelmUpdate(state: UniverseState): StateUpdateData
  {
    StateUpdateData(None, Filter(state.objects, HelmSees), [], [],
                    map["time_acceleration" := Values.Float(state.timeAcceleration),
                        "navigation_data" := Values.Bool(true)])
  }

  /** filterTacticalUpdate's object and effect lists. */
  function FilterTacticalUpdate(state: UniverseState): StateUpdateData
  {
    StateUpdateData(None, Filter(state.objects, TacticalSees), Filter(state.effects, TacticalEffect), [],
                    map["alert_level" := Values.Int(state.alertLevel), "tactical_data" := Values.Bool(true)])
  }

  /** The ships and stations, redacted, in order. */
  function CommunicationObjects(objs: seq<UniverseObject>): seq<UniverseObject>
  {
    if objs == [] then []
    else (if CommunicationSees(objs[0]) then [Redact(objs[0])] else []) + CommunicationObjects(objs[1..])
  }

  /** filterCommunicationUpdate's object list. */
  function FilterCommunicationUpdate(state: UniverseState): StateUpdateData
  {
    StateUpdateData(None, CommunicationObjects(state.objects), [], [],
                    map["communication_data" := Values.Bool(true), "alert_level" := Values.Int(state.alertLevel)])
  }

  /** The first player ship, as a list of at most one. */
  function FirstPlayerShip(objs: seq<UniverseObject>): seq<UniverseObject>
  {
    if objs == [] then []
    else if objs[0].isPlayerShip then [objs[0]]
    else FirstPlayerShip(objs[1..])
  }

  /** filterLogisticsUpdate's object list. */
  function FilterLogisticsUpdate(state: UniverseState): StateUpdateData
  {
    StateUpdateData(None, FirstPlayerShip(state.objects), [], [],
                    map["logistics_data" := Values.Bool(true), "power_grid" := Values.Bool(true),
                        "damage_report" := Values.Bool(true)])
  }

  function FilterCaptainUpdate(state: UniverseState): StateUpdateData
  {
    StateUpdateData(Some(state), [], [], [],
                    map["captain_view" := Values.Bool(true), "alert_level" := Values.Int(state.alertLevel),
                        "ship_status" := Values.Bool(true)])
  }

  function FilterGameMasterUpdate(state: UniverseState): StateUpdateData
  {
    StateUpdateData(Some(state), [], [], [],
                    map["gamemaster_view" := Values.Bool(true), "admin_data" := Values.Bool(true),
                        "debug_info" := Values.Bool(true)])
  }

  /** FilterUpdate of backend/stations/stations.go: the station's filter, or the bare full state. */
  function FilterUpdate(station: string, state: UniverseState): StateUpdateData
  {
    if station == Helm then FilterHelmUpdate(state)
    else if station == Tactical then FilterTacticalUpdate(state)
    else if station == Communication then FilterCommunicationUpdate(state)
    else if station == Logistics then FilterLogisticsUpdate(state)
    else if station == Captain then FilterCaptainUpdate(state)
    else if station == GameMaster then FilterGameMasterUpdate(state)
    else StateUpdateData(Some(state), [], [], [], map[])
  }

  /** The helm sees exactly the player ships, planets and stations, in state order. */
  lemma HelmView(state: UniverseState, more: seq<UniverseObject>)
    ensures forall o :: o in FilterUpdate(Helm, state).objects <==>
      o in state.objects && (o.isPlayerShip || o.otype == "planet" || o.otype == "station")
    ensures FilterUpdate(Helm, state.(objects := state.objects + more)).objects ==
      FilterUpdate(Helm, state).objects + Filter(more, HelmSees)
    ensures FilterUpdate(Helm, state).effects == [] && FilterUpdate(Helm, state).full.None?
  {
    FilterExact(state.objects, HelmSees);
    FilterAppend(state.objects, more, HelmSees);
  }

  /** Tactical sees exactly the ships, torpedoes and mines and the weapon and explosion effects. */
  lemma TacticalView(state: UniverseState)
    ensures forall o :: o in FilterUpdate(Tactical, state).objects <==>
      o in state.objects && (o.otype == "ship" || o.otype == "torpedo" || o.otype == "mine")
    ensures forall e :: e in FilterUpdate(Tactical, state).effects <==>
      e in state.effects && (e.etype == "phaser_beam" || e.etype == "torpedo_trail" || e.etype == "explosion")
  {
    FilterExact(state.objects, TacticalSees);
    FilterExact(state.effects, TacticalEffect);
  }

  /**
   * Communications sees the ships and stations in order with motion and
   * condition zeroed and every other field unchanged.
   */
  lemma {:induction false} CommunicationView(objs: seq<UniverseObject>)
    ensures |CommunicationObjects(objs)| == |Filter(objs, CommunicationSees)|
    ensures forall i :: 0 <= i < |CommunicationObjects(objs)| ==>
      var kept := Filter(objs, CommunicationSees)[i];
      CommunicationObjects(objs)[i] == kept.(velocity := MathUtils.Zero3, health := 0.0, maxHealth := 0.0,
                                             shield := 0.0, maxShield := 0.0)
  {
    if objs != [] {
      CommunicationView(objs[1..]);
    }
  }

  /** Logistics sees the first player ship only, or nothing when there is none. */
  lemma {:induction false} LogisticsView(objs: seq<UniverseObject>)
    ensures |FirstPlayerShip(objs)| <= 1
    ensures FirstPlayerShip(objs) == [] <==> forall i :: 0 <= i < |objs| ==> !objs[i].isPlayerShip
    ensures FirstPlayerShip(objs) != [] ==>
      exists i :: 0 <= i < |objs| && FirstPlayerShip(objs) == [objs[i]] && objs[i].isPlayerShip &&
                  forall k :: 0 <= k < i ==> !objs[k].isPlayerShip
  {
    if objs != [] && !objs[0].isPlayerShip {
      LogisticsView(objs[1..]);
      if FirstPlayerShip(objs) != [] {
        var i :| 0 <= i < |objs[1..]| && FirstPlayerShip(objs[1..]) == [objs[1..][i]] && objs[1..][i].isPlayerShip &&
                 forall k :: 0 <= k < i ==> !objs[1..][k].isPlayerShip;
        assert FirstPlayerShip(objs) == [objs[i + 1]];
      }
    }
  }

  /** The captain, the Game Master and any station without a filter get the whole state. */
  lemma FullViews(station: string, state: UniverseState)
    requires station !in {Helm, Tactical, Communication, Logistics}
    ensures FilterUpdate(station, state).full == Some(state) && FilterUpdate(station, state).objects == []
  {
  }

  // ----- Handlers -----

  /** A repaired system: 10 more health, clamped to [0, max], online once above 50. */
  function Repaired(s: Objects.System): Objects.System
  {
    var h := MathUtils.Clamp(s.health + 10.0, 0.0, s.maxHealth);
    s.(health := h, isOnline := s.isOnline || h > 50.0)
  }

  /**
   * A repair raises a system in good order by at most 10 and keeps it
   * within its maximum; it comes online exactly when it was or the new
   * health passes 50, and nothing else about it changes.
   */
  lemma RepairBounds(s: Objects.System)
    requires 0.0 <= s.health <= s.maxHealth
    ensures s.health <= Repaired(s).health <= s.maxHealth && Repaired(s).health <= s.health + 10.0
    ensures Repaired(s).isOnline <==> s.isOnline || Repaired(s).health > 50.0
    ensures Repaired(s) == s.(health := Repaired(s).health, isOnline := Repaired(s).isOnline)
  {
  }

  /** repair_system: a known system is repaired; any other value changes nothing. */
  method HandleRepairSystem(ship: Objects.Ship, value: Values.Value)
    modifies ship`systems
    ensures value.Str? && value.s in old(ship.systems) ==>
      ship.systems == old(ship.systems)[value.s := Repaired(old(ship.systems)[value.s])]
    ensures !(value.Str? && value.s in old(ship.systems)) ==> ship.systems == old(ship.systems)
  {
    if value.Str? && value.s in ship.systems {
      var system := ship.systems[value.s];
      system := system.(health := MathUtils.Clamp(system.health + 10.0, 0.0, system.maxHealth));
      if system.health > 50.0 && !system.isOnline {
        system := system.(isOnline := true);
      }
      ship.systems := ship.systems[value.s := system];
    }
  }

  /** The systems with the critical ones among `done` boosted to efficiency 1.2. */
  function BoostedIn(systems: map<string, Objects.System>, done: set<string>): map<string, Objects.System>
  {
    map n | n in systems :: if n in done && systems[n].isCritical then systems[n].(efficiency := 1.2) else systems[n]
  }

  /** Boosting one more system changes only its entry. */
  lemma BoostedStep(systems: map<string, Objects.System>, done: set<string>, n: string)
    requires n in systems && n !in done && done <= systems.Keys
    ensures n in BoostedIn(systems, done) && BoostedIn(systems, done)[n] == systems[n]
    ensures BoostedIn(systems, done + {n}) ==
      if systems[n].isCritical then BoostedIn(systems, done)[n := systems[n].(efficiency := 1.2)] else BoostedIn(systems, done)
  {
  }

  function Boosted(systems: map<string, Objects.System>): map<string, Objects.System>
  {
    BoostedIn(systems, systems.Keys)
  }

  /** Emergency power boosts every critical system, only those, and only their efficiency; boosting twice is boosting once. */
  lemma BoostedOnlyCritical(systems: map<string, Objects.System>)
    ensures Boosted(systems).Keys == systems.Keys
    ensures forall n :: n in systems && systems[n].isCritical ==> Boosted(systems)[n] == systems[n].(efficiency := 1.2)
    ensures forall n :: n in systems && !systems[n].isCritical ==> Boosted(systems)[n] == systems[n]
    ensures Boosted(Boosted(systems)) == Boosted(systems)
  {
  }

  /**
   * emergency_power: for a boolean value, every critical system runs at
   * efficiency 1.2, whichever the boolean, and the flag is stored.
   */
  method HandleEmergencyPower(ship: Objects.Ship, value: Values.Value)
    modifies ship`systems, ship.obj`properties
    ensures value.Bool? ==> ship.systems == Boosted(old(ship.systems)) &&
                            ship.obj.properties == old(ship.obj.properties)["emergency_power" := value]
    ensures !value.Bool? ==> ship.systems == old(ship.systems) && ship.obj.properties == old(ship.obj.properties)
  {
    if !value.Bool? {
      return;
    }
    ghost var original := ship.systems;
    var todo := ship.systems.Keys;
    ghost var done: set<string> := {};
    while todo != {}
      invariant todo <= original.Keys && done == original.Keys - todo
      invariant ship.systems == BoostedIn(original, done)
      invariant ship.obj.properties == old(ship.obj.properties)
      decreases |todo|
    {
      var n :| n in todo;
      BoostedStep(original, done, n);
      var system := ship.systems[n];
      if system.isCritical {
        ship.systems := ship.systems[n := system.(efficiency := 1.2)];
      }
      done := done + {n};
      todo := todo - {n};
    }
    ship.obj.properties := ship.obj.properties["emergency_power" := value];
  }

  /** The systems with those among `done` online at full health. */
  function StartedIn(systems: map<string, Objects.System>, done: set<string>): map<string, Objects.System>
  {
    map n | n in systems :: if n in done then systems[n].(isOnline := true, health := systems[n].maxHealth) else systems[n]
  }

  /** Starting one more system changes only its entry. */
  lemma StartedStep(systems: map<string, Objects.System>, done: set<string>, n: string)
    requires n in systems && n !in done
    ensures n in StartedIn(systems, done) && StartedIn(systems, done)[n] == systems[n]
    ensures StartedIn(systems, done + {n}) == StartedIn(systems, done)[n := systems[n].(isOnline := true, health := systems[n].maxHealth)]
  {
  }

  function Started(systems: map<string, Objects.System>): map<string, Objects.System>
  {
    StartedIn(systems, systems.Keys)
  }

  /** After the startup sequence every system is online at full health, with nothing else about it changed. */
  lemma StartedAllOnline(systems: map<string, Objects.System>)
    ensures Started(systems).Keys == systems.Keys
    ensures forall n :: n in systems ==>
      Started(systems)[n].isOnline && Started(systems)[n].health == systems[n].maxHealth &&
      Started(systems)[n] == systems[n].(isOnline := true, health := systems[n].maxHealth)
  {
  }

  /**
   * ship_startup: only a true value starts the ship: every system online at
   * full health, power and shield at their maxima.
   */
  method HandleShipStartup(ship: Objects.Ship, value: Values.Value)
    modifies ship`systems, ship.obj`power, ship.obj`shield
    ensures value == Values.Bool(true) ==>
      ship.systems == Started(old(ship.systems)) && ship.obj.power == ship.obj.maxPower &&
      ship.obj.shield == ship.obj.maxShield
    ensures value != Values.Bool(true) ==>
      ship.systems == old(ship.systems) && ship.obj.power == old(ship.obj.power) && ship.obj.shield == old(ship.obj.shield)
  {
    if value != Values.Bool(true) {
      return;
    }
    ghost var original := ship.systems;
    var todo := ship.systems.Keys;
    ghost var done: set<string> := {};
    while todo != {}
      invariant todo <= original.Keys && done == original.Keys - todo
      invariant ship.systems == StartedIn(original, done)
      decreases |todo|
    {
      var n :| n in todo;
      StartedStep(original, done, n);
      var system := ship.systems[n];
      ship.systems := ship.systems[n := system.(isOnline := true, health := system.maxHealth)];
      done := done + {n};
      todo := todo - {n};
    }
    ship.obj.power := ship.obj.maxPower;
    ship.obj.shield := ship.obj.maxShield;
  }

  /** The system a tactical power action sets, if it is one. */
  function PowerTarget(action: string): Option<string>
  {
    if action == "shield_power" then Some("shields")
    else if action == "weapon_power" then Some("weapons")
    else None
  }

  /**
   * shield_power / weapon_power: a float sets the system's efficiency. A
   * missing system is read as Go's zero System and then stored, so the map
   * gains that entry.
   */
  method HandleSystemPower(ship: Objects.Ship, action: string, value: Values.Value)
    modifies ship`systems
    ensures PowerTarget(action).Some? && value.Float? ==>
      var name := PowerTarget(action).value;
      ship.systems == old(ship.systems)[name := Objects.SystemOrZero(old(ship.systems), name).(efficiency := value.f)]
    ensures !(PowerTarget(action).Some? && value.Float?) ==> ship.systems == old(ship.systems)
  {
    var target := PowerTarget(action);
    if target.Some? && value.Float? {
      var system := Objects.SystemOrZero(ship.systems, target.value);
      ship.systems := ship.systems[target.value := system.(efficiency := value.f)];
    }
  }

  /** Setting power on a ship without that system adds a nameless, offline system that draws nothing. */
  lemma MissingSystemAppears(systems: map<string, Objects.System>, f: real)
    requires "shields" !in systems
    ensures var s := Objects.SystemOrZero(systems, "shields").(efficiency := f);
      s.name == "" && !s.isOnline && Objects.Draw(s) == 0.0 && s.efficiency == f
  {
  }
}
