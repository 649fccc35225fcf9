/**
 * Game objects and ships of backend/universe/objects.go. An Object is a
 * class because the backend shares it by pointer (the universe's object map
 * and the physics engine's list hold the same object, and a Ship embeds its
 * Object); its id and type are fixed at creation. float64 is modelled as
 * real. Clocks are parameters: `now` is the current time in seconds.
 */
module Objects {
  import opened Wrappers
  import MathUtils
  import Values

  const ShipType := "ship"
  const PlanetType := "planet"
  const StationType := "station"
  const TorpedoType := "torpedo"
  const MineType := "mine"

  function Min(a: real, b: real): real { if a <= b then a else b }
  function Max(a: real, b: real): real { if a >= b then a else b }

  /**
   * The shield-then-hull rule of TakeDamage on plain values: a raised
   * shield absorbs up to its strength, and only what is left over reaches
   * the hull, which does not go below zero.
   */
  function Absorb(shield: real, health: real, damage: real): (r: (real, real))
  {
    var absorbed := if shield > 0.0 then Min(damage, shield) else 0.0;
    var rest := damage - absorbed;
    (shield - absorbed, if rest > 0.0 then Max(0.0, health - rest) else health)
  }

  /**
   * For non-negative damage on a non-negative shield and hull: neither goes
   * negative, the hull is hit only after the shield is down, and the
   * damage taken is the smaller of the damage and what was there to lose.
   */
  lemma AbsorbShieldFirst(shield: real, health: real, damage: real)
    requires shield >= 0.0 && health >= 0.0 && damage >= 0.0
    ensures Absorb(shield, health, damage).0 >= 0.0 && Absorb(shield, health, damage).1 >= 0.0
    ensures Absorb(shield, health, damage).1 < health ==> Absorb(shield, health, damage).0 == 0.0
    ensures (shield - Absorb(shield, health, damage).0) + (health - Absorb(shield, health, damage).1)
            == Min(damage, shield + health)
  {
  }

  /** Negative damage heals a raised shield and leaves the hull alone. */
  lemma NegativeDamageHealsShield(shield: real, health: real, damage: real)
    requires shield > 0.0 && damage < 0.0
    ensures Absorb(shield, health, damage) == (shield - damage, health)
  {
  }

  class Body {
    const id: string
    const kind: string
    var name: string
    var position: MathUtils.Vector3
    var angularVel: MathUtils.Vector3
    var health: real
    var maxHealth: real
    var shield: real
    var maxShield: real
    var power: real
    var maxPower: real
    var isPlayerShip: bool
    var isStatic: bool
    var ttl: real
    var properties: map<string, Values.Value>

    /** NewObject: full health and power of 100, no shield, no time limit (TTL -1). */
    constructor (id: string, kind: string, name: string)
      ensures this.id == id && this.kind == kind && this.name == name
      ensures position == MathUtils.Zero3 && angularVel == MathUtils.Zero3
      ensures health == 100.0 && maxHealth == 100.0 && shield == 0.0 && maxShield == 0.0
      ensures power == 100.0 && maxPower == 100.0
      ensures !isPlayerShip && !isStatic && ttl == -1.0 && properties == map[]
    {
      this.id := id;
      this.kind := kind;
      this.name := name;
      position := MathUtils.Zero3;
      angularVel := MathUtils.Zero3;
      health, maxHealth := 100.0, 100.0;
      shield, maxShield := 0.0, 0.0;
      power, maxPower := 100.0, 100.0;
      isPlayerShip, isStatic := false, false;
      ttl := -1.0;
      properties := map[];
    }

    /** IsExpired tests `TTL > 0 && TTL <= 0`, which no TTL satisfies. */
    predicate IsExpired()
      reads this
      ensures !IsExpired()
    {
      ttl > 0.0 && ttl <= 0.0
    }

    predicate IsDestroyed()
      reads this
    {
      health <= 0.0
    }

    /** Damage is taken by the shield first and then by the hull (Absorb). */
    method TakeDamage(damage: real)
      modifies this`shield, this`health
      ensures (shield, health) == Absorb(old(shield), old(health), damage)
    {
      var d := damage;
      if shield > 0.0 {
        var shieldDamage := Min(d, shield);
        shield := shield - shieldDamage;
        d := d - shieldDamage;
      }
      if d > 0.0 {
        health := Max(0.0, health - d);
      }
    }

    /** ApplyTorque: the angular velocity grows by a hundredth of the torque. */
    method ApplyTorque(torque: MathUtils.Vector3)
      modifies this`angularVel
      ensures angularVel == MathUtils.Vector3(old(angularVel).x + torque.x * 0.01,
                                              old(angularVel).y + torque.y * 0.01,
                                              old(angularVel).z + torque.z * 0.01)
    {
      angularVel := MathUtils.Vector3(angularVel.x + torque.x * 0.01,
                                       angularVel.y + torque.y * 0.01,
                                       angularVel.z + torque.z * 0.01);
    }
  }

  /**
   * A ship weapon. `lastFired` is None for a weapon never fired: Go's zero
   * time lies centuries back, so the cooldown is always over for it.
   * Ammunition -1 means unlimited.
   */
  datatype Weapon = Weapon(id: string, wtype: string, damage: real, range: real, cooldown: real,
                           lastFired: Option<real>, powerCost: real, ammunition: int, maxAmmo: int)

  datatype System = System(name: string, health: real, maxHealth: real, powerDraw: real,
                           efficiency: real, priority: int, isOnline: bool, isCritical: bool)

  /** The value a Go map read yields for a missing system. */
  const ZeroSystem := System("", 0.0, 0.0, 0.0, 0.0, 0, false, false)

  function SystemOrZero(systems: map<string, System>, name: string): (s: System)
    ensures name !in systems ==> s == ZeroSystem
    ensures name in systems ==> s == systems[name]
  {
    if name in systems then systems[name] else ZeroSystem
  }

  datatype AutoPilotState = AutoPilotState(enabled: bool, mode: string, targetPosition: MathUtils.Vector3,
                                           targetHeading: real, targetSpeed: real, followTargetId: string,
                                           stationKeeping: bool, collisionAvoid: bool)

  /** One DamageReport entry; Description is formatted text and is not modelled. */
  datatype DamageEntry = DamageEntry(system: string, severity: real, timestamp: real, repairable: bool)

  /** What an online system draws per second; an offline one draws nothing. */
  function Draw(s: System): real
  {
    if s.isOnline then s.powerDraw * s.efficiency else 0.0
  }

  function DrawMap(systems: map<string, System>, done: set<string>): map<string, real>
  {
    map n | n in systems && n in done :: Draw(systems[n])
  }

  /** The total draw of all systems; map order does not matter for a sum. */
  ghost function TotalDraw(systems: map<string, System>): real
  {
    Values.MapSum(DrawMap(systems, systems.Keys))
  }

  /** Adding one more system to a partial sum adds its draw. */
  lemma DrawMapStep(systems: map<string, System>, done: set<string>, n: string)
    requires n in systems && n !in done
    ensures Values.MapSum(DrawMap(systems, done + {n})) == Values.MapSum(DrawMap(systems, done)) + Draw(systems[n])
  {
    var bigger := DrawMap(systems, done + {n});
    Values.MapSumRemove(bigger, n);
    assert bigger - {n} == DrawMap(systems, done);
  }

  /** The power left after one tick: spent, floored at zero, regenerated, capped. */
  function PowerAfter(power: real, maxPower: real, draw: real, regen: real, dt: real): (p: real)
    ensures maxPower >= 0.0 && regen >= 0.0 && dt >= 0.0 ==> 0.0 <= p <= maxPower
    ensures p <= maxPower
  {
    Min(maxPower, Max(0.0, power - draw * dt) + regen * dt)
  }

  /** A system UpdateSystems may switch off when power runs short. */
  predicate Sheddable(s: System)
  {
    !s.isCritical && s.isOnline
  }

  /** The systems map after switching off system `n`. */
  function SwitchedOff(systems: map<string, System>, n: string): map<string, System>
    requires n in systems
  {
    systems[n := systems[n].(isOnline := false)]
  }

  /** `after` is `before` with some sheddable system switched off, or unchanged if none is sheddable. */
  predicate ShedOne(before: map<string, System>, after: map<string, System>)
  {
    if exists n :: n in before && Sheddable(before[n]) then
      exists n :: n in before && Sheddable(before[n]) && after == SwitchedOff(before, n)
    else after == before
  }

  /**
   * Shedding takes at most one system offline, that system was online and
   * non-critical, and every other system is untouched.
   */
  lemma ShedOneChangesAtMostOne(before: map<string, System>, after: map<string, System>)
    requires ShedOne(before, after)
    ensures after.Keys == before.Keys
    ensures forall n :: n in before && after[n] != before[n] ==>
      Sheddable(before[n]) && after[n] == before[n].(isOnline := false)
    ensures forall a, b :: a in before && b in before && after[a] != before[a] && after[b] != before[b] ==> a == b
    ensures forall n :: n in before && before[n].isCritical ==> after[n] == before[n]
  {
    if exists n :: n in before && Sheddable(before[n]) {
      var n :| n in before && Sheddable(before[n]) && after == SwitchedOff(before, n);
      assert before[n].(isOnline := false) != before[n];
    }
  }

  /**
   * The shield after regeneration: a shield below its maximum regains, if
   * the shield system is online and above half health, in proportion to
   * that health and efficiency, without passing the maximum.
   */
  function ShieldAfter(shield: real, maxShield: real, regen: real, shields: System, dt: real): (r: real)
    ensures shield < maxShield ==> r <= maxShield
    ensures shield >= maxShield ==> r == shield
    ensures !(shields.isOnline && shields.health > 50.0) ==> r == shield
  {
    if shield < maxShield && shields.isOnline && shields.health > 50.0 then
      Min(maxShield, shield + regen * (shields.health / 100.0) * shields.efficiency * dt)
    else shield
  }

  /** The index of the first weapon with this id. */
  function FirstWeapon(weapons: seq<Weapon>, weaponId: string): (r: Option<nat>)
    ensures r.None? <==> forall i :: 0 <= i < |weapons| ==> weapons[i].id != weaponId
    ensures r.Some? ==> r.value < |weapons| && weapons[r.value].id == weaponId &&
                        forall i :: 0 <= i < r.value ==> weapons[i].id != weaponId
  {
    if weapons == [] then None
    else if weapons[0].id == weaponId then Some(0)
    else match FirstWeapon(weapons[1..], weaponId)
      case None => None
      case Some(i) => Some(i + 1)
  }

  /** Cooled down, loaded (or unlimited), affordable, and the weapons system online. */
  predicate Ready(w: Weapon, now: real, power: real, weaponsOnline: bool)
  {
    (w.lastFired.None? || now - w.lastFired.value >= w.cooldown) &&
    (w.ammunition == -1 || w.ammunition > 0) &&
    power >= w.powerCost && weaponsOnline
  }

  /** The weapon after firing: stamped, and one round spent unless unlimited or empty. */
  function Fired(w: Weapon, now: real): (r: Weapon)
    ensures r.ammunition == (if w.ammunition > 0 then w.ammunition - 1 else w.ammunition)
    ensures r.lastFired == Some(now)
    ensures r.(lastFired := w.lastFired, ammunition := w.ammunition) == w
  {
    w.(lastFired := Some(now), ammunition := if w.ammunition > 0 then w.ammunition - 1 else w.ammunition)
  }

  /** Unlimited ammunition stays unlimited; counted ammunition never goes below zero. */
  lemma FiredAmmunition(w: Weapon, now: real)
    requires w.ammunition == -1 || w.ammunition > 0
    ensures w.ammunition == -1 ==> Fired(w, now).ammunition == -1
    ensures w.ammunition > 0 ==> 0 <= Fired(w, now).ammunition < w.ammunition
  {
  }

  /** The autopilot after SetAutoPilot: only the target field of the mode changes, and only for a target of the right type. */
  function WithMode(a: AutoPilotState, mode: string, target: Values.Value): (r: AutoPilotState)
    ensures r.enabled && r.mode == mode && r.collisionAvoid == a.collisionAvoid && r.targetSpeed == a.targetSpeed
    ensures r.targetPosition == (if mode == "position" && target.Vector? then target.v else a.targetPosition)
    ensures r.targetHeading == (if mode == "heading" && target.Float? then target.f else a.targetHeading)
    ensures r.followTargetId == (if mode == "follow" && target.Str? then target.s else a.followTargetId)
    ensures r.stationKeeping == (mode == "station_keeping" || a.stationKeeping)
  {
    var b := a.(mode := mode, enabled := true);
    if mode == "position" then (if target.Vector? then b.(targetPosition := target.v) else b)
    else if mode == "heading" then (if target.Float? then b.(targetHeading := target.f) else b)
    else if mode == "follow" then (if target.Str? then b.(followTargetId := target.s) else b)
    else if mode == "station_keeping" then b.(stationKeeping := true)
    else b
  }

  /** DisableAutoPilot: back to manual with every target cleared; collision avoidance and speed are kept. */
  function Manual(a: AutoPilotState): (r: AutoPilotState)
    ensures !r.enabled && r.mode == "manual" && r.targetPosition == MathUtils.Zero3 && r.targetHeading == 0.0
    ensures r.followTargetId == "" && !r.stationKeeping
    ensures r.collisionAvoid == a.collisionAvoid && r.targetSpeed == a.targetSpeed
  {
    a.(enabled := false, mode := "manual", targetPosition := MathUtils.Zero3, targetHeading := 0.0,
       followTargetId := "", stationKeeping := false)
  }

  /** Setting a mode and then disabling the autopilot is the same as disabling it. */
  lemma ManualForgetsMode(a: AutoPilotState, mode: string, target: Values.Value)
    ensures Manual(WithMode(a, mode, target)) == Manual(a)
  {
  }

  const PlayerSystems: map<string, System> := map[
    "engines" := System("engines", 100.0, 100.0, 200.0, 1.0, 1, true, true),
    "shields" := System("shields", 100.0, 100.0, 150.0, 1.0, 2, true, false),
    "weapons" := System("weapons", 100.0, 100.0, 300.0, 1.0, 3, true, false),
    "sensors" := System("sensors", 100.0, 100.0, 100.0, 1.0, 4, true, false),
    "communications" := System("communications", 100.0, 100.0, 50.0, 1.0, 5, true, false),
    "life_support" := System("life_support", 100.0, 100.0, 75.0, 1.0, 1, true, true),
    "computer" := System("computer", 100.0, 100.0, 125.0, 1.0, 2, true, true)]

  const PlayerWeapons: seq<Weapon> := [
    Weapon("phaser_array_1", "phaser", 150.0, 25000.0, 2.0, None, 100.0, -1, -1),
    Weapon("torpedo_launcher_1", "torpedo", 500.0, 50000.0, 5.0, None, 50.0, 20, 20)]

  class Ship {
    /** The embedded Object; the universe registers this same object. */
    const obj: Body
    var engineThrust: real
    var maxThrust: real
    var turnRate: real
    var weapons: seq<Weapon>
    var shieldRegen: real
    var powerRegen: real
    var systems: map<string, System>
    var sensorRange: real
    var autoPilot: AutoPilotState
    var damageReport: seq<DamageEntry>

    /** NewPlayerShip with its seven systems and two weapons. */
    constructor PlayerShip(id: string, name: string, position: MathUtils.Vector3)
      ensures fresh(obj) && obj.id == id && obj.kind == ShipType && obj.name == name
      ensures obj.position == position && obj.isPlayerShip && !obj.isStatic
      ensures obj.health == 100.0 && obj.maxHealth == 100.0
      ensures obj.shield == 1000.0 && obj.maxShield == 1000.0 && obj.power == 2000.0 && obj.maxPower == 2000.0
      ensures engineThrust == 0.0 && maxThrust == 10000.0 && turnRate == 30.0
      ensures shieldRegen == 10.0 && powerRegen == 50.0 && sensorRange == 50000.0
      ensures systems == PlayerSystems && weapons == PlayerWeapons && damageReport == []
      ensures autoPilot == AutoPilotState(false, "manual", MathUtils.Zero3, 0.0, 0.0, "", false, true)
    {
      var o := new Body(id, ShipType, name);
      o.position := position;
      o.isPlayerShip := true;
      o.maxShield, o.shield := 1000.0, 1000.0;
      o.maxPower, o.power := 2000.0, 2000.0;
      obj := o;
      engineThrust, maxThrust, turnRate := 0.0, 10000.0, 30.0;
      shieldRegen, powerRegen, sensorRange := 10.0, 50.0, 50000.0;
      systems := PlayerSystems;
      weapons := PlayerWeapons;
      autoPilot := AutoPilotState(false, "manual", MathUtils.Zero3, 0.0, 0.0, "", false, true);
      damageReport := [];
    }

    /** The draw of all online systems, summed over the map in any order. */
    method PowerDraw() returns (total: real)
      ensures total == TotalDraw(systems)
    {
      total := 0.0;
      var todo := systems.Keys;
      ghost var done: set<string> := {};
      while todo != {}
        invariant todo !! done && todo + done == systems.Keys
        invariant total == Values.MapSum(DrawMap(systems, done))
        decreases |todo|
      {
        var n :| n in todo;
        DrawMapStep(systems, done, n);
        total := total + Draw(systems[n]);
        done := done + {n};
        todo := todo - {n};
      }
      assert DrawMap(systems, done) == DrawMap(systems, systems.Keys);
    }

    /**
     * shutdownNonCriticalSystems: switches off the first online,
     * non-critical system met in map order (some such system), or nothing
     * if there is none.
     */
    method ShutdownNonCriticalSystems()
      modifies this`systems
      ensures ShedOne(old(systems), systems)
    {
      var todo := systems.Keys;
      while todo != {}
        invariant todo <= systems.Keys && systems == old(systems)
        invariant forall n :: n in systems && n !in todo ==> !Sheddable(systems[n])
        decreases |todo|
      {
        var n :| n in todo;
        if Sheddable(systems[n]) {
          systems := SwitchedOff(systems, n);
          return;
        }
        todo := todo - {n};
      }
    }

    /**
     * UpdateSystems: on a power deficit one non-critical system is shed,
     * then power is spent and regenerated (PowerAfter) and the shield
     * regenerates (ShieldAfter) from the shield system as it now is.
     */
    method UpdateSystems(dt: real)
      modifies this`systems, obj`power, obj`shield
      ensures var draw := TotalDraw(old(systems));
        (if draw - old(obj.power) > 0.0 then ShedOne(old(systems), systems) else systems == old(systems)) &&
        obj.power == PowerAfter(old(obj.power), obj.maxPower, draw, powerRegen, dt)
      ensures obj.shield == ShieldAfter(old(obj.shield), obj.maxShield, shieldRegen, SystemOrZero(systems, "shields"), dt)
    {
      var total := PowerDraw();
      if total - obj.power > 0.0 {
        ShutdownNonCriticalSystems();
      }
      SpendPower(total, dt);
      RegenerateShield(dt);
    }

    /** The power step of UpdateSystems: spend the draw, floor at zero, regenerate, cap. */
    method SpendPower(total: real, dt: real)
      modifies obj`power
      ensures obj.power == PowerAfter(old(obj.power), obj.maxPower, total, powerRegen, dt)
    {
      obj.power := Max(0.0, obj.power - total * dt);
      obj.power := Min(obj.maxPower, obj.power + powerRegen * dt);
    }

    /** The shield step of UpdateSystems, from the shield system as it stands after any shedding. */
    method RegenerateShield(dt: real)
      modifies obj`shield
      ensures obj.shield == ShieldAfter(old(obj.shield), obj.maxShield, shieldRegen, SystemOrZero(systems, "shields"), dt)
    {
      if obj.shield < obj.maxShield {
        var shieldSystem := SystemOrZero(systems, "shields");
        if shieldSystem.isOnline && shieldSystem.health > 50.0 {
          var regenRate := shieldRegen * (shieldSystem.health / 100.0) * shieldSystem.efficiency;
          obj.shield := Min(obj.maxShield, obj.shield + regenRate * dt);
        }
      }
    }

    /** CanFireWeapon: the first weapon with the id exists and is Ready. */
    method CanFireWeapon(weaponId: string, now: real) returns (ok: bool)
      ensures ok <==> (FirstWeapon(weapons, weaponId).Some? &&
        Ready(weapons[FirstWeapon(weapons, weaponId).value], now, obj.power, SystemOrZero(systems, "weapons").isOnline))
    {
      var i := 0;
      while i < |weapons|
        invariant i <= |weapons|
        invariant forall k :: 0 <= k < i ==> weapons[k].id != weaponId
      {
        if weapons[i].id == weaponId {
          return Ready(weapons[i], now, obj.power, SystemOrZero(systems, "weapons").isOnline);
        }
        i := i + 1;
      }
      return false;
    }

    /**
     * FireWeapon: a weapon that cannot fire changes nothing; otherwise the
     * first weapon with the id is stamped and spends a round (Fired), and
     * its power cost is taken from the ship.
     */
    method FireWeapon(weaponId: string, now: real) returns (ok: bool)
      modifies this`weapons, obj`power
      ensures var idx := FirstWeapon(old(weapons), weaponId);
        ok <==> (idx.Some? && Ready(old(weapons)[idx.value], now, old(obj.power), SystemOrZero(systems, "weapons").isOnline))
      ensures !ok ==> weapons == old(weapons) && obj.power == old(obj.power)
      ensures ok ==> var i := FirstWeapon(old(weapons), weaponId).value;
        weapons == old(weapons)[i := Fired(old(weapons)[i], now)] && obj.power == old(obj.power) - old(weapons)[i].powerCost
    {
      ok := CanFireWeapon(weaponId, now);
      if !ok {
        return;
      }
      var i := 0;
      while i < |weapons|
        invariant i <= |weapons| && weapons == old(weapons) && obj.power == old(obj.power)
        invariant forall k :: 0 <= k < i ==> weapons[k].id != weaponId
      {
        if weapons[i].id == weaponId {
          var w := weapons[i];
          weapons := weapons[i := Fired(w, now)];
          obj.power := obj.power - w.powerCost;
          return;
        }
        i := i + 1;
      }
      ok := false;
    }

    /** RepairSystem: a known system's health rises by the amount, capped at its maximum. */
    method RepairSystem(name: string, amount: real)
      modifies this`systems
      ensures name !in old(systems) ==> systems == old(systems)
      ensures name in old(systems) ==>
        systems == old(systems)[name := old(systems)[name].(health := Min(old(systems)[name].maxHealth, old(systems)[name].health + amount))]
    {
      if name in systems {
        var s := systems[name];
        systems := systems[name := s.(health := Min(s.maxHealth, s.health + amount))];
      }
    }

    /**
     * DamageSystem: a known system loses health down to zero, goes offline
     * at zero, and exactly one report entry is appended, repairable while
     * health remains. Unknown names change nothing.
     */
    method DamageSystem(name: string, damage: real, now: real)
      modifies this`systems, this`damageReport
      ensures name !in old(systems) ==> systems == old(systems) && damageReport == old(damageReport)
      ensures name in old(systems) ==>
        var h := Max(0.0, old(systems)[name].health - damage);
        systems == old(systems)[name := old(systems)[name].(health := h, isOnline := old(systems)[name].isOnline && h > 0.0)] &&
        damageReport == old(damageReport) + [DamageEntry(name, damage, now, h > 0.0)]
    {
      if name in systems {
        var s := systems[name];
        s := s.(health := Max(0.0, s.health - damage));
        if s.health <= 0.0 && s.isOnline {
          s := s.(isOnline := false);
        }
        systems := systems[name := s];
        damageReport := damageReport + [DamageEntry(name, damage, now, s.health > 0.0)];
      }
    }

    method SetAutoPilot(mode: string, target: Values.Value)
      modifies this`autoPilot
      ensures autoPilot == WithMode(old(autoPilot), mode, target)
    {
      autoPilot := autoPilot.(mode := mode, enabled := true);
      if mode == "position" {
        if target.Vector? {
          autoPilot := autoPilot.(targetPosition := target.v);
        }
      } else if mode == "heading" {
        if target.Float? {
          autoPilot := autoPilot.(targetHeading := target.f);
        }
      } else if mode == "follow" {
        if target.Str? {
          autoPilot := autoPilot.(followTargetId := target.s);
        }
      } else if mode == "station_keeping" {
        autoPilot := autoPilot.(stationKeeping := true);
      }
    }

    method DisableAutoPilot()
      modifies this`autoPilot
      ensures autoPilot == Manual(old(autoPilot))
    {
      autoPilot := Manual(autoPilot);
    }

    /** GetSystemEfficiency: zero for a missing or offline system, otherwise health share times efficiency. */
    function SystemEfficiency(name: string): (e: real)
      reads this
      ensures name !in systems || !systems[name].isOnline ==> e == 0.0
    {
      if name in systems && systems[name].isOnline && systems[name].maxHealth != 0.0 then
        (systems[name].health / systems[name].maxHealth) * systems[name].efficiency
      else 0.0
    }
  }
}
