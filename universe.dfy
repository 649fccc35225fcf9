/**
 * The universe registries of backend/universe/universe.go: objects, ships
 * and visual effects keyed by id, the id counter, the time acceleration
 * and alert level settings, and the bookkeeping steps of the update loop
 * (effect expiry, removal of destroyed objects, the heading autopilot).
 * Event callbacks are modelled as an append-only event log.
 */
module Universe {
  import opened Wrappers
  import MathUtils
  import Text
  import Objects
  import Physics

  /** VisualEffect; colour, direction, intensity and properties are not modelled. */
  datatype Effect = Effect(id: string, etype: string, position: MathUtils.Vector3, duration: real, timeLeft: real)

  /** What fireEvent hands to the callbacks. */
  datatype Event = ObjectAdded(id: string) | ShipAdded(id: string) | ObjectRemoved(id: string) | AlertLevelChanged(level: int)

  /** generateID's "%s_%d". */
  function FormatId(prefix: string, n: int): string
  {
    prefix + "_" + Text.IntToString(n)
  }

  /** Ids with the same prefix and different counter values differ. */
  lemma FormatIdInjective(prefix: string, a: int, b: int)
    requires FormatId(prefix, a) == FormatId(prefix, b)
    ensures a == b
  {
    var p := |prefix| + 1;
    assert FormatId(prefix, a)[p..] == Text.IntToString(a);
    assert FormatId(prefix, b)[p..] == Text.IntToString(b);
    Text.IntToStringInjective(a, b);
  }

  /** Every effect ages by dt; those with no time left afterwards are gone. */
  function Aged(effects: map<string, Effect>, dt: real): (r: map<string, Effect>)
  {
    map id | id in effects && effects[id].timeLeft - dt > 0.0 :: effects[id].(timeLeft := effects[id].timeLeft - dt)
  }

  /** The objects that survive removeExpiredObjects: IsExpired never holds, so exactly the undestroyed ones. */
  function Survivors(objects: map<string, Objects.Body>): map<string, Objects.Body>
    reads objects.Values
  {
    map id | id in objects && !(objects[id].IsExpired() || objects[id].IsDestroyed()) :: objects[id]
  }

  /** Removing exactly the expired or destroyed ids leaves the survivors. */
  lemma SurvivorsLeft(objects: map<string, Objects.Body>, ids: seq<string>)
    requires forall id :: id in ids <==> id in objects && (objects[id].IsExpired() || objects[id].IsDestroyed())
    ensures Survivors(objects) == objects - (set id | id in ids)
  {
  }

  /** A survivor is an object that is not destroyed, and every object that is not destroyed survives. */
  lemma SurvivorsExact(objects: map<string, Objects.Body>)
    ensures forall id :: id in Survivors(objects) <==> id in objects && objects[id].health > 0.0
  {
    forall id | id in objects
      ensures !objects[id].IsExpired()
    {
      assert !objects[id].IsExpired();
    }
  }

  /** 360 degrees taken `k` times. */
  function Turns(k: int): real
  {
    360.0 * k as real
  }

  /**
   * `d` is `diff` moved by whole turns onto the autopilot's scale: a
   * difference above 180 comes down into (-180, 180], one below -180 comes
   * up into [-180, 180), and one already within [-180, 180] stays.
   */
  ghost predicate WrapsTo(diff: real, d: real)
  {
    (exists k :: d == diff + Turns(k)) &&
    if diff > 180.0 then -180.0 < d <= 180.0
    else if diff < -180.0 then -180.0 <= d < 180.0
    else d == diff
  }

  /** Whole turns taken off while the difference is above 180. */
  function WrapDown(d: real): real
    decreases if d > 180.0 then d.Floor else 0
  {
    if d > 180.0 then WrapDown(d - 360.0) else d
  }

  /** Whole turns added while the difference is below -180. */
  function WrapUp(d: real): real
    decreases if d < -180.0 then (-d).Floor else 0
  {
    if d < -180.0 then WrapUp(d + 360.0) else d
  }

  /** The two wrapping loops of autoPilotToHeading, one after the other. */
  function Wrap(diff: real): real
  {
    WrapUp(WrapDown(diff))
  }

  lemma {:induction false} WrapDownTurns(d: real) returns (k: int)
    ensures WrapDown(d) == d + Turns(k)
    ensures d > 180.0 ==> -180.0 < WrapDown(d) <= 180.0
    ensures d <= 180.0 ==> WrapDown(d) == d
    decreases if d > 180.0 then d.Floor else 0
  {
    if d > 180.0 {
      var j := WrapDownTurns(d - 360.0);
      k := j - 1;
    } else {
      k := 0;
    }
  }

  lemma {:induction false} WrapUpTurns(d: real) returns (k: int)
    ensures WrapUp(d) == d + Turns(k)
    ensures d < -180.0 ==> -180.0 <= WrapUp(d) < 180.0
    ensures d >= -180.0 ==> WrapUp(d) == d
    decreases if d < -180.0 then (-d).Floor else 0
  {
    if d < -180.0 {
      var j := WrapUpTurns(d + 360.0);
      k := j + 1;
    } else {
      k := 0;
    }
  }

  /** The loops wrap the difference as WrapsTo describes. */
  lemma WrapCorrect(diff: real)
    ensures WrapsTo(diff, Wrap(diff))
  {
    var j := WrapDownTurns(diff);
    var k := WrapUpTurns(WrapDown(diff));
    assert Wrap(diff) == diff + Turns(j + k);
  }

  /** At most one value wraps a difference, so WrapsTo pins the loops' result. */
  lemma WrapUnique(diff: real, d1: real, d2: real)
    requires WrapsTo(diff, d1) && WrapsTo(diff, d2)
    ensures d1 == d2
  {
    var k1 :| d1 == diff + Turns(k1);
    var k2 :| d2 == diff + Turns(k2);
    assert d1 - d2 == Turns(k1 - k2);
    assert -360.0 < d1 - d2 < 360.0;
    TurnsBelowOne(k1 - k2);
  }

  lemma TurnsBelowOne(k: int)
    requires -360.0 < Turns(k) < 360.0
    ensures k == 0
  {
  }

  function Abs(x: real): real { if x < 0.0 then -x else x }

  const ExplosionDuration := 3.0

  function ExplosionId(n: int): string
  {
    FormatId("explosion", n)
  }

  /** createExplosion's effect under id `id` at a position. */
  function ExplosionAt(id: string, position: MathUtils.Vector3): Effect
  {
    Effect(id, "explosion", position, ExplosionDuration, ExplosionDuration)
  }

  /**
   * The effects after one explosion per position, in order, the k-th
   * under the id `key` gives counter value n + k + 1 (for the universe,
   * `key` is ExplosionId).
   */
  function Explosions(effects: map<string, Effect>, key: int -> string, n: int, ps: seq<MathUtils.Vector3>): map<string, Effect>
    decreases |ps|
  {
    if ps == [] then effects
    else Explosions(effects[key(n + 1) := ExplosionAt(key(n + 1), ps[0])], key, n + 1, ps[1..])
  }

  /** The bodies' positions, in order. */
  function Positions(bodies: seq<Objects.Body>): (ps: seq<MathUtils.Vector3>)
    reads set b | b in bodies
    ensures |ps| == |bodies| && forall k :: 0 <= k < |bodies| ==> ps[k] == bodies[k].position
  {
    seq(|bodies|, k requires 0 <= k < |bodies| reads set b | b in bodies => bodies[k].position)
  }

  ghost predicate Injective(key: int -> string)
  {
    forall a, b :: key(a) == key(b) ==> a == b
  }

  lemma ExplosionIdInjective()
    ensures Injective(ExplosionId)
  {
    forall a, b | ExplosionId(a) == ExplosionId(b)
      ensures a == b
    {
      FormatIdInjective("explosion", a, b);
    }
  }

  /**
   * Each explosion is in place under its own id, and every other effect is
   * kept: the k-th position's explosion takes counter value n + k + 1.
   */
  lemma ExplosionsExact(effects: map<string, Effect>, n: int, ps: seq<MathUtils.Vector3>)
    ensures var r := Explosions(effects, ExplosionId, n, ps);
      forall c :: n < c <= n + |ps| ==> ExplosionId(c) in r && r[ExplosionId(c)] == ExplosionAt(ExplosionId(c), ps[c - n - 1])
    ensures var r := Explosions(effects, ExplosionId, n, ps);
      forall id :: id in effects && !IsKeyIn(id, ExplosionId, n, |ps|) ==> id in r && r[id] == effects[id]
  {
    ExplosionIdInjective();
    forall c | n < c <= n + |ps|
      ensures var r := Explosions(effects, ExplosionId, n, ps);
        ExplosionId(c) in r && r[ExplosionId(c)] == ExplosionAt(ExplosionId(c), ps[c - n - 1])
    {
      ExplosionPlaced(effects, ExplosionId, n, ps, c);
    }
    forall id | id in effects && !IsKeyIn(id, ExplosionId, n, |ps|)
      ensures var r := Explosions(effects, ExplosionId, n, ps); id in r && r[id] == effects[id]
    {
      ExplosionsKeep(effects, ExplosionId, n, ps, id);
    }
  }

  /** `id` is the key of one of the counter values n + 1 to n + m. */
  ghost predicate IsKeyIn(id: string, key: int -> string, n: int, m: nat)
  {
    exists c :: n < c <= n + m && id == key(c)
  }

  lemma {:induction false} ExplosionsKeep(effects: map<string, Effect>, key: int -> string, n: int, ps: seq<MathUtils.Vector3>, id: string)
    requires id in effects && !IsKeyIn(id, key, n, |ps|)
    ensures var r := Explosions(effects, key, n, ps); id in r && r[id] == effects[id]
    decreases |ps|
  {
    if ps != [] {
      assert id != key(n + 1);
      var first := effects[key(n + 1) := ExplosionAt(key(n + 1), ps[0])];
      assert !IsKeyIn(id, key, n + 1, |ps[1..]|);
      ExplosionsKeep(first, key, n + 1, ps[1..], id);
    }
  }

  lemma {:induction false} ExplosionPlaced(effects: map<string, Effect>, key: int -> string, n: int, ps: seq<MathUtils.Vector3>, c: int)
    requires Injective(key) && n < c <= n + |ps|
    ensures var r := Explosions(effects, key, n, ps);
      key(c) in r && r[key(c)] == ExplosionAt(key(c), ps[c - n - 1])
    decreases |ps|
  {
    var first := effects[key(n + 1) := ExplosionAt(key(n + 1), ps[0])];
    assert Explosions(effects, key, n, ps) == Explosions(first, key, n + 1, ps[1..]);
    if c == n + 1 {
      ExplosionsKeep(first, key, n + 1, ps[1..], key(c));
    } else {
      ExplosionPlaced(first, key, n + 1, ps[1..], c);
      assert ps[1..][c - (n + 1) - 1] == ps[c - n - 1];
    }
  }

  lemma {:induction false} ExplosionsSnoc(effects: map<string, Effect>, key: int -> string, n: int, ps: seq<MathUtils.Vector3>, p: MathUtils.Vector3)
    ensures Explosions(effects, key, n, ps + [p]) == Explosions(effects, key, n, ps)[key(n + |ps| + 1) := ExplosionAt(key(n + |ps| + 1), p)]
    decreases |ps|
  {
    if ps == [] {
      assert [] + [p] == [p];
    } else {
      var first := effects[key(n + 1) := ExplosionAt(key(n + 1), ps[0])];
      var rest := ps[1..];
      assert (ps + [p])[0] == ps[0] && (ps + [p])[1..] == rest + [p];
      ExplosionsSnoc(first, key, n + 1, rest, p);
      assert n + 1 + |rest| + 1 == n + |ps| + 1;
    }
  }

  lemma MinusKeeps<K, V>(m: map<K, V>, gone: set<K>, key: K)
    requires key in m && key !in gone
    ensures key in m - gone && (m - gone)[key] == m[key]
  {
  }

  /** The ids before index `j`. */
  function Firsts(ids: seq<string>, j: nat): (r: set<string>)
    requires j <= |ids|
    ensures forall id :: id in r <==> exists k :: 0 <= k < j && ids[k] == id
  {
    set k | 0 <= k < j :: ids[k]
  }

  lemma FirstsSnoc(ids: seq<string>, j: nat)
    requires j < |ids|
    requires forall a, b :: 0 <= a < b < |ids| ==> ids[a] != ids[b]
    ensures ids[j] !in Firsts(ids, j) && Firsts(ids, j + 1) == Firsts(ids, j) + {ids[j]}
  {
  }

  lemma MinusSnoc<K, V>(m: map<K, V>, gone: set<K>, key: K)
    ensures (m - gone) - {key} == m - (gone + {key})
  {
  }

  lemma PrefixSnoc<T>(s: seq<T>, j: nat)
    requires j < |s|
    ensures s[..j + 1] == s[..j] + [s[j]]
  {
  }

  lemma WholePrefix<T>(s: seq<T>)
    ensures s[..|s|] == s
  {
  }

  /** One object_removed event per id, in order. */
  function Removals(ids: seq<string>): (r: seq<Event>)
    ensures |r| == |ids| && forall k :: 0 <= k < |ids| ==> r[k] == ObjectRemoved(ids[k])
  {
    seq(|ids|, k requires 0 <= k < |ids| => ObjectRemoved(ids[k]))
  }

  lemma RemovalsSnoc(before: seq<Event>, ids: seq<string>, id: string)
    ensures (before + Removals(ids)) + [ObjectRemoved(id)] == before + Removals(ids + [id])
  {
    assert Removals(ids + [id]) == Removals(ids) + [ObjectRemoved(id)];
  }

  /** The physics list after removing each body in turn, by its id. */
  function UnlistedAll(list: seq<Objects.Body>, bodies: seq<Objects.Body>): seq<Objects.Body>
    decreases |bodies|
  {
    if bodies == [] then list else UnlistedAll(Physics.Unlisted(list, bodies[0].id), bodies[1..])
  }

  lemma {:induction false} UnlistedAllSnoc(list: seq<Objects.Body>, bodies: seq<Objects.Body>, b: Objects.Body)
    ensures UnlistedAll(list, bodies + [b]) == Physics.Unlisted(UnlistedAll(list, bodies), b.id)
    decreases |bodies|
  {
    if bodies == [] {
      assert [] + [b] == [b];
    } else {
      assert (bodies + [b])[0] == bodies[0] && (bodies + [b])[1..] == bodies[1..] + [b];
      UnlistedAllSnoc(Physics.Unlisted(list, bodies[0].id), bodies[1..], b);
    }
  }

  class World {
    var objects: map<string, Objects.Body>
    var ships: map<string, Objects.Ship>
    var effects: map<string, Effect>
    const physics: Physics.Engine
    var playerShipId: string
    var timeAcceleration: real
    var alertLevel: int
    var idCounter: int
    var events: seq<Event>

    /** NewUniverse before its default scenario: empty registries, time at normal speed, counter at 1. */
    constructor ()
      ensures objects == map[] && ships == map[] && effects == map[] && fresh(physics) && physics.objects == []
      ensures playerShipId == "" && timeAcceleration == 1.0 && alertLevel == 0 && idCounter == 1 && events == []
    {
      objects, ships, effects := map[], map[], map[];
      physics := new Physics.Engine();
      playerShipId := "";
      timeAcceleration := 1.0;
      alertLevel := 0;
      idCounter := 1;
      events := [];
    }

    /** generateID: the counter is incremented first, so the first id ends in 2. */
    method GenerateId(prefix: string) returns (id: string)
      modifies this`idCounter
      ensures idCounter == old(idCounter) + 1 && id == FormatId(prefix, idCounter)
    {
      idCounter := idCounter + 1;
      id := prefix + "_" + Text.IntToString(idCounter);
    }

    method AddObject(obj: Objects.Body)
      modifies this`objects, this`events, physics`objects
      ensures objects == old(objects)[obj.id := obj]
      ensures physics.objects == old(physics.objects) + [obj]
      ensures events == old(events) + [ObjectAdded(obj.id)]
    {
      objects := objects[obj.id := obj];
      physics.AddObject(obj);
      events := events + [ObjectAdded(obj.id)];
    }

    /** AddShip registers the ship and its own embedded object under the same id. */
    method AddShip(ship: Objects.Ship)
      modifies this`ships, this`objects, this`events, physics`objects
      ensures ships == old(ships)[ship.obj.id := ship] && objects == old(objects)[ship.obj.id := ship.obj]
      ensures physics.objects == old(physics.objects) + [ship.obj]
      ensures events == old(events) + [ShipAdded(ship.obj.id)]
    {
      ships := ships[ship.obj.id := ship];
      objects := objects[ship.obj.id := ship.obj];
      physics.AddObject(ship.obj);
      events := events + [ShipAdded(ship.obj.id)];
    }

    /** RemoveObject: a present id leaves both maps and the physics list, with one event; an absent id changes nothing. */
    method RemoveObject(id: string)
      modifies this`objects, this`ships, this`events, physics`objects
      ensures id !in old(objects) ==>
        objects == old(objects) && ships == old(ships) && events == old(events) && physics.objects == old(physics.objects)
      ensures id in old(objects) ==>
        objects == old(objects) - {id} && ships == old(ships) - {id} && events == old(events) + [ObjectRemoved(id)]
      ensures id in old(objects) ==> physics.objects == Physics.Unlisted(old(physics.objects), old(objects)[id].id)
    {
      if id in objects {
        var obj := objects[id];
        physics.RemoveObject(obj);
        objects := objects - {id};
        ships := ships - {id};
        events := events + [ObjectRemoved(id)];
      }
    }

    function GetPlayerShip(): (r: Option<Objects.Ship>)
      reads this
      ensures r.Some? <==> playerShipId in ships
      ensures r.Some? ==> r.value == ships[playerShipId]
    {
      if playerShipId in ships then Some(ships[playerShipId]) else None
    }

    /** updateEffects: each effect loses dt, and exactly those left with no time are deleted. */
    method UpdateEffects(dt: real)
      modifies this`effects
      ensures effects == Aged(old(effects), dt)
    {
      ghost var aged := Aged(effects, dt);
      var todo := effects.Keys;
      while todo != {}
        invariant todo <= old(effects).Keys
        invariant forall id :: id in todo ==> id in effects && effects[id] == old(effects)[id]
        invariant forall id :: id in effects && id !in todo ==> id in aged && effects[id] == aged[id]
        invariant forall id :: id in aged && id !in todo ==> id in effects
        invariant forall id :: id in effects ==> id in old(effects)
        decreases |todo|
      {
        var id :| id in todo;
        var effect := effects[id];
        effect := effect.(timeLeft := effect.timeLeft - dt);
        if effect.timeLeft <= 0.0 {
          assert id !in aged;
          effects := effects - {id};
        } else {
          assert aged[id] == effect;
          effects := effects[id := effect];
        }
        todo := todo - {id};
      }
    }

    /** createExplosion without the physics impulse: a new explosion effect under a fresh id. */
    method CreateExplosion(position: MathUtils.Vector3)
      modifies this`idCounter, this`effects
      ensures idCounter == old(idCounter) + 1
      ensures effects == old(effects)[ExplosionId(idCounter) := ExplosionAt(ExplosionId(idCounter), position)]
    {
      var id := GenerateId("explosion");
      effects := effects[id := Effect(id, "explosion", position, ExplosionDuration, ExplosionDuration)];
    }

    /**
     * The first loop of removeExpiredObjects: the ids of the expired or
     * destroyed objects, each once, in map order.
     */
    method ExpiredIds() returns (ids: seq<string>)
      ensures forall id :: id in ids <==> id in objects && (objects[id].IsExpired() || objects[id].IsDestroyed())
      ensures forall a, b :: 0 <= a < b < |ids| ==> ids[a] != ids[b]
    {
      ids := [];
      var todo := objects.Keys;
      while todo != {}
        invariant todo <= objects.Keys
        invariant forall id :: id in ids ==> id !in todo
        invariant forall id :: id in ids <==> id in objects && id !in todo && (objects[id].IsExpired() || objects[id].IsDestroyed())
        invariant forall a, b :: 0 <= a < b < |ids| ==> ids[a] != ids[b]
        decreases |todo|
      {
        var id :| id in todo;
        var obj := objects[id];
        if obj.IsExpired() || obj.IsDestroyed() {
          ids := ids + [id];
        }
        todo := todo - {id};
      }
    }

    /** The registered objects under the given ids, in order. */
    function Removed(ids: seq<string>): (bodies: seq<Objects.Body>)
      reads this
      requires forall id :: id in ids ==> id in objects
      ensures |bodies| == |ids| && forall k :: 0 <= k < |ids| ==> bodies[k] == objects[ids[k]]
    {
      var m := objects;
      seq(|ids|, k requires 0 <= k < |ids| => m[ids[k]])
    }

    /**
     * One pass of removeExpiredObjects' second loop: a destroyed object
     * explodes at its position under the next explosion id, and a
     * registered object is removed from the maps and the physics list
     * with its event; an unknown id changes nothing.
     */
    method Retire(id: string)
      modifies this`objects, this`ships, this`events, this`idCounter, this`effects, physics`objects
      ensures id in old(objects) ==>
        objects == old(objects) - {id} && ships == old(ships) - {id} && events == old(events) + [ObjectRemoved(id)] &&
        physics.objects == Physics.Unlisted(old(physics.objects), old(objects)[id].id)
      ensures id !in old(objects) ==>
        objects == old(objects) && ships == old(ships) && events == old(events) && physics.objects == old(physics.objects)
      ensures id in old(objects) && old(objects[id].IsDestroyed()) ==>
        idCounter == old(idCounter) + 1 &&
        effects == old(effects)[ExplosionId(idCounter) := ExplosionAt(ExplosionId(idCounter), old(objects[id].position))]
      ensures !(id in old(objects) && old(objects[id].IsDestroyed())) ==> idCounter == old(idCounter) && effects == old(effects)
    {
      if id in objects && objects[id].IsDestroyed() {
        CreateExplosion(objects[id].position);
      }
      RemoveObject(id);
    }

    /**
     * removeExpiredObjects: each collected id (`removed`, in map order)
     * gets an explosion and is removed. Since no object expires, exactly
     * the destroyed objects go, from the ships as well.
     */
    method RemoveExpiredObjects() returns (ghost removed: seq<string>)
      modifies this`objects, this`ships, this`events, this`idCounter, this`effects, physics`objects
      ensures objects == Survivors(old(objects))
      ensures ships == old(ships) - (set id | id in removed)
      ensures forall id :: id in removed <==> id in old(objects) && old(objects)[id].IsDestroyed()
      ensures idCounter == old(idCounter) + |removed|
      ensures events == old(events) + Removals(removed)
      ensures effects == old(Explosions(effects, ExplosionId, idCounter, Positions(Removed(removed))))
      ensures physics.objects == old(UnlistedAll(physics.objects, Removed(removed)))
    {
      var toRemove := ExpiredIds();
      removed := toRemove;
      SurvivorsLeft(objects, removed);
      RetireAll(toRemove);
    }

    /** The second loop of removeExpiredObjects: each of the distinct destroyed ids, in order, is retired. */
    method RetireAll(toRemove: seq<string>)
      requires forall id :: id in toRemove ==> id in objects && objects[id].IsDestroyed()
      requires forall a, b :: 0 <= a < b < |toRemove| ==> toRemove[a] != toRemove[b]
      modifies this`objects, this`ships, this`events, this`idCounter, this`effects, physics`objects
      ensures objects == old(objects) - (set id | id in toRemove) && ships == old(ships) - (set id | id in toRemove)
      ensures idCounter == old(idCounter) + |toRemove|
      ensures events == old(events) + Removals(toRemove)
      ensures effects == old(Explosions(effects, ExplosionId, idCounter, Positions(Removed(toRemove))))
      ensures physics.objects == old(UnlistedAll(physics.objects, Removed(toRemove)))
    {
      ghost var objs0, ships0, events0, e0, n0, list0 := objects, ships, events, effects, idCounter, physics.objects;
      ghost var bodies := Removed(toRemove);
      ghost var ps := Positions(bodies);
      var j := 0;
      while j < |toRemove|
        invariant j <= |toRemove|
        invariant forall k :: 0 <= k < |toRemove| ==>
          toRemove[k] in objs0 && bodies[k] == objs0[toRemove[k]] && ps[k] == bodies[k].position && bodies[k].IsDestroyed()
        invariant Retiring(objs0, ships0, events0, e0, n0, list0, toRemove, bodies, ps, j)
      {
        RetireNext(toRemove, objs0, ships0, events0, e0, n0, list0, bodies, ps, j);
        j := j + 1;
      }
      assert Firsts(toRemove, j) == set id | id in toRemove;
      WholePrefix(bodies);
      WholePrefix(ps);
      WholePrefix(toRemove);
    }

    /**
     * RetireAll's loop invariant: the first `j` ids have left the maps
     * (from `objs0` and `ships0`) with their events, explosions at the
     * positions `ps` and removals of the `bodies` from the physics list.
     */
    ghost predicate Retiring(objs0: map<string, Objects.Body>, ships0: map<string, Objects.Ship>, events0: seq<Event>,
                             e0: map<string, Effect>, n0: int, list0: seq<Objects.Body>,
                             toRemove: seq<string>, bodies: seq<Objects.Body>, ps: seq<MathUtils.Vector3>, j: nat)
      reads this, physics
    {
      j <= |toRemove| && j <= |bodies| && j <= |ps| &&
      objects == objs0 - Firsts(toRemove, j) && ships == ships0 - Firsts(toRemove, j) &&
      idCounter == n0 + j && events == events0 + Removals(toRemove[..j]) &&
      effects == Explosions(e0, ExplosionId, n0, ps[..j]) && physics.objects == UnlistedAll(list0, bodies[..j])
    }

    /** One pass of RetireAll's loop: retiring the `j`-th id extends the invariant to `j + 1`. */
    method RetireNext(toRemove: seq<string>, ghost objs0: map<string, Objects.Body>, ghost ships0: map<string, Objects.Ship>,
                      ghost events0: seq<Event>, ghost e0: map<string, Effect>, ghost n0: int, ghost list0: seq<Objects.Body>,
                      ghost bodies: seq<Objects.Body>, ghost ps: seq<MathUtils.Vector3>, j: nat)
      requires j < |toRemove| == |bodies| == |ps|
      requires forall a, b :: 0 <= a < b < |toRemove| ==> toRemove[a] != toRemove[b]
      requires toRemove[j] in objs0 && bodies[j] == objs0[toRemove[j]] && ps[j] == bodies[j].position && bodies[j].IsDestroyed()
      requires Retiring(objs0, ships0, events0, e0, n0, list0, toRemove, bodies, ps, j)
      modifies this`objects, this`ships, this`events, this`idCounter, this`effects, physics`objects
      ensures Retiring(objs0, ships0, events0, e0, n0, list0, toRemove, bodies, ps, j + 1)
    {
      var id := toRemove[j];
      ghost var gone := Firsts(toRemove, j);
      FirstsSnoc(toRemove, j);
      MinusKeeps(objs0, gone, id);
      assert objects[id] == bodies[j] && bodies[j].IsDestroyed();
      Retire(id);
      assert objects == (objs0 - gone) - {id} && ships == (ships0 - gone) - {id};
      MinusSnoc(objs0, gone, id);
      MinusSnoc(ships0, gone, id);
      assert idCounter == n0 + j + 1;
      assert events == (events0 + Removals(toRemove[..j])) + [ObjectRemoved(id)];
      PrefixSnoc(toRemove, j);
      RemovalsSnoc(events0, toRemove[..j], id);
      assert effects == Explosions(e0, ExplosionId, n0, ps[..j])[ExplosionId(n0 + j + 1) := ExplosionAt(ExplosionId(n0 + j + 1), ps[j])];
      PrefixSnoc(ps, j);
      ExplosionsSnoc(e0, ExplosionId, n0, ps[..j], ps[j]);
      assert physics.objects == Physics.Unlisted(UnlistedAll(list0, bodies[..j]), bodies[j].id);
      PrefixSnoc(bodies, j);
      UnlistedAllSnoc(list0, bodies[..j], bodies[j]);
    }

    /** SetTimeAcceleration stores the factor clamped to [0.1, 10]. */
    method SetTimeAcceleration(factor: real)
      modifies this`timeAcceleration
      ensures timeAcceleration == MathUtils.Clamp(factor, 0.1, 10.0)
      ensures 0.1 <= timeAcceleration <= 10.0
    {
      timeAcceleration := MathUtils.Clamp(factor, 0.1, 10.0);
    }

    /** SetAlertLevel stores the level clamped to 0..3 but reports the level as given. */
    method SetAlertLevel(level: int)
      modifies this`alertLevel, this`events
      ensures alertLevel == (if level < 0 then 0 else if level > 3 then 3 else level)
      ensures events == old(events) + [AlertLevelChanged(level)]
    {
      var clamped := MathUtils.Clamp(level as real, 0.0, 3.0);
      alertLevel := clamped.Floor;
      events := events + [AlertLevelChanged(level)];
    }

    /**
     * FireWeapon's guard: an absent ship, or one whose weapon cannot fire,
     * yields false and changes nothing; otherwise the ship fires.
     */
    method FireWeapon(shipId: string, weaponId: string, now: real) returns (ok: bool)
      modifies if shipId in ships then {ships[shipId]} else {}
      modifies if shipId in ships then {ships[shipId].obj} else {}
      ensures shipId !in ships ==> !ok
      ensures shipId in ships ==>
        var s := ships[shipId];
        var idx := Objects.FirstWeapon(old(s.weapons), weaponId);
        (ok <==> (idx.Some? && Objects.Ready(old(s.weapons)[idx.value], now, old(s.obj.power),
                                            Objects.SystemOrZero(s.systems, "weapons").isOnline))) &&
        (!ok ==> s.weapons == old(s.weapons) && s.obj.power == old(s.obj.power)) &&
        (ok ==> s.weapons == old(s.weapons)[idx.value := Objects.Fired(old(s.weapons)[idx.value], now)] &&
                s.obj.power == old(s.obj.power) - old(s.weapons)[idx.value].powerCost)
    {
      if shipId !in ships {
        return false;
      }
      var ship := ships[shipId];
      var can := ship.CanFireWeapon(weaponId, now);
      if !can {
        return false;
      }
      ok := ship.FireWeapon(weaponId, now);
    }

    /**
     * The heading wrap of autoPilotToHeading: whole turns are removed while
     * the difference is above 180 and added while it is below -180.
     */
    static method WrapHeading(diff: real) returns (d: real)
      ensures d == Wrap(diff) && WrapsTo(diff, d)
    {
      d := diff;
      while d > 180.0
        invariant WrapDown(d) == WrapDown(diff)
        decreases d.Floor
      {
        d := d - 360.0;
      }
      while d < -180.0
        invariant WrapUp(d) == Wrap(diff)
        decreases (-d).Floor
      {
        d := d + 360.0;
      }
      WrapCorrect(diff);
    }

    /**
     * autoPilotToHeading given the current heading: within one degree of
     * the target (after wrapping) the autopilot is disabled; otherwise the
     * ship turns towards the target, in the sign of the wrapped difference,
     * by its turn rate scaled by engine efficiency and time.
     */
    method AutoPilotToHeading(ship: Objects.Ship, currentHeading: real, dt: real)
      modifies ship`autoPilot, ship.obj`angularVel
      ensures var d := Wrap(old(ship.autoPilot).targetHeading - currentHeading);
        (Abs(d) < 1.0 ==> ship.autoPilot == Objects.Manual(old(ship.autoPilot)) && ship.obj.angularVel == old(ship.obj.angularVel)) &&
        (Abs(d) >= 1.0 ==> (ship.autoPilot == old(ship.autoPilot) &&
          ship.obj.angularVel == old(ship.obj.angularVel).(y := old(ship.obj.angularVel).y +
            (if d < 0.0 then -1.0 else 1.0) * (ship.turnRate * ship.SystemEfficiency("engines") * dt) * 0.01)))
    {
      var headingDiff := WrapHeading(ship.autoPilot.targetHeading - currentHeading);
      if Abs(headingDiff) < 1.0 {
        ship.DisableAutoPilot();
        return;
      }
      var turnDirection := 1.0;
      if headingDiff < 0.0 {
        turnDirection := -1.0;
      }
      var turnRate := ship.turnRate * ship.SystemEfficiency("engines") * dt;
      ship.obj.ApplyTorque(MathUtils.Vector3(0.0, turnDirection * turnRate, 0.0));
    }
  }

  /**
   * The loops fix one value at the half-turn: 540 comes down to 180 and
   * -540 up to -180; 190 comes down to -170.
   */
  lemma WrapExamples()
    ensures Wrap(190.0) == -170.0 && Wrap(540.0) == 180.0 && Wrap(-540.0) == -180.0
  {
    assert WrapDown(190.0) == WrapDown(-170.0) == -170.0;
    assert WrapDown(540.0) == WrapDown(180.0) == 180.0;
    assert WrapUp(-540.0) == WrapUp(-180.0) == -180.0;
  }
}
