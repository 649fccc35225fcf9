/**
 * The object list of the physics engine (backend/universe/physics.go): a
 * slice of object pointers that is appended to, spliced, scanned for an id
 * and filtered by type. The force, collision and raycast code is not part
 * of this model.
 */
module Physics {
  import opened Wrappers
  import Objects

  /** The index of the first entry with this id. */
  function FirstWithId(objs: seq<Objects.Body>, id: string): (r: Option<nat>)
    ensures r.None? <==> forall i :: 0 <= i < |objs| ==> objs[i].id != id
    ensures r.Some? ==> r.value < |objs| && objs[r.value].id == id &&
                        forall i :: 0 <= i < r.value ==> objs[i].id != id
  {
    if objs == [] then None
    else if objs[0].id == id then Some(0)
    else match FirstWithId(objs[1..], id)
      case None => None
      case Some(i) => Some(i + 1)
  }

  /** The list with its first entry of this id spliced out, or as it was without one. */
  function Unlisted(objs: seq<Objects.Body>, id: string): (r: seq<Objects.Body>)
    ensures FirstWithId(objs, id).None? ==> r == objs
    ensures FirstWithId(objs, id).Some? ==>
      (var i := FirstWithId(objs, id).value; |r| == |objs| - 1 && r[..i] == objs[..i] && r[i..] == objs[i + 1..])
  {
    match FirstWithId(objs, id)
    case None => objs
    case Some(i) => objs[..i] + objs[i + 1..]
  }

  /** The entries of one type, in list order. */
  function OfType(objs: seq<Objects.Body>, kind: string): seq<Objects.Body>
  {
    if objs == [] then []
    else (if objs[0].kind == kind then [objs[0]] else []) + OfType(objs[1..], kind)
  }

  /** OfType keeps exactly the entries of that type: each kept one has it, and each one with it is kept. */
  lemma {:induction false} OfTypeExact(objs: seq<Objects.Body>, kind: string)
    ensures forall o :: o in OfType(objs, kind) ==> o in objs && o.kind == kind
    ensures forall o :: o in objs && o.kind == kind ==> o in OfType(objs, kind)
    ensures |OfType(objs, kind)| <= |objs|
  {
    if objs != [] {
      OfTypeExact(objs[1..], kind);
      assert objs == [objs[0]] + objs[1..];
    }
  }

  /** Filtering distributes over concatenation, so the filter keeps list order. */
  lemma {:induction false} OfTypeAppend(a: seq<Objects.Body>, b: seq<Objects.Body>, kind: string)
    ensures OfType(a + b, kind) == OfType(a, kind) + OfType(b, kind)
  {
    if a == [] {
      assert a + b == b;
    } else {
      var head := if a[0].kind == kind then [a[0]] else [];
      assert (a + b)[0] == a[0] && (a + b)[1..] == a[1..] + b;
      assert OfType(a + b, kind) == head + OfType(a[1..] + b, kind);
      OfTypeAppend(a[1..], b, kind);
      assert OfType(a, kind) == head + OfType(a[1..], kind);
      assert head + (OfType(a[1..], kind) + OfType(b, kind)) == (head + OfType(a[1..], kind)) + OfType(b, kind);
    }
  }

  class Engine {
    var objects: seq<Objects.Body>

    constructor ()
      ensures objects == []
    {
      objects := [];
    }

    /** AddObject appends: one more entry at the end, the others as they were. */
    method AddObject(obj: Objects.Body)
      modifies this`objects
      ensures objects == old(objects) + [obj]
    {
      objects := objects + [obj];
    }

    /**
     * RemoveObject removes the first entry with the object's id, keeping
     * the order of the rest; without such an entry nothing changes.
     */
    method RemoveObject(obj: Objects.Body)
      modifies this`objects
      ensures objects == Unlisted(old(objects), obj.id)
    {
      var i := 0;
      while i < |objects|
        invariant i <= |objects| && objects == old(objects)
        invariant forall k :: 0 <= k < i ==> objects[k].id != obj.id
      {
        if objects[i].id == obj.id {
          objects := objects[..i] + objects[i + 1..];
          return;
        }
        i := i + 1;
      }
    }

    /** findObjectByID: the first entry with the id, or none. */
    method FindObjectById(id: string) returns (r: Option<Objects.Body>)
      ensures FirstWithId(objects, id).None? ==> r.None?
      ensures FirstWithId(objects, id).Some? ==> r == Some(objects[FirstWithId(objects, id).value])
    {
      var i := 0;
      while i < |objects|
        invariant i <= |objects|
        invariant forall k :: 0 <= k < i ==> objects[k].id != id
      {
        if objects[i].id == id {
          return Some(objects[i]);
        }
        i := i + 1;
      }
      return None;
    }

    /** GetObjectsByType: the entries of that type, in list order. */
    method GetObjectsByType(kind: string) returns (r: seq<Objects.Body>)
      ensures r == OfType(objects, kind)
    {
      r := [];
      var i := 0;
      while i < |objects|
        invariant i <= |objects|
        invariant r == OfType(objects[..i], kind)
      {
        assert objects[..i + 1] == objects[..i] + [objects[i]];
        OfTypeAppend(objects[..i], [objects[i]], kind);
        if objects[i].kind == kind {
          r := r + [objects[i]];
        }
        i := i + 1;
      }
      assert objects[..i] == objects;
    }
  }
}
