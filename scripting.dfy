/**
 * Mission and trigger bookkeeping of the Lua scripting engine
 * (backend/scripting/lua.go). The Lua virtual machine, the Lua values a
 * trigger carries (its condition and action), and the mission's free-form
 * state map are not part of this model. Each script call reads its
 * arguments from the Lua stack; here they are plain parameters.
 */
module Scripting {
  import opened Wrappers
  import Values

  /** A trigger, without its Lua condition and action. */
  datatype Trigger = Trigger(id: string, ttype: string, active: bool)

  /** A mission; the start time is the clock reading passed in. */
  datatype Mission = Mission(
    name: string,
    description: string,
    objectives: seq<string>,
    isActive: bool,
    isComplete: bool,
    startTime: real)

  const CompleteMark := "[COMPLETE] "

  /** The names of the missions that are active. */
  function ActiveNames(missions: map<string, Mission>): set<string>
  {
    set n | n in missions && missions[n].isActive
  }

  /** A fresh mission: active, not complete, no objectives. */
  function NewMission(name: string, description: string, now: real): Mission
  {
    Mission(name, description, [], true, false, now)
  }

  /** The mission after completeMission. */
  function Completed(m: Mission): Mission
  {
    m.(isComplete := true, isActive := false)
  }

  /**
   * completeObjective's effect on the objective list: the entry at the
   * index gets the completion mark in front; an index outside the list
   * changes nothing.
   */
  function MarkObjective(objectives: seq<string>, index: int): (r: seq<string>)
    ensures |r| == |objectives|
    ensures 0 <= index < |objectives| ==> r[index] == CompleteMark + objectives[index]
    ensures forall k :: 0 <= k < |r| && k != index ==> r[k] == objectives[k]
  {
    if 0 <= index < |objectives| then objectives[index := CompleteMark + objectives[index]] else objectives
  }

  /** Completing an objective twice marks it twice: the mark is not checked for. */
  lemma MarkTwice(objectives: seq<string>, index: int)
    requires 0 <= index < |objectives|
    ensures MarkObjective(MarkObjective(objectives, index), index)[index] == CompleteMark + CompleteMark + objectives[index]
  {
  }

  /** Starting a mission makes its name active; the other missions keep their status. */
  lemma StartActivates(missions: map<string, Mission>, name: string, description: string, now: real)
    ensures ActiveNames(missions[name := NewMission(name, description, now)]) == ActiveNames(missions) + {name}
  {
  }

  /** Completing a mission takes exactly its name out of the active ones. */
  lemma CompleteDeactivates(missions: map<string, Mission>, name: string)
    requires name in missions
    ensures ActiveNames(missions[name := Completed(missions[name])]) == ActiveNames(missions) - {name}
  {
  }

  class LuaEngine {
    var triggers: map<string, Trigger>
    var missions: map<string, Mission>

    /** NewLuaEngine: no triggers, no missions. */
    constructor ()
      ensures triggers == map[] && missions == map[]
    {
      triggers := map[];
      missions := map[];
    }

    /** checkTrigger: true exactly for a registered trigger that is active. */
    function CheckTrigger(id: string): (r: bool)
      reads this
      ensures r <==> id in triggers && triggers[id].active
    {
      id in triggers && triggers[id].active
    }

    /** createTrigger inserts or overwrites an active trigger under its id. */
    method CreateTrigger(id: string, ttype: string)
      modifies this`triggers
      ensures triggers == old(triggers)[id := Trigger(id, ttype, true)]
      ensures CheckTrigger(id)
    {
      triggers := triggers[id := Trigger(id, ttype, true)];
    }

    /** removeTrigger deletes the entry; an absent id changes nothing. */
    method RemoveTrigger(id: string)
      modifies this`triggers
      ensures triggers == old(triggers) - {id}
      ensures id !in old(triggers) ==> triggers == old(triggers)
      ensures !CheckTrigger(id)
    {
      triggers := triggers - {id};
    }

    /** startMission replaces any mission of that name by a fresh active one. */
    method StartMission(name: string, description: string, now: real)
      modifies this`missions
      ensures missions == old(missions)[name := NewMission(name, description, now)]
      ensures ActiveNames(missions) == ActiveNames(old(missions)) + {name}
    {
      StartActivates(missions, name, description, now);
      missions := missions[name := NewMission(name, description, now)];
    }

    /** completeMission marks an existing mission complete and inactive. */
    method CompleteMission(name: string)
      modifies this`missions
      ensures name in old(missions) ==> missions == old(missions)[name := Completed(old(missions)[name])]
      ensures name !in old(missions) ==> missions == old(missions)
      ensures ActiveNames(missions) == ActiveNames(old(missions)) - {name}
    {
      if name in missions {
        CompleteDeactivates(missions, name);
        missions := missions[name := Completed(missions[name])];
      }
    }

    /** setObjective appends to an existing mission's objectives only. */
    method SetObjective(name: string, objective: string)
      modifies this`missions
      ensures name in old(missions) ==>
        missions == old(missions)[name := old(missions)[name].(objectives := old(missions)[name].objectives + [objective])]
      ensures name !in old(missions) ==> missions == old(missions)
    {
      if name in missions {
        var m := missions[name];
        missions := missions[name := m.(objectives := m.objectives + [objective])];
      }
    }

    /**
     * completeObjective: the Lua number is truncated toward zero to an
     * index, and only an index inside the list marks an objective.
     */
    method CompleteObjective(name: string, index: real)
      modifies this`missions
      ensures name in old(missions) ==>
        missions == old(missions)[name := old(missions)[name].(objectives := MarkObjective(old(missions)[name].objectives, Values.TruncToInt(index)))]
      ensures name !in old(missions) ==> missions == old(missions)
    {
      if name in missions {
        var i := Values.TruncToInt(index);
        var m := missions[name];
        if 0 <= i < |m.objectives| {
          missions := missions[name := m.(objectives := m.objectives[i := CompleteMark + m.objectives[i]])];
        } else {
          missions := missions[name := m];
        }
      }
    }

    /** GetActiveMission: none exactly when no mission is active, otherwise some active one. */
    method GetActiveMission() returns (r: Option<Mission>)
      ensures r.None? <==> ActiveNames(missions) == {}
      ensures r.Some? ==> exists n :: n in missions && missions[n] == r.value && r.value.isActive
    {
      var todo := missions.Keys;
      while todo != {}
        invariant todo <= missions.Keys
        invariant forall n :: n in missions && n !in todo ==> !missions[n].isActive
        decreases todo
      {
        var n :| n in todo;
        if missions[n].isActive {
          assert n in ActiveNames(missions);
          return Some(missions[n]);
        }
        todo := todo - {n};
      }
      assert forall n :: n in missions ==> !missions[n].isActive;
      return None;
    }
  }
}
