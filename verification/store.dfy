/** The record store of data_manager.py: the pilot, drone and mission tables
    held in memory, and the four in-place cell updates the engine commits with.
    Loading and saving (CSV files, Google Sheets) are not modelled. */
module Store {
  import opened Records

  /** `table.loc[table[key] == id, column] = value`: every row whose key is `id`
      is rewritten by `f`; all other rows are kept as they are. */
  function UpdateWhere<T>(rows: seq<T>, key: T -> string, id: string, f: T -> T): (r: seq<T>)
    ensures |r| == |rows|
    ensures forall i :: 0 <= i < |rows| && key(rows[i]) != id ==> r[i] == rows[i]
    ensures forall i :: 0 <= i < |rows| && key(rows[i]) == id ==> r[i] == f(rows[i])
  {
    seq(|rows|, i requires 0 <= i < |rows| => if key(rows[i]) == id then f(rows[i]) else rows[i])
  }

  /** A lookup after an update that keeps keys: the updated id finds the
      rewritten row, every other id finds what it found before. */
  lemma {:induction false} FindAfterUpdate<T>(rows: seq<T>, key: T -> string, id: string, f: T -> T, x: string)
    requires forall t :: key(f(t)) == key(t)
    ensures x != id ==> Find(UpdateWhere(rows, key, id, f), key, x) == Find(rows, key, x)
    ensures x == id ==> Find(UpdateWhere(rows, key, id, f), key, x) ==
                          if Find(rows, key, x).Some? then Some(f(Find(rows, key, x).value)) else None
  {
    if rows != [] {
      var updated := UpdateWhere(rows, key, id, f);
      assert updated[1..] == UpdateWhere(rows[1..], key, id, f);
      FindAfterUpdate(rows[1..], key, id, f, x);
    }
  }

  lemma FindAfterUpdateAll<T>(rows: seq<T>, key: T -> string, id: string, f: T -> T)
    requires forall t :: key(f(t)) == key(t)
    ensures forall x :: x != id ==> Find(UpdateWhere(rows, key, id, f), key, x) == Find(rows, key, x)
    ensures Find(UpdateWhere(rows, key, id, f), key, id) ==
              if Find(rows, key, id).Some? then Some(f(Find(rows, key, id).value)) else None
  {
    forall x | x != id
      ensures Find(UpdateWhere(rows, key, id, f), key, x) == Find(rows, key, x)
    {
      FindAfterUpdate(rows, key, id, f, x);
    }
    FindAfterUpdate(rows, key, id, f, id);
  }

  /** The pilot table after `update_pilot_status(id, status)` found `id`. */
  function SetPilotStatus(rows: seq<Pilot>, id: string, status: string): (r: seq<Pilot>)
    ensures |r| == |rows|
    ensures FindPilot(r, id) == if FindPilot(rows, id).Some? then Some(FindPilot(rows, id).value.(status := status)) else None
    ensures forall x :: x != id ==> FindPilot(r, x) == FindPilot(rows, x)
    ensures forall i :: 0 <= i < |r| ==> r[i] == rows[i].(status := r[i].status)
    ensures forall i :: 0 <= i < |r| ==> r[i].status == if rows[i].pilotId == id then status else rows[i].status
  {
    var f := (p: Pilot) => p.(status := status);
    FindAfterUpdateAll(rows, PilotKey, id, f);
    UpdateWhere(rows, PilotKey, id, f)
  }

  /** The pilot table after `assign_pilot(id, project)` found `id`. */
  function AssignPilotRows(rows: seq<Pilot>, id: string, project: string): (r: seq<Pilot>)
    ensures |r| == |rows|
    ensures FindPilot(r, id) ==
              if FindPilot(rows, id).Some?
              then Some(FindPilot(rows, id).value.(currentAssignment := project, status := StatusAssigned))
              else None
    ensures forall x :: x != id ==> FindPilot(r, x) == FindPilot(rows, x)
    ensures forall i :: 0 <= i < |r| && rows[i].pilotId != id ==> r[i] == rows[i]
    ensures forall i :: 0 <= i < |r| && rows[i].pilotId == id ==>
              r[i] == rows[i].(currentAssignment := project, status := StatusAssigned)
  {
    var f := (p: Pilot) => p.(currentAssignment := project, status := StatusAssigned);
    FindAfterUpdateAll(rows, PilotKey, id, f);
    UpdateWhere(rows, PilotKey, id, f)
  }

  /** The drone table after `update_drone_status(id, status)` found `id`. */
  function SetDroneStatus(rows: seq<Drone>, id: string, status: string): (r: seq<Drone>)
    ensures |r| == |rows|
    ensures FindDrone(r, id) == if FindDrone(rows, id).Some? then Some(FindDrone(rows, id).value.(status := status)) else None
    ensures forall x :: x != id ==> FindDrone(r, x) == FindDrone(rows, x)
    ensures forall i :: 0 <= i < |r| ==> r[i] == rows[i].(status := r[i].status)
    ensures forall i :: 0 <= i < |r| ==> r[i].status == if rows[i].droneId == id then status else rows[i].status
  {
    var f := (d: Drone) => d.(status := status);
    FindAfterUpdateAll(rows, DroneKey, id, f);
    UpdateWhere(rows, DroneKey, id, f)
  }

  /** The drone table after `assign_drone(id, project)` found `id`. */
  function AssignDroneRows(rows: seq<Drone>, id: string, project: string): (r: seq<Drone>)
    ensures |r| == |rows|
    ensures FindDrone(r, id) ==
              if FindDrone(rows, id).Some?
              then Some(FindDrone(rows, id).value.(currentAssignment := project, status := StatusAssigned))
              else None
    ensures forall x :: x != id ==> FindDrone(r, x) == FindDrone(rows, x)
    ensures forall i :: 0 <= i < |r| && rows[i].droneId != id ==> r[i] == rows[i]
    ensures forall i :: 0 <= i < |r| && rows[i].droneId == id ==>
              r[i] == rows[i].(currentAssignment := project, status := StatusAssigned)
  {
    var f := (d: Drone) => d.(currentAssignment := project, status := StatusAssigned);
    FindAfterUpdateAll(rows, DroneKey, id, f);
    UpdateWhere(rows, DroneKey, id, f)
  }

  /** The intended roster invariant: a pilot marked Assigned points at a real mission id. */
  predicate AssignedHasMission(rows: seq<Pilot>) {
    forall i :: 0 <= i < |rows| && rows[i].status == StatusAssigned ==>
      rows[i].currentAssignment != "" && rows[i].currentAssignment != NoAssignment
  }

  /** `assign_pilot` keeps that invariant when the project id is a real one. */
  lemma AssignPilotKeepsInvariant(rows: seq<Pilot>, id: string, project: string)
    requires AssignedHasMission(rows)
    requires project != "" && project != NoAssignment
    ensures AssignedHasMission(AssignPilotRows(rows, id, project))
  {
    var r := AssignPilotRows(rows, id, project);
    forall i | 0 <= i < |r| && r[i].status == StatusAssigned
      ensures r[i].currentAssignment != "" && r[i].currentAssignment != NoAssignment
    {
      if rows[i].pilotId == id {
        assert r[i] == rows[i].(currentAssignment := project, status := StatusAssigned);
      } else {
        assert r[i] == rows[i];
      }
    }
  }

  /** Assigning the same pilot to the same project twice is assigning it once. */
  lemma AssignPilotIdempotent(rows: seq<Pilot>, id: string, project: string)
    ensures AssignPilotRows(AssignPilotRows(rows, id, project), id, project) == AssignPilotRows(rows, id, project)
  {
    var once := AssignPilotRows(rows, id, project);
    var twice := AssignPilotRows(once, id, project);
    forall i | 0 <= i < |rows|
      ensures twice[i] == once[i]
    {
      if rows[i].pilotId == id {
        assert once[i] == rows[i].(currentAssignment := project, status := StatusAssigned);
      } else {
        assert once[i] == rows[i];
      }
    }
  }

  /** DataManager: owns the three tables and updates them in place. */
  class DataManager {
    var pilots: seq<Pilot>
    var drones: seq<Drone>
    var missions: seq<Mission>

    constructor (pilots: seq<Pilot>, drones: seq<Drone>, missions: seq<Mission>)
      ensures this.pilots == pilots && this.drones == drones && this.missions == missions
    {
      this.pilots := pilots;
      this.drones := drones;
      this.missions := missions;
    }

    function Snapshot(): Tables
      reads this
    {
      Tables(pilots, drones, missions)
    }

    function GetPilot(pilotId: string): Option<Pilot>
      reads this
    {
      FindPilot(pilots, pilotId)
    }

    function GetDrone(droneId: string): Option<Drone>
      reads this
    {
      FindDrone(drones, droneId)
    }

    function GetMission(projectId: string): Option<Mission>
      reads this
    {
      FindMission(missions, projectId)
    }

    /** `update_pilot_status`: rewrites the status of every row with this id;
        false, and nothing changed, when the id is absent. */
    method UpdatePilotStatus(pilotId: string, newStatus: string) returns (ok: bool)
      modifies this`pilots
      ensures ok <==> FindPilot(old(pilots), pilotId).Some?
      ensures ok ==> pilots == SetPilotStatus(old(pilots), pilotId, newStatus)
      ensures !ok ==> pilots == old(pilots)
    {
      if FindPilot(pilots, pilotId).Some? {
        pilots := SetPilotStatus(pilots, pilotId, newStatus);
        ok := true;
      } else {
        ok := false;
      }
    }

    /** `update_drone_status`: the drone-table counterpart. */
    method UpdateDroneStatus(droneId: string, newStatus: string) returns (ok: bool)
      modifies this`drones
      ensures ok <==> FindDrone(old(drones), droneId).Some?
      ensures ok ==> drones == SetDroneStatus(old(drones), droneId, newStatus)
      ensures !ok ==> drones == old(drones)
    {
      if FindDrone(drones, droneId).Some? {
        drones := SetDroneStatus(drones, droneId, newStatus);
        ok := true;
      } else {
        ok := false;
      }
    }

    /** `assign_pilot` (called `assign_pilot_to_mission` by the engine): sets the
        current assignment and the Assigned status of every row with this id. */
    method AssignPilotToMission(pilotId: string, projectId: string) returns (ok: bool)
      modifies this`pilots
      ensures ok <==> FindPilot(old(pilots), pilotId).Some?
      ensures ok ==> pilots == AssignPilotRows(old(pilots), pilotId, projectId)
      ensures !ok ==> pilots == old(pilots)
    {
      if FindPilot(pilots, pilotId).Some? {
        pilots := AssignPilotRows(pilots, pilotId, projectId);
        ok := true;
      } else {
        ok := false;
      }
    }

    /** `assign_drone` (called `assign_drone_to_mission` by the engine). */
    method AssignDroneToMission(droneId: string, projectId: string) returns (ok: bool)
      modifies this`drones
      ensures ok <==> FindDrone(old(drones), droneId).Some?
      ensures ok ==> drones == AssignDroneRows(old(drones), droneId, projectId)
      ensures !ok ==> drones == old(drones)
    {
      if FindDrone(drones, droneId).Some? {
        drones := AssignDroneRows(drones, droneId, projectId);
        ok := true;
      } else {
        ok := false;
      }
    }
  }
}
