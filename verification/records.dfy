/** The three record tables the scheduling engine reads: pilots, drones and
    missions, one row per CSV line, every cell kept as the text it was loaded as.
    An empty cell is the empty string. */
module Records {

  datatype Option<+T> = None | Some(value: T)

  /** A point in time as the date parser reads it; only its order matters. */
  type Day = int

  /** The date parser the engine calls on date cells (`dateutil.parser.parse`):
      `None` where it raises. */
  type DateParser = string -> Option<Day>

  /** The placeholder (an en dash) the roster uses for "no current assignment". */
  const NoAssignment: string := "\U{2013}"

  const StatusAvailable: string := "Available"
  const StatusAssigned: string := "Assigned"
  const StatusOnLeave: string := "On Leave"
  const StatusUnavailable: string := "Unavailable"
  const StatusMaintenance: string := "Maintenance"

  datatype Pilot = Pilot(
    pilotId: string,
    name: string,
    skills: string,          // comma-separated tags
    certifications: string,  // comma-separated tags
    location: string,
    status: string,
    currentAssignment: string,
    availableFrom: string)

  datatype Drone = Drone(
    droneId: string,
    model: string,
    capabilities: string,    // comma-separated tags
    status: string,
    location: string,
    currentAssignment: string,
    maintenanceDue: string)

  datatype Mission = Mission(
    projectId: string,
    client: string,
    location: string,
    requiredSkills: string,  // comma-separated tags
    requiredCerts: string,   // comma-separated tags
    startDate: string,
    endDate: string,
    priority: string)

  /** The store's contents at one moment. */
  datatype Tables = Tables(pilots: seq<Pilot>, drones: seq<Drone>, missions: seq<Mission>)

  function PilotKey(p: Pilot): string { p.pilotId }
  function DroneKey(d: Drone): string { d.droneId }
  function MissionKey(m: Mission): string { m.projectId }

  /** Point lookup by identifier: the first row whose key is `id`, if any. */
  function Find<T>(rows: seq<T>, key: T -> string, id: string): Option<T> {
    if rows == [] then None
    else if key(rows[0]) == id then Some(rows[0])
    else Find(rows[1..], key, id)
  }

  /** A lookup succeeds exactly when some row has the key, and then returns such a
      row, the first one. */
  lemma {:induction false} FindMeaning<T>(rows: seq<T>, key: T -> string, id: string)
    ensures Find(rows, key, id).Some? <==> exists i :: 0 <= i < |rows| && key(rows[i]) == id
    ensures Find(rows, key, id).Some? ==>
              exists i :: 0 <= i < |rows| && rows[i] == Find(rows, key, id).value && key(rows[i]) == id
                          && forall j :: 0 <= j < i ==> key(rows[j]) != id
  {
    if rows != [] && key(rows[0]) != id {
      FindMeaning(rows[1..], key, id);
      assert forall i :: 1 <= i < |rows| ==> rows[i] == rows[1..][i - 1];
      if Find(rows, key, id).Some? {
        var i :| 0 <= i < |rows[1..]| && rows[1..][i] == Find(rows, key, id).value && key(rows[1..][i]) == id
                 && forall j :: 0 <= j < i ==> key(rows[1..][j]) != id;
        assert rows[i + 1] == rows[1..][i];
        assert forall j :: 1 <= j < i + 1 ==> key(rows[j]) == key(rows[1..][j - 1]);
      }
    }
  }

  function FindPilot(rows: seq<Pilot>, id: string): Option<Pilot> { Find(rows, PilotKey, id) }
  function FindDrone(rows: seq<Drone>, id: string): Option<Drone> { Find(rows, DroneKey, id) }
  function FindMission(rows: seq<Mission>, id: string): Option<Mission> { Find(rows, MissionKey, id) }

  // The columns of each table, as the loaders name them, and the cell of a row under a column.

  const PilotColumns: set<string> :=
    {"pilot_id", "name", "skills", "certifications", "location", "status", "current_assignment", "available_from"}
  const DroneColumns: set<string> :=
    {"drone_id", "model", "capabilities", "status", "location", "current_assignment", "maintenance_due"}
  const MissionColumns: set<string> :=
    {"project_id", "client", "location", "required_skills", "required_certs", "start_date", "end_date", "priority"}

  function PilotCell(p: Pilot, column: string): string {
    if column == "pilot_id" then p.pilotId
    else if column == "name" then p.name
    else if column == "skills" then p.skills
    else if column == "certifications" then p.certifications
    else if column == "location" then p.location
    else if column == "status" then p.status
    else if column == "current_assignment" then p.currentAssignment
    else if column == "available_from" then p.availableFrom
    else ""
  }

  function DroneCell(d: Drone, column: string): string {
    if column == "drone_id" then d.droneId
    else if column == "model" then d.model
    else if column == "capabilities" then d.capabilities
    else if column == "status" then d.status
    else if column == "location" then d.location
    else if column == "current_assignment" then d.currentAssignment
    else if column == "maintenance_due" then d.maintenanceDue
    else ""
  }

  function MissionCell(m: Mission, column: string): string {
    if column == "project_id" then m.projectId
    else if column == "client" then m.client
    else if column == "location" then m.location
    else if column == "required_skills" then m.requiredSkills
    else if column == "required_certs" then m.requiredCerts
    else if column == "start_date" then m.startDate
    else if column == "end_date" then m.endDate
    else if column == "priority" then m.priority
    else ""
  }
}
