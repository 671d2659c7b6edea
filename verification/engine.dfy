/** The scheduling engine, class `Logic` of logic.py: conflict detection,
    candidate ranking, reassignment advice, record queries and the staged
    assignment transaction, over the tables held by a `DataManager`. */
module Engine {
  import opened Records
  import opened Tags
  import opened Store
  import opened Conflicts
  import opened Matching
  import opened Reassign
  import opened Query
  import Text

  /** What `assign_resource` answers (messages not modelled). */
  datatype Outcome =
    | Blocked(conflicts: seq<Conflict>)            // HARD conflicts: nothing happens
    | NeedsConfirmation(conflicts: seq<Conflict>)  // SOFT conflicts without override
    | DryRun(conflicts: seq<Conflict>)             // everything passes but `confirm` is false
    | Committed                                    // the store was updated
    | CommitFailed                                 // "Database update failed."

  /** `resource_type.lower() == "pilot"`. */
  predicate IsPilotType(resourceType: string) {
    Text.Lower(resourceType) == "pilot"
  }

  /** The conflict check `assign_resource` runs: the resource as the pilot when
      the type reads "pilot" in any case, as the drone otherwise. */
  function ResourceRequest(projectId: string, resourceId: string, resourceType: string): Request {
    if IsPilotType(resourceType) then Request(projectId, resourceId, "")
    else Request(projectId, "", resourceId)
  }

  /** How the three query operations see each table; the tag columns are the
      ones matched by substring. */
  const PilotSchema: Schema<Pilot> := Schema(PilotCell, PilotColumns, {"skills", "certifications"})
  const DroneSchema: Schema<Drone> := Schema(DroneCell, DroneColumns, {"capabilities"})
  const MissionSchema: Schema<Mission> := Schema(MissionCell, MissionColumns, {"required_skills", "required_certs"})

  class Logic {
    const dm: DataManager
    /** `dateutil.parser.parse`, as a partial function onto days. */
    const parse: DateParser

    constructor (dm: DataManager, parse: DateParser)
      ensures this.dm == dm && this.parse == parse
    {
      this.dm := dm;
      this.parse := parse;
    }

    // ------------------------------------------------------------ check_conflicts

    /** `check_conflicts`: the mission lookup and date parsing, then the pilot
        checks when a pilot is supplied and the drone checks when a drone is. */
    method CheckConflicts(projectId: string, pilotId: string, droneId: string) returns (cs: seq<Conflict>)
      ensures cs == Report(dm.Snapshot(), parse, Request(projectId, pilotId, droneId))
      ensures Reports(dm.Snapshot(), parse, Request(projectId, pilotId, droneId), cs)
      ensures InCheckOrder(cs)
    {
      var mission := dm.GetMission(projectId);
      if mission.None? {
        cs := [Conflict(DataError, Hard, OnMission, [], false)];
        ReportIsComplete(dm.Snapshot(), parse, Request(projectId, pilotId, droneId));
        return;
      }
      var missionStart := parse(mission.value.startDate);
      var missionEnd := parse(mission.value.endDate);
      if missionStart.None? || missionEnd.None? {
        cs := [Conflict(DataError, Hard, OnMission, [], false)];
        ReportIsComplete(dm.Snapshot(), parse, Request(projectId, pilotId, droneId));
        return;
      }
      var w := Window(mission.value, missionStart.value, missionEnd.value);
      assert Resolve(dm.Snapshot(), parse, projectId) == Some(w);
      var pilotConflicts := [];
      if pilotId != "" {
        pilotConflicts := CheckPilot(w, projectId, pilotId);
      }
      var droneConflicts := [];
      if droneId != "" {
        droneConflicts := CheckDrone(w, projectId, pilotId, droneId);
      }
      cs := pilotConflicts + droneConflicts;
      ReportIsComplete(dm.Snapshot(), parse, Request(projectId, pilotId, droneId));
    }

    /** The pilot block of `check_conflicts`: lookup, status, double booking,
        certifications, skills, location. */
    method CheckPilot(w: Window, projectId: string, pilotId: string) returns (cs: seq<Conflict>)
      ensures cs == PilotBlock(dm.Snapshot(), parse, w, projectId, pilotId)
    {
      var found := dm.GetPilot(pilotId);
      if found.None? {
        return [Conflict(DataError, Hard, OnPilot, [], false)];
      }
      var pilot := found.value;
      var b1, b2, b3, b4, b5 := PilotBlockUnfold(dm.Snapshot(), parse, w, projectId, pilotId, pilot, DataError);
      cs := [];
      if pilot.status == StatusOnLeave || pilot.status == StatusUnavailable {
        cs := cs + [Conflict(Unavailable, Hard, OnPilot, [], false)];
      }
      assert cs == Fire(b1, Conflict(Unavailable, Hard, OnPilot, [], false));
      ghost var prev := cs;
      var booked := BookedNow(w, projectId, pilot.currentAssignment);
      if booked {
        cs := cs + [Conflict(DoubleBooking, Hard, OnPilot, [], false)];
      }
      FirePush(prev, cs, b2, Conflict(DoubleBooking, Hard, OnPilot, [], false));
      prev := cs;
      var missingCerts := MissingTags(ParseSkills(w.mission.requiredCerts), ParseSkills(pilot.certifications));
      assert missingCerts == CertsMissing(w.mission, pilot);
      if missingCerts != [] {
        cs := cs + [Conflict(CertificationMissing, Hard, OnPilot, missingCerts, false)];
      }
      FirePush(prev, cs, b3, Conflict(CertificationMissing, Hard, OnPilot, missingCerts, false));
      prev := cs;
      var missingSkills := MissingTags(ParseSkills(w.mission.requiredSkills), ParseSkills(pilot.skills));
      assert missingSkills == SkillsMissing(w.mission, pilot);
      if missingSkills != [] {
        cs := cs + [Conflict(SkillMismatch, Soft, OnPilot, missingSkills, true)];
      }
      FirePush(prev, cs, b4, Conflict(SkillMismatch, Soft, OnPilot, missingSkills, true));
      prev := cs;
      if pilot.location != w.mission.location {
        cs := cs + [Conflict(LocationMismatch, Soft, OnPilot, [], true)];
      }
      FirePush(prev, cs, b5, Conflict(LocationMismatch, Soft, OnPilot, [], true));
    }

    /** The double-booking test shared by both blocks: an assignment to another
        mission that exists, whose dates parse, and whose interval overlaps `w`. */
    method BookedNow(w: Window, projectId: string, assignment: string) returns (booked: bool)
      ensures booked == BookedElsewhere(dm.Snapshot(), parse, w, projectId, assignment)
    {
      booked := false;
      if assignment != "" && assignment != NoAssignment && assignment != projectId {
        var other := dm.GetMission(assignment);
        if other.Some? {
          var otherStart := parse(other.value.startDate);
          var otherEnd := parse(other.value.endDate);
          if otherStart.Some? && otherEnd.Some? && w.start <= otherEnd.value && w.end >= otherStart.value {
            booked := true;
          }
        }
      }
    }

    /** The drone block of `check_conflicts`: lookup, maintenance, maintenance
        due, double booking, location, then the pilot/drone co-location check. */
    method CheckDrone(w: Window, projectId: string, pilotId: string, droneId: string) returns (cs: seq<Conflict>)
      ensures cs == DroneBlock(dm.Snapshot(), parse, w, projectId, pilotId, droneId)
    {
      var found := dm.GetDrone(droneId);
      if found.None? {
        return [Conflict(DataError, Hard, OnDrone, [], false)];
      }
      var drone := found.value;
      var b1, b2, b3, b4, b5 := DroneBlockUnfold(dm.Snapshot(), parse, w, projectId, pilotId, droneId, drone, DataError);
      cs := [];
      if drone.status == StatusMaintenance {
        cs := cs + [Conflict(Maintenance, Hard, OnDrone, [], false)];
      }
      assert cs == Fire(b1, Conflict(Maintenance, Hard, OnDrone, [], false));
      ghost var prev := cs;
      var due := parse(drone.maintenanceDue);
      if due.Some? && due.value < w.end {
        cs := cs + [Conflict(MaintenanceDue, Hard, OnDrone, [], false)];
      }
      FirePush(prev, cs, b2, Conflict(MaintenanceDue, Hard, OnDrone, [], false));
      prev := cs;
      var booked := BookedNow(w, projectId, drone.currentAssignment);
      if booked {
        cs := cs + [Conflict(DoubleBooking, Hard, OnDrone, [], false)];
      }
      FirePush(prev, cs, b3, Conflict(DoubleBooking, Hard, OnDrone, [], false));
      prev := cs;
      if drone.location != w.mission.location {
        cs := cs + [Conflict(LocationMismatch, Soft, OnDrone, [], true)];
      }
      FirePush(prev, cs, b4, Conflict(LocationMismatch, Soft, OnDrone, [], true));
      prev := cs;
      if pilotId != "" {
        var pilot := dm.GetPilot(pilotId);
        if pilot.Some? && pilot.value.location != drone.location {
          cs := cs + [Conflict(LocationMismatch, Hard, OnPilotAndDrone, [], false)];
        }
      }
      FirePush(prev, cs, b5, Conflict(LocationMismatch, Hard, OnPilotAndDrone, [], false));
    }

    // ------------------------------------------------------------ queries

    /** `query_pilots`: the pilot rows that pass every filter, in table order. */
    method QueryPilots(filters: seq<Filter>) returns (r: seq<Pilot>)
      ensures r == Select(PilotSchema, dm.pilots, filters)
    {
      r := Narrow(PilotSchema, dm.pilots, filters);
    }

    /** `query_drones`: the drone rows that pass every filter, in table order. */
    method QueryDrones(filters: seq<Filter>) returns (r: seq<Drone>)
      ensures r == Select(DroneSchema, dm.drones, filters)
    {
      r := Narrow(DroneSchema, dm.drones, filters);
    }

    /** `query_missions`: the mission rows that pass every filter, in table order. */
    method QueryMissions(filters: seq<Filter>) returns (r: seq<Mission>)
      ensures r == Select(MissionSchema, dm.missions, filters)
    {
      r := Narrow(MissionSchema, dm.missions, filters);
    }

    // ------------------------------------------------------------ find_matches

    /** `find_matches`: nothing for an unknown mission; otherwise every pilot
        assessed in table order, sorted by score (highest first, ties in table
        order) and cut to the first five. */
    method FindMatches(projectId: string) returns (r: seq<Candidate>)
      ensures dm.GetMission(projectId).None? ==> r == []
      ensures dm.GetMission(projectId).Some? ==> r == Ranked(dm.GetMission(projectId).value, dm.pilots)
      ensures |r| <= TopCount && NonIncreasing(r)
    {
      var mission := dm.GetMission(projectId);
      if mission.None? {
        return [];
      }
      var m := mission.value;
      var reqSkills := ParseSkills(m.requiredSkills);
      var reqCerts := ParseSkills(m.requiredCerts);
      var candidates: seq<Candidate> := [];
      var k := 0;
      while k < |dm.pilots|
        invariant 0 <= k <= |dm.pilots|
        invariant candidates == AssessAll(m, dm.pilots[..k])
      {
        var c := AssessPilot(m, reqSkills, reqCerts, dm.pilots[k]);
        AssessAllSnoc(m, dm.pilots[..k], dm.pilots[k]);
        assert dm.pilots[..k + 1] == dm.pilots[..k] + [dm.pilots[k]];
        candidates := candidates + [c];
        k := k + 1;
      }
      assert dm.pilots[..k] == dm.pilots;
      r := Top(SortByScore(candidates), TopCount);
      RankedShape(m, dm.pilots);
    }

    /** The body of the `find_matches` loop for one pilot: certifications,
        location, skills and status, each adjusting score, issues and eligibility. */
    method AssessPilot(m: Mission, reqSkills: seq<string>, reqCerts: seq<string>, pilot: Pilot) returns (c: Candidate)
      requires reqSkills == ParseSkills(m.requiredSkills) && reqCerts == ParseSkills(m.requiredCerts)
      ensures c == Assess(m, pilot)
    {
      var score := 0;
      var issues: seq<Issue> := [];
      var eligible := true;
      var missingCerts := MissingTags(reqCerts, ParseSkills(pilot.certifications));
      assert missingCerts == CertsMissing(m, pilot);
      if missingCerts != [] {
        eligible := false;
        issues := issues + [MissingCerts(missingCerts)];
        score := score - 50;
      } else {
        score := score + 50;
      }
      assert issues == if missingCerts != [] then [MissingCerts(missingCerts)] else [];
      assert score == if missingCerts != [] then -50 else 50;
      assert eligible == (missingCerts == []);
      ghost var prev, before := issues, score;
      var away := pilot.location != m.location;
      if away {
        eligible := false;
        issues := issues + [LocationMismatchAt(pilot.location)];
        score := score - 30;
      } else {
        score := score + 30;
      }
      IssuePush(prev, issues, away, LocationMismatchAt(pilot.location));
      assert score == before + if away then -30 else 30;
      assert eligible == (missingCerts == [] && !away);
      prev, before := issues, score;
      var missingSkills := MissingTags(reqSkills, ParseSkills(pilot.skills));
      assert missingSkills == SkillsMissing(m, pilot);
      if missingSkills != [] {
        score := score - 10 * |missingSkills|;
        issues := issues + [MissingSkills(missingSkills)];
      } else {
        score := score + 20;
      }
      IssuePush(prev, issues, missingSkills != [], MissingSkills(missingSkills));
      assert score == before + if missingSkills != [] then -10 * |missingSkills| else 20;
      assert eligible == (missingCerts == [] && !away);
      prev, before := issues, score;
      ghost var statusIssues: seq<Issue> := [];
      if pilot.status == StatusAvailable {
        score := score + 20;
      } else if pilot.status == StatusOnLeave {
        eligible := false;
        issues := issues + [PilotOnLeave];
        score := score - 100;
        statusIssues := [PilotOnLeave];
      } else if pilot.status == StatusAssigned {
        eligible := false;
        issues := issues + [AlreadyAssigned(pilot.currentAssignment)];
        score := score - 50;
        statusIssues := [AlreadyAssigned(pilot.currentAssignment)];
      }
      StatusStep(pilot, prev, issues, statusIssues, before, score);
      assert score == (if missingCerts != [] then -50 else 50) + (if away then -30 else 30)
                      + (if missingSkills != [] then -10 * |missingSkills| else 20) + StatusPoints(pilot.status);
      assert score == Score(m, pilot);
      assert issues == Issues(m, pilot);
      assert eligible == Eligible(m, pilot);
      c := Candidate(pilot.pilotId, pilot.name, score, pilot.location, pilot.status, eligible, issues,
                     pilot.certifications, pilot.skills);
    }

    // ------------------------------------------------------------ suggest_reassignments

    /** `suggest_reassignments`: nothing for an unknown mission, or for a
        mission that is not Urgent unless `urgentMode`; otherwise the busy,
        qualified pilots whose current mission ranks strictly lower, in table order. */
    method SuggestReassignments(projectId: string, urgentMode: bool) returns (r: seq<Suggestion>)
      ensures dm.GetMission(projectId).None? ==> r == []
      ensures dm.GetMission(projectId).Some? ==>
                var m := dm.GetMission(projectId).value;
                r == if m.priority == "Urgent" || urgentMode then Suggested(dm.Snapshot(), m, dm.pilots) else []
      ensures forall s :: s in r ==> Rank(s.currentPriority) < Rank(dm.GetMission(projectId).value.priority)
    {
      var mission := dm.GetMission(projectId);
      if mission.None? {
        return [];
      }
      var m := mission.value;
      if m.priority != "Urgent" && !urgentMode {
        return [];
      }
      var reqCerts := ParseSkills(m.requiredCerts);
      r := [];
      var k := 0;
      while k < |dm.pilots|
        invariant 0 <= k <= |dm.pilots|
        invariant r == Suggested(dm.Snapshot(), m, dm.pilots[..k])
      {
        var pilot := dm.pilots[k];
        ghost var prev := r;
        if pilot.currentAssignment != NoAssignment {
          var pilotCerts := ParseSkills(pilot.certifications);
          if forall c :: c in reqCerts ==> c in pilotCerts {
            var current := dm.GetMission(pilot.currentAssignment);
            if current.Some? && Rank(m.priority) > Rank(current.value.priority) {
              r := r + [Suggestion(pilot.pilotId, pilot.name, pilot.currentAssignment, current.value.priority,
                                   pilot.location == m.location)];
            }
          }
        }
        SuggestedStep(dm.Snapshot(), m, dm.pilots, k, prev, r);
        k := k + 1;
      }
      assert dm.pilots[..k] == dm.pilots;
      SuggestionsRankBelow(dm.Snapshot(), m, dm.pilots);
    }

    // ------------------------------------------------------------ assign_resource

    /** `assign_resource`: check the resource, block on HARD conflicts, ask for
        confirmation on SOFT ones unless overridden, stop at a dry run unless
        confirmed, and only then commit the assignment to the store. */
    method AssignResource(projectId: string, resourceId: string, resourceType: string, confirm: bool, overrideSoft: bool)
      returns (out: Outcome)
      modifies dm
      ensures var req := ResourceRequest(projectId, resourceId, resourceType);
              var t := old(dm.Snapshot());
              && (out.Blocked? <==> AnyRaised(t, parse, req, Hard))
              && (out.Blocked? ==> out.conflicts == WithSeverity(Report(t, parse, req), Hard))
              && (out.NeedsConfirmation? <==> !AnyRaised(t, parse, req, Hard) && AnyRaised(t, parse, req, Soft) && !overrideSoft)
              && (out.DryRun? <==> !AnyRaised(t, parse, req, Hard) && (overrideSoft || !AnyRaised(t, parse, req, Soft)) && !confirm)
              && (out.NeedsConfirmation? || out.DryRun? ==> out.conflicts == WithSeverity(Report(t, parse, req), Soft))
      ensures var req := ResourceRequest(projectId, resourceId, resourceType);
              var t := old(dm.Snapshot());
              var cleared := !AnyRaised(t, parse, req, Hard) && (overrideSoft || !AnyRaised(t, parse, req, Soft)) && confirm;
              var found := if IsPilotType(resourceType) then FindPilot(old(dm.pilots), resourceId).Some?
                           else FindDrone(old(dm.drones), resourceId).Some?;
              && (out.Committed? <==> cleared && found)
              && (out.CommitFailed? <==> cleared && !found)
      ensures out.CommitFailed? ==> resourceId == ""
      ensures out.Committed? && IsPilotType(resourceType) ==>
                dm.pilots == AssignPilotRows(old(dm.pilots), resourceId, projectId) && dm.drones == old(dm.drones)
      ensures out.Committed? && !IsPilotType(resourceType) ==>
                dm.drones == AssignDroneRows(old(dm.drones), resourceId, projectId) && dm.pilots == old(dm.pilots)
      ensures !out.Committed? ==> dm.pilots == old(dm.pilots) && dm.drones == old(dm.drones)
      ensures dm.missions == old(dm.missions)
    {
      var isPilot := Text.Lower(resourceType) == "pilot";
      ghost var t := dm.Snapshot();
      ghost var req := ResourceRequest(projectId, resourceId, resourceType);
      var conflicts;
      if isPilot {
        conflicts := CheckConflicts(projectId, resourceId, "");
      } else {
        conflicts := CheckConflicts(projectId, "", resourceId);
      }
      var hard := WithSeverity(conflicts, Hard);
      var soft := WithSeverity(conflicts, Soft);
      SeverityPresent(t, parse, req, conflicts, Hard);
      SeverityPresent(t, parse, req, conflicts, Soft);
      if hard != [] {
        return Blocked(hard);
      }
      if soft != [] && !overrideSoft {
        return NeedsConfirmation(soft);
      }
      if !confirm {
        return DryRun(soft);
      }
      NothingHardMeansFound(t, parse, req);
      var ok;
      if isPilot {
        ok := dm.AssignPilotToMission(resourceId, projectId);
      } else {
        ok := dm.AssignDroneToMission(resourceId, projectId);
      }
      if ok {
        out := Committed;
      } else {
        out := CommitFailed;
      }
    }
  }

  // ---------------------------------------------------------------- lemmas across components

  /** With no HARD conflict, a supplied resource was found: the only way a
      confirmed commit can find nothing to update is an empty resource id. */
  lemma NothingHardMeansFound(t: Tables, parse: DateParser, req: Request)
    requires !AnyRaised(t, parse, req, Hard)
    ensures Resolve(t, parse, req.projectId).Some?
    ensures req.pilotId != "" ==> FindPilot(t.pilots, req.pilotId).Some?
    ensures req.droneId != "" ==> FindDrone(t.drones, req.droneId).Some?
  {
    if Resolve(t, parse, req.projectId).None? {
      assert Raised(t, parse, req, DataError, OnMission);
    } else {
      if req.pilotId != "" && FindPilot(t.pilots, req.pilotId).None? {
        assert Raised(t, parse, req, DataError, OnPilot);
      }
      if req.droneId != "" && FindDrone(t.drones, req.droneId).None? {
        assert Raised(t, parse, req, DataError, OnDrone);
      }
    }
  }

  /** Once a pilot is committed to mission `a`, checking it for another mission
      `b` whose dates overlap `a`'s reports a DOUBLE_BOOKING. */
  lemma CommitThenDoubleBooked(t: Tables, parse: DateParser, pilotId: string, a: string, b: string)
    requires pilotId != "" && FindPilot(t.pilots, pilotId).Some?
    requires a != b && a != "" && a != NoAssignment
    requires Resolve(t, parse, a).Some? && Resolve(t, parse, b).Some?
    requires var wa, wb := Resolve(t, parse, a).value, Resolve(t, parse, b).value;
             Overlaps(wb.start, wb.end, wa.start, wa.end)
    ensures Raised(t.(pilots := AssignPilotRows(t.pilots, pilotId, a)), parse, Request(b, pilotId, ""), DoubleBooking, OnPilot)
  {
    var t' := t.(pilots := AssignPilotRows(t.pilots, pilotId, a));
    assert Resolve(t', parse, a) == Resolve(t, parse, a);
    assert Resolve(t', parse, b) == Resolve(t, parse, b);
  }

  /** Once a pilot is committed to a mission, checking it again for that same
      mission reports neither UNAVAILABLE nor DOUBLE_BOOKING. */
  lemma RecheckAfterCommit(t: Tables, parse: DateParser, pilotId: string, projectId: string)
    requires pilotId != "" && FindPilot(t.pilots, pilotId).Some?
    ensures var t' := t.(pilots := AssignPilotRows(t.pilots, pilotId, projectId));
            && !Raised(t', parse, Request(projectId, pilotId, ""), Unavailable, OnPilot)
            && !Raised(t', parse, Request(projectId, pilotId, ""), DoubleBooking, OnPilot)
  {
  }
}
