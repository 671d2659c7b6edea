/** What `Logic.check_conflicts` reports, stated check by check: the conflict
    values, the condition under which each check fires, and lemmas about them.
    The method that builds the list step by step is `Engine.Logic.CheckConflicts`. */
module Conflicts {
  import opened Records
  import opened Tags

  datatype Kind =
    | DataError | Unavailable | DoubleBooking | CertificationMissing
    | SkillMismatch | LocationMismatch | Maintenance | MaintenanceDue

  datatype Severity = Hard | Soft

  /** Which record a conflict is about; `OnPilotAndDrone` is the final
      pilot/drone co-location check. */
  datatype Subject = OnMission | OnPilot | OnDrone | OnPilotAndDrone

  /** A conflict as the detector returns it; `missing` holds the tags its
      message lists (empty for the kinds whose message lists none). */
  datatype Conflict = Conflict(kind: Kind, severity: Severity, subject: Subject, missing: seq<string>, canOverride: bool)

  /** A detector call: the mission, and the pilot and drone ids ("" when not supplied). */
  datatype Request = Request(projectId: string, pilotId: string, droneId: string)

  /** A mission together with its parsed start and end dates. */
  datatype Window = Window(mission: Mission, start: Day, end: Day)

  /** The severity each (kind, subject) pair is reported with. */
  function SeverityOf(kind: Kind, subject: Subject): Severity {
    if (kind == SkillMismatch && subject == OnPilot)
       || (kind == LocationMismatch && (subject == OnPilot || subject == OnDrone))
    then Soft else Hard
  }

  /** Pilot checks run before drone checks, and the co-location check runs last. */
  function SubjectOrder(subject: Subject): nat {
    match subject
    case OnMission => 0
    case OnPilot => 1
    case OnDrone => 2
    case OnPilotAndDrone => 3
  }

  /** Where a check sits in the detector's fixed order. Within the pilot block:
      lookup, status, double booking, certifications, skills, location. Within
      the drone block: lookup, maintenance, maintenance due, double booking, location. */
  function CheckIndex(kind: Kind, subject: Subject): nat {
    match subject
    case OnMission => 0
    case OnPilot =>
      (match kind
       case DataError => 0 case Unavailable => 1 case DoubleBooking => 2
       case CertificationMissing => 3 case SkillMismatch => 4 case LocationMismatch => 5 case _ => 6)
    case OnDrone =>
      (match kind
       case DataError => 0 case Maintenance => 1 case MaintenanceDue => 2
       case DoubleBooking => 3 case LocationMismatch => 4 case _ => 5)
    case OnPilotAndDrone => 0
  }

  function Position(c: Conflict): nat {
    10 * SubjectOrder(c.subject) + CheckIndex(c.kind, c.subject)
  }

  /** The list follows the detector's order of checks, each at most once. */
  predicate InCheckOrder(cs: seq<Conflict>) {
    forall i, j :: 0 <= i < j < |cs| ==> Position(cs[i]) < Position(cs[j])
  }

  /** Number of conflicts of one kind about one subject. */
  function Count(cs: seq<Conflict>, kind: Kind, subject: Subject): nat {
    if cs == [] then 0
    else
      var last := cs[|cs| - 1];
      Count(cs[..|cs| - 1], kind, subject) + if last.kind == kind && last.subject == subject then 1 else 0
  }

  /** `[c for c in conflicts if c['severity'] == severity]`. */
  function WithSeverity(cs: seq<Conflict>, severity: Severity): seq<Conflict> {
    if cs == [] then []
    else
      var last := cs[|cs| - 1];
      WithSeverity(cs[..|cs| - 1], severity) + if last.severity == severity then [last] else []
  }

  /** The filtered list holds exactly the conflicts of that severity. */
  lemma {:induction false} WithSeverityMembers(cs: seq<Conflict>, severity: Severity)
    ensures forall c :: c in WithSeverity(cs, severity) <==> c in cs && c.severity == severity
  {
    if cs != [] {
      var last := cs[|cs| - 1];
      WithSeverityMembers(cs[..|cs| - 1], severity);
      assert forall c :: c in cs <==> c in cs[..|cs| - 1] || c == last;
    }
  }

  // ---------------------------------------------------------------- the conditions

  /** The mission looked up and its dates parsed; `None` is the terminal DATA_ERROR. */
  function Resolve(t: Tables, parse: DateParser, projectId: string): (r: Option<Window>)
    ensures r.Some? ==> FindMission(t.missions, projectId) == Some(r.value.mission)
  {
    match FindMission(t.missions, projectId)
    case None => None
    case Some(m) =>
      if parse(m.startDate).Some? && parse(m.endDate).Some?
      then Some(Window(m, parse(m.startDate).value, parse(m.endDate).value))
      else None
  }

  /** The mission is usable exactly when the lookup finds it and both of its dates
      parse; the window then carries the parsed dates. */
  lemma ResolveMeaning(t: Tables, parse: DateParser, projectId: string)
    ensures var m := FindMission(t.missions, projectId);
            Resolve(t, parse, projectId).Some? <==>
              m.Some? && parse(m.value.startDate).Some? && parse(m.value.endDate).Some?
    ensures var r := Resolve(t, parse, projectId);
            r.Some? ==> r.value.start == parse(r.value.mission.startDate).value
                        && r.value.end == parse(r.value.mission.endDate).value
  {
  }

  /** Day `d` lies in the inclusive interval from `start` to `end`. */
  predicate Within(d: Day, start: Day, end: Day) {
    start <= d <= end
  }

  /** Inclusive interval overlap. */
  predicate Overlaps(start: Day, end: Day, otherStart: Day, otherEnd: Day) {
    start <= otherEnd && end >= otherStart
  }

  /** A resource whose current assignment is another mission that exists, has
      parseable dates and overlaps `w`. A dangling reference is no conflict. */
  predicate BookedElsewhere(t: Tables, parse: DateParser, w: Window, projectId: string, assignment: string) {
    && assignment != "" && assignment != NoAssignment && assignment != projectId
    && match Resolve(t, parse, assignment)
       case None => false
       case Some(other) => Overlaps(w.start, w.end, other.start, other.end)
  }

  /** When each pilot check fires (`found` is the pilot lookup). */
  predicate PilotRaises(t: Tables, parse: DateParser, w: Window, projectId: string, found: Option<Pilot>, kind: Kind) {
    match found
    case None => kind == DataError
    case Some(p) =>
      match kind
      case Unavailable => p.status == StatusOnLeave || p.status == StatusUnavailable
      case DoubleBooking => BookedElsewhere(t, parse, w, projectId, p.currentAssignment)
      case CertificationMissing => CertsMissing(w.mission, p) != []
      case SkillMismatch => SkillsMissing(w.mission, p) != []
      case LocationMismatch => p.location != w.mission.location
      case _ => false
  }

  /** When each drone check fires (`found` is the drone lookup). */
  predicate DroneRaises(t: Tables, parse: DateParser, w: Window, projectId: string, found: Option<Drone>, kind: Kind) {
    match found
    case None => kind == DataError
    case Some(d) =>
      match kind
      case Maintenance => d.status == StatusMaintenance
      case MaintenanceDue => parse(d.maintenanceDue).Some? && parse(d.maintenanceDue).value < w.end
      case DoubleBooking => BookedElsewhere(t, parse, w, projectId, d.currentAssignment)
      case LocationMismatch => d.location != w.mission.location
      case _ => false
  }

  /** The co-location check: both resources supplied and found, in different places. */
  predicate PairRaises(t: Tables, pilotId: string, droneId: string, kind: Kind) {
    && kind == LocationMismatch && pilotId != ""
    && FindPilot(t.pilots, pilotId).Some? && FindDrone(t.drones, droneId).Some?
    && FindPilot(t.pilots, pilotId).value.location != FindDrone(t.drones, droneId).value.location
  }

  /** Whether the detector reports a conflict of `kind` about `subject` for `req`
      against the tables `t`. */
  predicate Raised(t: Tables, parse: DateParser, req: Request, kind: Kind, subject: Subject) {
    match Resolve(t, parse, req.projectId)
    case None => kind == DataError && subject == OnMission
    case Some(w) =>
      match subject
      case OnMission => false
      case OnPilot => req.pilotId != "" && PilotRaises(t, parse, w, req.projectId, FindPilot(t.pilots, req.pilotId), kind)
      case OnDrone => req.droneId != "" && DroneRaises(t, parse, w, req.projectId, FindDrone(t.drones, req.droneId), kind)
      case OnPilotAndDrone => req.droneId != "" && PairRaises(t, req.pilotId, req.droneId, kind)
  }

  /** Some conflict of the given severity is reported. */
  ghost predicate AnyRaised(t: Tables, parse: DateParser, req: Request, severity: Severity) {
    exists kind, subject :: Raised(t, parse, req, kind, subject) && SeverityOf(kind, subject) == severity
  }

  /** The tags listed by a pilot conflict of `kind`. */
  function TagsMissing(m: Mission, p: Pilot, kind: Kind): seq<string> {
    if kind == CertificationMissing then CertsMissing(m, p)
    else if kind == SkillMismatch then SkillsMissing(m, p)
    else []
  }

  /** The tags listed by the conflict of `kind` about `subject` for a request
      on mission `projectId` with pilot `pilotId`. */
  function ExpectedMissing(t: Tables, projectId: string, pilotId: string, kind: Kind, subject: Subject): seq<string> {
    if subject == OnPilot && FindMission(t.missions, projectId).Some? && FindPilot(t.pilots, pilotId).Some?
    then TagsMissing(FindMission(t.missions, projectId).value, FindPilot(t.pilots, pilotId).value, kind)
    else []
  }

  /** A conflict carries the severity of its check, is overridable exactly when
      SOFT, and lists the tags its check found missing. */
  predicate Conforms(t: Tables, projectId: string, pilotId: string, c: Conflict) {
    && c.severity == SeverityOf(c.kind, c.subject)
    && c.canOverride == (c.severity == Soft)
    && c.missing == ExpectedMissing(t, projectId, pilotId, c.kind, c.subject)
  }

  /** The whole report: each check that fires appears exactly once, nothing else
      appears, and each conflict carries its severity, flag and tag list. */
  ghost predicate Reports(t: Tables, parse: DateParser, req: Request, cs: seq<Conflict>) {
    && (forall kind, subject :: Count(cs, kind, subject) == if Raised(t, parse, req, kind, subject) then 1 else 0)
    && (forall c :: c in cs ==> Conforms(t, req.projectId, req.pilotId, c))
  }

  // ---------------------------------------------------------------- the lists, in check order

  /** The conflict `c` when its check fires, nothing otherwise. */
  function Fire(fired: bool, c: Conflict): seq<Conflict> {
    if fired then [c] else []
  }

  /** The pilot block of the report, in check order. */
  function PilotBlock(t: Tables, parse: DateParser, w: Window, projectId: string, pilotId: string): seq<Conflict> {
    match FindPilot(t.pilots, pilotId)
    case None => [Conflict(DataError, Hard, OnPilot, [], false)]
    case Some(p) =>
      Fire(p.status == StatusOnLeave || p.status == StatusUnavailable, Conflict(Unavailable, Hard, OnPilot, [], false))
      + Fire(BookedElsewhere(t, parse, w, projectId, p.currentAssignment), Conflict(DoubleBooking, Hard, OnPilot, [], false))
      + Fire(CertsMissing(w.mission, p) != [], Conflict(CertificationMissing, Hard, OnPilot, CertsMissing(w.mission, p), false))
      + Fire(SkillsMissing(w.mission, p) != [], Conflict(SkillMismatch, Soft, OnPilot, SkillsMissing(w.mission, p), true))
      + Fire(p.location != w.mission.location, Conflict(LocationMismatch, Soft, OnPilot, [], true))
  }

  /** The drone block of the report, ending with the co-location check. */
  function DroneBlock(t: Tables, parse: DateParser, w: Window, projectId: string, pilotId: string, droneId: string): seq<Conflict> {
    match FindDrone(t.drones, droneId)
    case None => [Conflict(DataError, Hard, OnDrone, [], false)]
    case Some(d) =>
      Fire(d.status == StatusMaintenance, Conflict(Maintenance, Hard, OnDrone, [], false))
      + Fire(parse(d.maintenanceDue).Some? && parse(d.maintenanceDue).value < w.end, Conflict(MaintenanceDue, Hard, OnDrone, [], false))
      + Fire(BookedElsewhere(t, parse, w, projectId, d.currentAssignment), Conflict(DoubleBooking, Hard, OnDrone, [], false))
      + Fire(d.location != w.mission.location, Conflict(LocationMismatch, Soft, OnDrone, [], true))
      + Fire(PairRaises(t, pilotId, droneId, LocationMismatch), Conflict(LocationMismatch, Hard, OnPilotAndDrone, [], false))
  }

  /** The whole list: the terminal DATA_ERROR, or the pilot block (when a
      pilot is supplied) followed by the drone block (when a drone is supplied). */
  function Report(t: Tables, parse: DateParser, req: Request): seq<Conflict> {
    match Resolve(t, parse, req.projectId)
    case None => [Conflict(DataError, Hard, OnMission, [], false)]
    case Some(w) =>
      (if req.pilotId != "" then PilotBlock(t, parse, w, req.projectId, req.pilotId) else [])
      + (if req.droneId != "" then DroneBlock(t, parse, w, req.projectId, req.pilotId, req.droneId) else [])
  }

  // ---------------------------------------------------------------- counting lemmas

  lemma {:induction false} CountAppend(a: seq<Conflict>, b: seq<Conflict>, kind: Kind, subject: Subject)
    ensures Count(a + b, kind, subject) == Count(a, kind, subject) + Count(b, kind, subject)
  {
    if b != [] {
      var ab := a + b;
      assert ab[..|ab| - 1] == a + b[..|b| - 1];
      assert ab[|ab| - 1] == b[|b| - 1];
      CountAppend(a, b[..|b| - 1], kind, subject);
    } else {
      assert a + b == a;
    }
  }

  /** Appending one conflict adds one to its own (kind, subject) count only. */
  lemma CountPush(cs: seq<Conflict>, c: Conflict)
    ensures forall kind, subject :: Count(cs + [c], kind, subject) ==
              Count(cs, kind, subject) + if c.kind == kind && c.subject == subject then 1 else 0
  {
    assert (cs + [c])[..|cs|] == cs;
  }

  /** Appending a conflict that comes later in check order keeps the list in check order. */
  lemma OrderPush(cs: seq<Conflict>, c: Conflict)
    requires InCheckOrder(cs)
    requires forall x :: x in cs ==> Position(x) < Position(c)
    ensures InCheckOrder(cs + [c])
  {
    var r := cs + [c];
    forall i, j | 0 <= i < j < |r|
      ensures Position(r[i]) < Position(r[j])
    {
      assert r[i] in cs;
      if j < |cs| {
        assert r[j] == cs[j];
      }
    }
  }

  /** Two lists in check order, all of the first before all of the second, concatenate in check order. */
  lemma OrderConcat(a: seq<Conflict>, b: seq<Conflict>)
    requires InCheckOrder(a) && InCheckOrder(b)
    requires forall x, y :: x in a && y in b ==> Position(x) < Position(y)
    ensures InCheckOrder(a + b)
  {
    var r := a + b;
    forall i, j | 0 <= i < j < |r|
      ensures Position(r[i]) < Position(r[j])
    {
      if j < |a| {
        assert r[i] == a[i] && r[j] == a[j];
      } else if i >= |a| {
        assert r[i] == b[i - |a|] && r[j] == b[j - |a|];
      } else {
        assert r[i] in a && r[j] in b;
      }
    }
  }

  lemma {:induction false} CountMember(cs: seq<Conflict>, c: Conflict)
    requires c in cs
    ensures Count(cs, c.kind, c.subject) > 0
  {
    if cs[|cs| - 1] != c {
      assert c in cs[..|cs| - 1];
      CountMember(cs[..|cs| - 1], c);
    }
  }

  lemma {:induction false} CountWitness(cs: seq<Conflict>, kind: Kind, subject: Subject) returns (c: Conflict)
    requires Count(cs, kind, subject) > 0
    ensures c in cs && c.kind == kind && c.subject == subject
  {
    var last := cs[|cs| - 1];
    if last.kind == kind && last.subject == subject {
      c := last;
    } else {
      c := CountWitness(cs[..|cs| - 1], kind, subject);
    }
  }

  lemma CountSingle(c: Conflict, kind: Kind, subject: Subject)
    ensures Count([c], kind, subject) == if c.kind == kind && c.subject == subject then 1 else 0
  {
    assert [c][..0] == [];
  }

  /** Filtering by severity keeps exactly the counts of the pairs reported with that severity. */
  lemma {:induction false} CountWithSeverity(cs: seq<Conflict>, severity: Severity, kind: Kind, subject: Subject)
    requires forall c :: c in cs ==> c.severity == SeverityOf(c.kind, c.subject)
    ensures Count(WithSeverity(cs, severity), kind, subject) ==
              if SeverityOf(kind, subject) == severity then Count(cs, kind, subject) else 0
  {
    if cs != [] {
      var init := cs[..|cs| - 1];
      var last := cs[|cs| - 1];
      assert last in cs;
      assert forall c :: c in init ==> c in cs;
      CountWithSeverity(init, severity, kind, subject);
      assert cs == init + [last];
      CountWithSeverityStep(init, last, severity, kind, subject);
    } else {
      assert WithSeverity(cs, severity) == [];
    }
  }

  /** One more conflict, reported with its own severity, keeps the filtered counts right. */
  lemma CountWithSeverityStep(init: seq<Conflict>, last: Conflict, severity: Severity, kind: Kind, subject: Subject)
    requires last.severity == SeverityOf(last.kind, last.subject)
    requires Count(WithSeverity(init, severity), kind, subject) ==
               if SeverityOf(kind, subject) == severity then Count(init, kind, subject) else 0
    ensures Count(WithSeverity(init + [last], severity), kind, subject) ==
              if SeverityOf(kind, subject) == severity then Count(init + [last], kind, subject) else 0
  {
    var cs := init + [last];
    var hit := if last.kind == kind && last.subject == subject then 1 else 0;
    CountSingle(last, kind, subject);
    CountAppend(init, [last], kind, subject);
    assert Count(cs, kind, subject) == Count(init, kind, subject) + hit;
    var kept := WithSeverity(init, severity);
    assert cs[..|cs| - 1] == init;
    if last.severity == severity {
      assert WithSeverity(cs, severity) == kept + [last];
      CountAppend(kept, [last], kind, subject);
    } else {
      assert WithSeverity(cs, severity) == kept + [];
      assert kept + [] == kept;
    }
    assert Count(WithSeverity(cs, severity), kind, subject) ==
           Count(kept, kind, subject) + if last.severity == severity then hit else 0;
    if SeverityOf(kind, subject) == severity {
      assert hit == 1 ==> last.severity == severity;
    } else {
      assert hit == 1 ==> last.severity != severity;
    }
  }

  /** A report holds a conflict of a severity exactly when some check of that severity fires. */
  lemma SeverityPresent(t: Tables, parse: DateParser, req: Request, cs: seq<Conflict>, severity: Severity)
    requires Reports(t, parse, req, cs)
    ensures WithSeverity(cs, severity) != [] <==> AnyRaised(t, parse, req, severity)
  {
    WithSeverityMembers(cs, severity);
    if WithSeverity(cs, severity) != [] {
      var c := WithSeverity(cs, severity)[0];
      assert c in WithSeverity(cs, severity);
      CountMember(cs, c);
      assert Raised(t, parse, req, c.kind, c.subject);
    }
    if AnyRaised(t, parse, req, severity) {
      var kind, subject :| Raised(t, parse, req, kind, subject) && SeverityOf(kind, subject) == severity;
      var c := CountWitness(cs, kind, subject);
      assert c in WithSeverity(cs, severity);
    }
  }

  /** The filtered list is itself the report of the checks of that severity. */
  lemma ReportsWithSeverity(t: Tables, parse: DateParser, req: Request, cs: seq<Conflict>, severity: Severity)
    requires Reports(t, parse, req, cs)
    ensures forall kind, subject :: Count(WithSeverity(cs, severity), kind, subject) ==
              if Raised(t, parse, req, kind, subject) && SeverityOf(kind, subject) == severity then 1 else 0
  {
    forall kind, subject
      ensures Count(WithSeverity(cs, severity), kind, subject) ==
                if Raised(t, parse, req, kind, subject) && SeverityOf(kind, subject) == severity then 1 else 0
    {
      CountWithSeverity(cs, severity, kind, subject);
    }
  }

  lemma CountFire(fired: bool, c: Conflict, kind: Kind, subject: Subject)
    ensures Count(Fire(fired, c), kind, subject) == if fired && c.kind == kind && c.subject == subject then 1 else 0
  {
    if fired {
      CountSingle(c, kind, subject);
    }
  }

  /** A conditional append is an append of `Fire`. */
  lemma FirePush(prev: seq<Conflict>, cs: seq<Conflict>, fired: bool, c: Conflict)
    requires cs == if fired then prev + [c] else prev
    ensures cs == prev + Fire(fired, c)
  {
    if !fired {
      assert prev + [] == prev;
    }
  }

  /** Counting over a five-part concatenation. */
  lemma CountFive(f1: seq<Conflict>, f2: seq<Conflict>, f3: seq<Conflict>, f4: seq<Conflict>, f5: seq<Conflict>, kind: Kind, subject: Subject)
    ensures Count(f1 + f2 + f3 + f4 + f5, kind, subject) ==
              Count(f1, kind, subject) + Count(f2, kind, subject) + Count(f3, kind, subject)
              + Count(f4, kind, subject) + Count(f5, kind, subject)
  {
    CountAppend(f1, f2, kind, subject);
    CountAppend(f1 + f2, f3, kind, subject);
    CountAppend(f1 + f2 + f3, f4, kind, subject);
    CountAppend(f1 + f2 + f3 + f4, f5, kind, subject);
  }

  /** Appending a check that comes later keeps the list in check order. */
  lemma OrderFire(cs: seq<Conflict>, fired: bool, c: Conflict)
    requires InCheckOrder(cs)
    requires forall x :: x in cs ==> Position(x) < Position(c)
    ensures InCheckOrder(cs + Fire(fired, c))
    ensures forall x :: x in cs + Fire(fired, c) ==> Position(x) <= Position(c)
  {
    if fired {
      OrderPush(cs, c);
    } else {
      assert cs + Fire(fired, c) == cs;
    }
  }

  /** Which pilot check fires, given the outcome of each of them. */
  function PilotKindFires(b1: bool, b2: bool, b3: bool, b4: bool, b5: bool, kind: Kind): bool {
    match kind
    case Unavailable => b1
    case DoubleBooking => b2
    case CertificationMissing => b3
    case SkillMismatch => b4
    case LocationMismatch => b5
    case _ => false
  }

  lemma PilotSum(b1: bool, b2: bool, b3: bool, b4: bool, b5: bool, certs: seq<string>, skills: seq<string>, kind: Kind, subject: Subject)
    ensures Count(Fire(b1, Conflict(Unavailable, Hard, OnPilot, [], false)), kind, subject)
          + Count(Fire(b2, Conflict(DoubleBooking, Hard, OnPilot, [], false)), kind, subject)
          + Count(Fire(b3, Conflict(CertificationMissing, Hard, OnPilot, certs, false)), kind, subject)
          + Count(Fire(b4, Conflict(SkillMismatch, Soft, OnPilot, skills, true)), kind, subject)
          + Count(Fire(b5, Conflict(LocationMismatch, Soft, OnPilot, [], true)), kind, subject)
          == if subject == OnPilot && PilotKindFires(b1, b2, b3, b4, b5, kind) then 1 else 0
  {
    CountFire(b1, Conflict(Unavailable, Hard, OnPilot, [], false), kind, subject);
    CountFire(b2, Conflict(DoubleBooking, Hard, OnPilot, [], false), kind, subject);
    CountFire(b3, Conflict(CertificationMissing, Hard, OnPilot, certs, false), kind, subject);
    CountFire(b4, Conflict(SkillMismatch, Soft, OnPilot, skills, true), kind, subject);
    CountFire(b5, Conflict(LocationMismatch, Soft, OnPilot, [], true), kind, subject);
  }

  /** The pilot block holds each pilot check that fires, once. */
  lemma PilotBlockCount(t: Tables, parse: DateParser, w: Window, projectId: string, pilotId: string, kind: Kind, subject: Subject)
    ensures Count(PilotBlock(t, parse, w, projectId, pilotId), kind, subject) ==
              if subject == OnPilot && PilotRaises(t, parse, w, projectId, FindPilot(t.pilots, pilotId), kind) then 1 else 0
  {
    match FindPilot(t.pilots, pilotId)
    case None =>
      CountSingle(Conflict(DataError, Hard, OnPilot, [], false), kind, subject);
    case Some(p) =>
      var b1, b2, b3, b4, b5 := PilotBlockUnfold(t, parse, w, projectId, pilotId, p, kind);
      var certs, skills := CertsMissing(w.mission, p), SkillsMissing(w.mission, p);
      CountFive(Fire(b1, Conflict(Unavailable, Hard, OnPilot, [], false)),
                Fire(b2, Conflict(DoubleBooking, Hard, OnPilot, [], false)),
                Fire(b3, Conflict(CertificationMissing, Hard, OnPilot, certs, false)),
                Fire(b4, Conflict(SkillMismatch, Soft, OnPilot, skills, true)),
                Fire(b5, Conflict(LocationMismatch, Soft, OnPilot, [], true)), kind, subject);
      PilotSum(b1, b2, b3, b4, b5, certs, skills, kind, subject);
  }

  /** The pilot block of a found pilot, with the outcome of each check named. */
  lemma PilotBlockUnfold(t: Tables, parse: DateParser, w: Window, projectId: string, pilotId: string, p: Pilot, kind: Kind)
    returns (b1: bool, b2: bool, b3: bool, b4: bool, b5: bool)
    requires FindPilot(t.pilots, pilotId) == Some(p)
    ensures PilotBlock(t, parse, w, projectId, pilotId) ==
              Fire(b1, Conflict(Unavailable, Hard, OnPilot, [], false))
              + Fire(b2, Conflict(DoubleBooking, Hard, OnPilot, [], false))
              + Fire(b3, Conflict(CertificationMissing, Hard, OnPilot, CertsMissing(w.mission, p), false))
              + Fire(b4, Conflict(SkillMismatch, Soft, OnPilot, SkillsMissing(w.mission, p), true))
              + Fire(b5, Conflict(LocationMismatch, Soft, OnPilot, [], true))
    ensures PilotRaises(t, parse, w, projectId, Some(p), kind) == PilotKindFires(b1, b2, b3, b4, b5, kind)
    ensures b1 == (p.status == StatusOnLeave || p.status == StatusUnavailable)
    ensures b2 == BookedElsewhere(t, parse, w, projectId, p.currentAssignment)
    ensures b3 == (CertsMissing(w.mission, p) != []) && b4 == (SkillsMissing(w.mission, p) != [])
    ensures b5 == (p.location != w.mission.location)
  {
    b1 := p.status == StatusOnLeave || p.status == StatusUnavailable;
    b2 := BookedElsewhere(t, parse, w, projectId, p.currentAssignment);
    b3 := CertsMissing(w.mission, p) != [];
    b4 := SkillsMissing(w.mission, p) != [];
    b5 := p.location != w.mission.location;
  }

  /** The five pilot checks, whichever of them fire, are listed in check order. */
  lemma PilotFires(b1: bool, b2: bool, b3: bool, b4: bool, b5: bool, certs: seq<string>, skills: seq<string>)
    ensures var cs := Fire(b1, Conflict(Unavailable, Hard, OnPilot, [], false))
                      + Fire(b2, Conflict(DoubleBooking, Hard, OnPilot, [], false))
                      + Fire(b3, Conflict(CertificationMissing, Hard, OnPilot, certs, false))
                      + Fire(b4, Conflict(SkillMismatch, Soft, OnPilot, skills, true))
                      + Fire(b5, Conflict(LocationMismatch, Soft, OnPilot, [], true));
            && InCheckOrder(cs)
            && forall c :: c in cs ==>
                 c in [Conflict(Unavailable, Hard, OnPilot, [], false), Conflict(DoubleBooking, Hard, OnPilot, [], false),
                       Conflict(CertificationMissing, Hard, OnPilot, certs, false), Conflict(SkillMismatch, Soft, OnPilot, skills, true),
                       Conflict(LocationMismatch, Soft, OnPilot, [], true)]
  {
    FiveFires(b1, b2, b3, b4, b5,
              Conflict(Unavailable, Hard, OnPilot, [], false),
              Conflict(DoubleBooking, Hard, OnPilot, [], false),
              Conflict(CertificationMissing, Hard, OnPilot, certs, false),
              Conflict(SkillMismatch, Soft, OnPilot, skills, true),
              Conflict(LocationMismatch, Soft, OnPilot, [], true));
  }

  /** The pilot block is in check order and every conflict in it conforms. */
  lemma PilotBlockShape(t: Tables, parse: DateParser, w: Window, projectId: string, pilotId: string)
    requires Resolve(t, parse, projectId) == Some(w)
    ensures InCheckOrder(PilotBlock(t, parse, w, projectId, pilotId))
    ensures forall c :: c in PilotBlock(t, parse, w, projectId, pilotId) ==>
              c.subject == OnPilot && Conforms(t, projectId, pilotId, c)
  {
    match FindPilot(t.pilots, pilotId)
    case None =>
      assert Conforms(t, projectId, pilotId, Conflict(DataError, Hard, OnPilot, [], false));
    case Some(p) =>
      var b1, b2, b3, b4, b5 := PilotBlockUnfold(t, parse, w, projectId, pilotId, p, DataError);
      var c1 := Conflict(Unavailable, Hard, OnPilot, [], false);
      var c2 := Conflict(DoubleBooking, Hard, OnPilot, [], false);
      var c3 := Conflict(CertificationMissing, Hard, OnPilot, CertsMissing(w.mission, p), false);
      var c4 := Conflict(SkillMismatch, Soft, OnPilot, SkillsMissing(w.mission, p), true);
      var c5 := Conflict(LocationMismatch, Soft, OnPilot, [], true);
      PilotFires(b1, b2, b3, b4, b5, CertsMissing(w.mission, p), SkillsMissing(w.mission, p));
      assert FindMission(t.missions, projectId) == Some(w.mission);
      PilotConflictsAre(w.mission, p);
      var block := PilotBlock(t, parse, w, projectId, pilotId);
      forall c | c in block
        ensures c.subject == OnPilot && c == PilotConflict(w.mission, p, c.kind)
      {
        assert c in [c1, c2, c3, c4, c5];
      }
      PilotConflictsConform(t, w.mission, projectId, pilotId, p, block);
  }

  /** The drone block holds each drone check that fires, and the co-location check, once. */
  lemma DroneBlockCount(t: Tables, parse: DateParser, w: Window, projectId: string, pilotId: string, droneId: string, kind: Kind, subject: Subject)
    ensures Count(DroneBlock(t, parse, w, projectId, pilotId, droneId), kind, subject) ==
              if (subject == OnDrone && DroneRaises(t, parse, w, projectId, FindDrone(t.drones, droneId), kind))
                 || (subject == OnPilotAndDrone && PairRaises(t, pilotId, droneId, kind))
              then 1 else 0
  {
    match FindDrone(t.drones, droneId)
    case None =>
      CountSingle(Conflict(DataError, Hard, OnDrone, [], false), kind, subject);
    case Some(d) =>
      var b1, b2, b3, b4, b5 := DroneBlockUnfold(t, parse, w, projectId, pilotId, droneId, d, kind);
      CountFive(Fire(b1, Conflict(Maintenance, Hard, OnDrone, [], false)),
                Fire(b2, Conflict(MaintenanceDue, Hard, OnDrone, [], false)),
                Fire(b3, Conflict(DoubleBooking, Hard, OnDrone, [], false)),
                Fire(b4, Conflict(LocationMismatch, Soft, OnDrone, [], true)),
                Fire(b5, Conflict(LocationMismatch, Hard, OnPilotAndDrone, [], false)), kind, subject);
      DroneSum(b1, b2, b3, b4, b5, kind, subject);
  }

  /** The drone block of a found drone, with the outcome of each check named. */
  lemma DroneBlockUnfold(t: Tables, parse: DateParser, w: Window, projectId: string, pilotId: string, droneId: string, d: Drone, kind: Kind)
    returns (b1: bool, b2: bool, b3: bool, b4: bool, b5: bool)
    requires FindDrone(t.drones, droneId) == Some(d)
    ensures DroneBlock(t, parse, w, projectId, pilotId, droneId) ==
              Fire(b1, Conflict(Maintenance, Hard, OnDrone, [], false))
              + Fire(b2, Conflict(MaintenanceDue, Hard, OnDrone, [], false))
              + Fire(b3, Conflict(DoubleBooking, Hard, OnDrone, [], false))
              + Fire(b4, Conflict(LocationMismatch, Soft, OnDrone, [], true))
              + Fire(b5, Conflict(LocationMismatch, Hard, OnPilotAndDrone, [], false))
    ensures DroneRaises(t, parse, w, projectId, Some(d), kind) == DroneKindFires(b1, b2, b3, b4, kind)
    ensures PairRaises(t, pilotId, droneId, kind) == (kind == LocationMismatch && b5)
    ensures b1 == (d.status == StatusMaintenance)
    ensures b2 == (parse(d.maintenanceDue).Some? && parse(d.maintenanceDue).value < w.end)
    ensures b3 == BookedElsewhere(t, parse, w, projectId, d.currentAssignment)
    ensures b4 == (d.location != w.mission.location) && b5 == PairRaises(t, pilotId, droneId, LocationMismatch)
  {
    b1 := d.status == StatusMaintenance;
    b2 := parse(d.maintenanceDue).Some? && parse(d.maintenanceDue).value < w.end;
    b3 := BookedElsewhere(t, parse, w, projectId, d.currentAssignment);
    b4 := d.location != w.mission.location;
    b5 := PairRaises(t, pilotId, droneId, LocationMismatch);
  }

  function DroneKindFires(b1: bool, b2: bool, b3: bool, b4: bool, kind: Kind): bool {
    match kind
    case Maintenance => b1
    case MaintenanceDue => b2
    case DoubleBooking => b3
    case LocationMismatch => b4
    case _ => false
  }

  lemma DroneSum(b1: bool, b2: bool, b3: bool, b4: bool, b5: bool, kind: Kind, subject: Subject)
    ensures Count(Fire(b1, Conflict(Maintenance, Hard, OnDrone, [], false)), kind, subject)
          + Count(Fire(b2, Conflict(MaintenanceDue, Hard, OnDrone, [], false)), kind, subject)
          + Count(Fire(b3, Conflict(DoubleBooking, Hard, OnDrone, [], false)), kind, subject)
          + Count(Fire(b4, Conflict(LocationMismatch, Soft, OnDrone, [], true)), kind, subject)
          + Count(Fire(b5, Conflict(LocationMismatch, Hard, OnPilotAndDrone, [], false)), kind, subject)
          == if (subject == OnDrone && DroneKindFires(b1, b2, b3, b4, kind)) || (subject == OnPilotAndDrone && kind == LocationMismatch && b5) then 1 else 0
  {
    CountFire(b1, Conflict(Maintenance, Hard, OnDrone, [], false), kind, subject);
    CountFire(b2, Conflict(MaintenanceDue, Hard, OnDrone, [], false), kind, subject);
    CountFire(b3, Conflict(DoubleBooking, Hard, OnDrone, [], false), kind, subject);
    CountFire(b4, Conflict(LocationMismatch, Soft, OnDrone, [], true), kind, subject);
    CountFire(b5, Conflict(LocationMismatch, Hard, OnPilotAndDrone, [], false), kind, subject);
  }

  /** Five checks in increasing check order, each reported when it fires:
      the result is in check order and holds only those five conflicts. */
  lemma FiveFires(b1: bool, b2: bool, b3: bool, b4: bool, b5: bool,
                  c1: Conflict, c2: Conflict, c3: Conflict, c4: Conflict, c5: Conflict)
    requires Position(c1) < Position(c2) < Position(c3) < Position(c4) < Position(c5)
    ensures InCheckOrder(Fire(b1, c1) + Fire(b2, c2) + Fire(b3, c3) + Fire(b4, c4) + Fire(b5, c5))
    ensures forall c :: c in Fire(b1, c1) + Fire(b2, c2) + Fire(b3, c3) + Fire(b4, c4) + Fire(b5, c5) ==>
              c == c1 || c == c2 || c == c3 || c == c4 || c == c5
  {
    FiveFiresOrder(b1, b2, b3, b4, b5, c1, c2, c3, c4, c5);
    var f1, f2, f3, f4, f5 := Fire(b1, c1), Fire(b2, c2), Fire(b3, c3), Fire(b4, c4), Fire(b5, c5);
    forall c | c in f1 + f2 + f3 + f4 + f5
      ensures c == c1 || c == c2 || c == c3 || c == c4 || c == c5
    {
      assert c in f1 || c in f2 || c in f3 || c in f4 || c in f5;
    }
  }

  lemma FiveFiresOrder(b1: bool, b2: bool, b3: bool, b4: bool, b5: bool,
                       c1: Conflict, c2: Conflict, c3: Conflict, c4: Conflict, c5: Conflict)
    requires Position(c1) < Position(c2) < Position(c3) < Position(c4) < Position(c5)
    ensures InCheckOrder(Fire(b1, c1) + Fire(b2, c2) + Fire(b3, c3) + Fire(b4, c4) + Fire(b5, c5))
  {
    var f1, f2, f3, f4, f5 := Fire(b1, c1), Fire(b2, c2), Fire(b3, c3), Fire(b4, c4), Fire(b5, c5);
    OrderFire([], b1, c1);
    assert [] + f1 == f1;
    OrderFire(f1, b2, c2);
    OrderFire(f1 + f2, b3, c3);
    OrderFire(f1 + f2 + f3, b4, c4);
    OrderFire(f1 + f2 + f3 + f4, b5, c5);
  }

  /** The conflict a pilot check of `kind` reports: the check's severity,
      overridable exactly when soft, listing the tags that kind lists. */
  function PilotConflict(m: Mission, p: Pilot, kind: Kind): Conflict {
    Conflict(kind, SeverityOf(kind, OnPilot), OnPilot, TagsMissing(m, p, kind), SeverityOf(kind, OnPilot) == Soft)
  }

  /** The five conflicts of the pilot block are the pilot conflicts of their kinds. */
  lemma PilotConflictsAre(m: Mission, p: Pilot)
    ensures Conflict(Unavailable, Hard, OnPilot, [], false) == PilotConflict(m, p, Unavailable)
    ensures Conflict(DoubleBooking, Hard, OnPilot, [], false) == PilotConflict(m, p, DoubleBooking)
    ensures Conflict(CertificationMissing, Hard, OnPilot, CertsMissing(m, p), false) == PilotConflict(m, p, CertificationMissing)
    ensures Conflict(SkillMismatch, Soft, OnPilot, SkillsMissing(m, p), true) == PilotConflict(m, p, SkillMismatch)
    ensures Conflict(LocationMismatch, Soft, OnPilot, [], true) == PilotConflict(m, p, LocationMismatch)
  {
  }

  /** Pilot conflicts conform, whatever their kinds. */
  lemma PilotConflictsConform(t: Tables, m: Mission, projectId: string, pilotId: string, p: Pilot, cs: seq<Conflict>)
    requires FindMission(t.missions, projectId) == Some(m) && FindPilot(t.pilots, pilotId) == Some(p)
    requires forall c :: c in cs ==> c == PilotConflict(m, p, c.kind)
    ensures forall c :: c in cs ==> Conforms(t, projectId, pilotId, c)
  {
    forall c | c in cs
      ensures Conforms(t, projectId, pilotId, c)
    {
      PilotConflictConforms(t, m, projectId, pilotId, p, c.kind);
    }
  }

  lemma PilotConflictConforms(t: Tables, m: Mission, projectId: string, pilotId: string, p: Pilot, kind: Kind)
    requires FindMission(t.missions, projectId) == Some(m) && FindPilot(t.pilots, pilotId) == Some(p)
    ensures Conforms(t, projectId, pilotId, PilotConflict(m, p, kind))
  {
  }

  /** The drone block is in check order and every conflict in it conforms. */
  lemma DroneBlockShape(t: Tables, parse: DateParser, w: Window, projectId: string, pilotId: string, droneId: string)
    ensures InCheckOrder(DroneBlock(t, parse, w, projectId, pilotId, droneId))
    ensures forall c :: c in DroneBlock(t, parse, w, projectId, pilotId, droneId) ==>
              (c.subject == OnDrone || c.subject == OnPilotAndDrone) && Conforms(t, projectId, pilotId, c)
  {
    match FindDrone(t.drones, droneId)
    case None =>
      assert Conforms(t, projectId, pilotId, Conflict(DataError, Hard, OnDrone, [], false));
    case Some(d) =>
      var b1, b2, b3, b4, b5 := DroneBlockUnfold(t, parse, w, projectId, pilotId, droneId, d, DataError);
      FiveFires(b1, b2, b3, b4, b5,
                Conflict(Maintenance, Hard, OnDrone, [], false),
                Conflict(MaintenanceDue, Hard, OnDrone, [], false),
                Conflict(DoubleBooking, Hard, OnDrone, [], false),
                Conflict(LocationMismatch, Soft, OnDrone, [], true),
                Conflict(LocationMismatch, Hard, OnPilotAndDrone, [], false));
      DroneConflictsConform(t, projectId, pilotId);
  }

  /** The drone and co-location checks list no tags. */
  lemma DroneConflictsConform(t: Tables, projectId: string, pilotId: string)
    ensures Conforms(t, projectId, pilotId, Conflict(Maintenance, Hard, OnDrone, [], false))
    ensures Conforms(t, projectId, pilotId, Conflict(MaintenanceDue, Hard, OnDrone, [], false))
    ensures Conforms(t, projectId, pilotId, Conflict(DoubleBooking, Hard, OnDrone, [], false))
    ensures Conforms(t, projectId, pilotId, Conflict(LocationMismatch, Soft, OnDrone, [], true))
    ensures Conforms(t, projectId, pilotId, Conflict(LocationMismatch, Hard, OnPilotAndDrone, [], false))
  {
  }

  /** The list in check order is the report: every check that fires appears
      exactly once, nothing else does, and every conflict conforms. */
  lemma ReportIsComplete(t: Tables, parse: DateParser, req: Request)
    ensures Reports(t, parse, req, Report(t, parse, req))
    ensures InCheckOrder(Report(t, parse, req))
  {
    forall kind, subject
      ensures Count(Report(t, parse, req), kind, subject) == if Raised(t, parse, req, kind, subject) then 1 else 0
    {
      ReportCount(t, parse, req, kind, subject);
    }
    ReportShape(t, parse, req);
  }

  /** Each (kind, subject) pair is counted once in the report when its check fires, and never otherwise. */
  lemma ReportCount(t: Tables, parse: DateParser, req: Request, kind: Kind, subject: Subject)
    ensures Count(Report(t, parse, req), kind, subject) == if Raised(t, parse, req, kind, subject) then 1 else 0
  {
    match Resolve(t, parse, req.projectId)
    case None =>
      CountSingle(Conflict(DataError, Hard, OnMission, [], false), kind, subject);
    case Some(w) =>
      var ps := if req.pilotId != "" then PilotBlock(t, parse, w, req.projectId, req.pilotId) else [];
      var ds := if req.droneId != "" then DroneBlock(t, parse, w, req.projectId, req.pilotId, req.droneId) else [];
      CountAppend(ps, ds, kind, subject);
      if req.pilotId != "" {
        PilotBlockCount(t, parse, w, req.projectId, req.pilotId, kind, subject);
      }
      if req.droneId != "" {
        DroneBlockCount(t, parse, w, req.projectId, req.pilotId, req.droneId, kind, subject);
      }
  }

  /** The report is in check order and each of its conflicts conforms. */
  lemma ReportShape(t: Tables, parse: DateParser, req: Request)
    ensures InCheckOrder(Report(t, parse, req))
    ensures forall c :: c in Report(t, parse, req) ==> Conforms(t, req.projectId, req.pilotId, c)
  {
    match Resolve(t, parse, req.projectId)
    case None =>
      assert Conforms(t, req.projectId, req.pilotId, Conflict(DataError, Hard, OnMission, [], false));
    case Some(w) =>
      var ps := if req.pilotId != "" then PilotBlock(t, parse, w, req.projectId, req.pilotId) else [];
      var ds := if req.droneId != "" then DroneBlock(t, parse, w, req.projectId, req.pilotId, req.droneId) else [];
      assert Report(t, parse, req) == ps + ds;
      if req.pilotId != "" {
        PilotBlockShape(t, parse, w, req.projectId, req.pilotId);
      }
      if req.droneId != "" {
        DroneBlockShape(t, parse, w, req.projectId, req.pilotId, req.droneId);
      }
      PilotThenDrone(ps, ds);
  }

  /** A pilot block in check order followed by a drone block in check order is in check order. */
  lemma PilotThenDrone(ps: seq<Conflict>, ds: seq<Conflict>)
    requires InCheckOrder(ps) && InCheckOrder(ds)
    requires forall c :: c in ps ==> c.subject == OnPilot
    requires forall c :: c in ds ==> c.subject == OnDrone || c.subject == OnPilotAndDrone
    ensures InCheckOrder(ps + ds)
  {
    OrderConcat(ps, ds);
  }

  // ---------------------------------------------------------------- properties of the checks

  /** In a list in check order, every pilot conflict comes before every drone
      conflict, and the co-location conflict comes last. */
  lemma PilotConflictsFirst(cs: seq<Conflict>)
    requires InCheckOrder(cs)
    ensures forall i, j :: 0 <= i < |cs| && 0 <= j < |cs| && cs[i].subject == OnPilot && cs[j].subject != OnPilot && cs[j].subject != OnMission ==> i < j
    ensures forall i, j :: 0 <= i < |cs| && 0 <= j < |cs| && cs[j].subject == OnPilotAndDrone && cs[i].subject != OnPilotAndDrone ==> i < j
  {
    forall i, j | 0 <= i < |cs| && 0 <= j < |cs| && j <= i
      ensures Position(cs[j]) <= Position(cs[i])
    {
      if j < i {}
    }
  }

  /** Only the pilot skill check and the two single-resource location checks are SOFT. */
  lemma SoftChecks(kind: Kind, subject: Subject)
    ensures SeverityOf(kind, subject) == Soft <==>
              (kind, subject) in {(SkillMismatch, OnPilot), (LocationMismatch, OnPilot), (LocationMismatch, OnDrone)}
  {
  }

  /** A missing mission, or one whose dates do not parse, is reported as the
      single terminal DATA_ERROR and nothing else. */
  lemma UnusableMissionIsTerminal(t: Tables, parse: DateParser, req: Request, kind: Kind, subject: Subject)
    requires Resolve(t, parse, req.projectId).None?
    ensures Raised(t, parse, req, kind, subject) <==> kind == DataError && subject == OnMission
  {
  }

  /** For intervals with start <= end, the overlap test holds exactly when some
      day lies in both. */
  lemma {:induction false} OverlapsIffCommonDay(start: Day, end: Day, otherStart: Day, otherEnd: Day)
    requires start <= end && otherStart <= otherEnd
    ensures Overlaps(start, end, otherStart, otherEnd) <==>
              exists d: Day :: Within(d, start, end) && Within(d, otherStart, otherEnd)
  {
    if Overlaps(start, end, otherStart, otherEnd) {
      var d := if start < otherStart then otherStart else start;
      assert Within(d, start, end) && Within(d, otherStart, otherEnd);
    }
  }

  /** Double booking is symmetric: a resource assigned to mission `a` is double
      booked for `b` exactly when one assigned to `b` is double booked for `a`. */
  lemma DoubleBookingSymmetric(t: Tables, parse: DateParser, a: string, b: string)
    requires a != b && a != "" && b != "" && a != NoAssignment && b != NoAssignment
    requires Resolve(t, parse, a).Some? && Resolve(t, parse, b).Some?
    ensures BookedElsewhere(t, parse, Resolve(t, parse, b).value, b, a)
        <==> BookedElsewhere(t, parse, Resolve(t, parse, a).value, a, b)
  {
  }

  /** The certification gate: a CERTIFICATION_MISSING conflict is reported for a
      found pilot exactly when some required certification is not held. */
  lemma CertificationGate(t: Tables, parse: DateParser, req: Request)
    requires Resolve(t, parse, req.projectId).Some? && req.pilotId != ""
    requires FindPilot(t.pilots, req.pilotId).Some?
    ensures var m := Resolve(t, parse, req.projectId).value.mission;
            var p := FindPilot(t.pilots, req.pilotId).value;
            Raised(t, parse, req, CertificationMissing, OnPilot) <==>
              exists c :: c in ParseSkills(m.requiredCerts) && c !in ParseSkills(p.certifications)
  {
    var w := Resolve(t, parse, req.projectId).value;
    var p := FindPilot(t.pilots, req.pilotId).value;
    RaisedOnFoundPilot(t, parse, req, w, p, CertificationMissing);
    MissingTagsNonEmpty(ParseSkills(w.mission.requiredCerts), ParseSkills(p.certifications));
  }

  /** On a found pilot, a pilot check is raised exactly when it fires. */
  lemma RaisedOnFoundPilot(t: Tables, parse: DateParser, req: Request, w: Window, p: Pilot, kind: Kind)
    requires Resolve(t, parse, req.projectId) == Some(w) && req.pilotId != ""
    requires FindPilot(t.pilots, req.pilotId) == Some(p)
    ensures Raised(t, parse, req, kind, OnPilot) == PilotRaises(t, parse, w, req.projectId, Some(p), kind)
  {
  }
}
