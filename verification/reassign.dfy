/** What `Logic.suggest_reassignments` proposes: busy pilots qualified for a
    mission whose current mission has a strictly lower priority. The loop that
    collects them is `Engine.Logic.SuggestReassignments`. */
module Reassign {
  import opened Records
  import opened Tags

  /** Priority rank: Urgent 4, High 3, Standard 2, Low and anything unknown 1. */
  function Rank(priority: string): (r: nat)
    ensures 1 <= r <= 4
    ensures r == 4 <==> priority == "Urgent"
    ensures r == 1 <==> priority !in {"Urgent", "High", "Standard"}
  {
    if priority == "Urgent" then 4
    else if priority == "High" then 3
    else if priority == "Standard" then 2
    else 1
  }

  datatype Suggestion = Suggestion(
    pilotId: string,
    name: string,
    currentAssignment: string,
    currentPriority: string,
    locationMatch: bool)

  /** The pilot holds every certification the mission requires. */
  predicate Qualified(m: Mission, p: Pilot) {
    forall c :: c in ParseSkills(m.requiredCerts) ==> c in ParseSkills(p.certifications)
  }

  /** A pilot the advisor may propose to move onto `m`: it has an assignment
      (not the dash placeholder), is qualified, and the mission it is on exists
      and ranks strictly below `m`. */
  predicate Bumpable(t: Tables, m: Mission, p: Pilot) {
    && p.currentAssignment != NoAssignment
    && Qualified(m, p)
    && FindMission(t.missions, p.currentAssignment).Some?
    && Rank(m.priority) > Rank(FindMission(t.missions, p.currentAssignment).value.priority)
  }

  function SuggestionFor(t: Tables, m: Mission, p: Pilot): Suggestion
    requires FindMission(t.missions, p.currentAssignment).Some?
  {
    Suggestion(p.pilotId, p.name, p.currentAssignment,
               FindMission(t.missions, p.currentAssignment).value.priority, p.location == m.location)
  }

  /** The suggestions for the pilot rows `rows`, in row order. */
  function Suggested(t: Tables, m: Mission, rows: seq<Pilot>): (r: seq<Suggestion>)
    ensures |r| <= |rows|
  {
    if rows == [] then []
    else
      var last := rows[|rows| - 1];
      Suggested(t, m, rows[..|rows| - 1]) + if Bumpable(t, m, last) then [SuggestionFor(t, m, last)] else []
  }

  // ---------------------------------------------------------------- lemmas

  /** Qualification is the same as having no missing certification. */
  lemma QualifiedIffNoneMissing(m: Mission, p: Pilot)
    ensures Qualified(m, p) <==> CertsMissing(m, p) == []
  {
    MissingTagsMeaning(ParseSkills(m.requiredCerts), ParseSkills(p.certifications));
  }

  /** Every suggestion comes from a bumpable pilot, and every bumpable pilot is suggested. */
  lemma {:induction false} SuggestedExactly(t: Tables, m: Mission, rows: seq<Pilot>)
    ensures forall s :: s in Suggested(t, m, rows) <==>
              exists i :: 0 <= i < |rows| && Bumpable(t, m, rows[i]) && s == SuggestionFor(t, m, rows[i])
  {
    if rows != [] {
      var init := rows[..|rows| - 1];
      SuggestedExactly(t, m, init);
      assert forall i :: 0 <= i < |init| ==> init[i] == rows[i];
      forall s | s in Suggested(t, m, rows)
        ensures exists i :: 0 <= i < |rows| && Bumpable(t, m, rows[i]) && s == SuggestionFor(t, m, rows[i])
      {
        if s !in Suggested(t, m, init) {
          assert Bumpable(t, m, rows[|rows| - 1]);
        }
      }
    }
  }

  /** Scanning one more row of the table appends that row's suggestion, if it has one. */
  lemma SuggestedStep(t: Tables, m: Mission, rows: seq<Pilot>, k: nat, prev: seq<Suggestion>, r: seq<Suggestion>)
    requires k < |rows| && prev == Suggested(t, m, rows[..k])
    requires Bumpable(t, m, rows[k]) ==> r == prev + [SuggestionFor(t, m, rows[k])]
    requires !Bumpable(t, m, rows[k]) ==> r == prev
    ensures r == Suggested(t, m, rows[..k + 1])
  {
    assert rows[..k + 1][..k] == rows[..k];
    if !Bumpable(t, m, rows[k]) {
      assert prev + [] == prev;
    }
  }

  /** Every suggested pilot's current mission ranks strictly below the target. */
  lemma SuggestionsRankBelow(t: Tables, m: Mission, rows: seq<Pilot>)
    ensures forall s :: s in Suggested(t, m, rows) ==> Rank(s.currentPriority) < Rank(m.priority)
  {
    SuggestedExactly(t, m, rows);
  }

  /** Nobody on an Urgent mission is ever suggested, and a mission of the lowest
      rank takes nobody. */
  lemma NoBumpingUrgentOrIntoLowest(t: Tables, m: Mission, rows: seq<Pilot>)
    ensures forall s :: s in Suggested(t, m, rows) ==> s.currentPriority != "Urgent"
    ensures Rank(m.priority) == 1 ==> Suggested(t, m, rows) == []
  {
    SuggestionsRankBelow(t, m, rows);
    var r := Suggested(t, m, rows);
    assert r != [] ==> r[0] in r;
  }

  /** A pilot already on the mission itself is never suggested for it. */
  lemma NotSuggestedForOwnMission(t: Tables, m: Mission, rows: seq<Pilot>)
    requires FindMission(t.missions, m.projectId) == Some(m)
    ensures forall s :: s in Suggested(t, m, rows) ==> s.currentAssignment != m.projectId
  {
    SuggestedExactly(t, m, rows);
  }
}
