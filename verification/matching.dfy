/** What `Logic.find_matches` computes: a fixed-weight assessment of every
    pilot against a mission, the stable highest-score-first ordering, and the
    cut to five. The loop that builds the assessments is
    `Engine.Logic.FindMatches`. */
module Matching {
  import opened Records
  import opened Tags

  /** One entry of a candidate's issue list (the message text is not modelled). */
  datatype Issue =
    | MissingCerts(certs: seq<string>)
    | LocationMismatchAt(location: string)
    | MissingSkills(skills: seq<string>)
    | PilotOnLeave
    | AlreadyAssigned(assignment: string)

  datatype Candidate = Candidate(
    pilotId: string,
    name: string,
    score: int,
    location: string,
    status: string,
    eligible: bool,
    issues: seq<Issue>,
    certifications: string,
    skills: string)

  /** How many results `find_matches` returns at most. */
  const TopCount: nat := 5

  /** The status term of the score: Available +20, On Leave -100, Assigned -50, anything else 0. */
  function StatusPoints(status: string): (r: int)
    ensures r <= 20
  {
    if status == StatusAvailable then 20
    else if status == StatusOnLeave then -100
    else if status == StatusAssigned then -50
    else 0
  }

  /** The score of a pilot: the sum of the certification (+-50), location
      (+-30), skill (+20, or -10 per missing skill) and status terms. */
  function Score(m: Mission, p: Pilot): (r: int)
    ensures r <= 120
  {
    var skillTerm := if SkillsMissing(m, p) != [] then -10 * |SkillsMissing(m, p)| else 20;
    assert skillTerm <= 20;
    (if CertsMissing(m, p) != [] then -50 else 50)
    + (if p.location != m.location then -30 else 30)
    + skillTerm
    + StatusPoints(p.status)
  }

  /** The issues of a pilot, in the order the checks run. */
  function Issues(m: Mission, p: Pilot): seq<Issue> {
    (if CertsMissing(m, p) != [] then [MissingCerts(CertsMissing(m, p))] else [])
    + (if p.location != m.location then [LocationMismatchAt(p.location)] else [])
    + (if SkillsMissing(m, p) != [] then [MissingSkills(SkillsMissing(m, p))] else [])
    + (if p.status == StatusOnLeave then [PilotOnLeave]
       else if p.status == StatusAssigned then [AlreadyAssigned(p.currentAssignment)]
       else [])
  }

  /** A pilot is eligible when it holds every required certification, is at
      the mission's location and is neither On Leave nor Assigned. */
  predicate Eligible(m: Mission, p: Pilot) {
    CertsMissing(m, p) == [] && p.location == m.location && p.status != StatusOnLeave && p.status != StatusAssigned
  }

  /** The assessment of one pilot: its identifying fields, score, eligibility and issues. */
  function Assess(m: Mission, p: Pilot): (c: Candidate)
    ensures c.pilotId == p.pilotId && c.name == p.name && c.location == p.location && c.status == p.status
    ensures c.certifications == p.certifications && c.skills == p.skills
    ensures c.score <= 120
  {
    Candidate(p.pilotId, p.name, Score(m, p), p.location, p.status, Eligible(m, p), Issues(m, p),
              p.certifications, p.skills)
  }

  /** The assessments of the whole pilot table, in table order. */
  function AssessAll(m: Mission, rows: seq<Pilot>): (r: seq<Candidate>)
    ensures |r| == |rows|
    ensures forall i :: 0 <= i < |rows| ==> r[i] == Assess(m, rows[i])
  {
    seq(|rows|, i requires 0 <= i < |rows| => Assess(m, rows[i]))
  }

  /** One step of building the issue list: `i` is appended exactly when the check fired. */
  lemma IssuePush(prev: seq<Issue>, issues: seq<Issue>, fired: bool, i: Issue)
    requires issues == if fired then prev + [i] else prev
    ensures issues == prev + if fired then [i] else []
  {
    if !fired {
      assert prev + [] == prev;
    }
  }

  /** Assessing one more pilot appends its assessment. */
  lemma AssessAllSnoc(m: Mission, rows: seq<Pilot>, p: Pilot)
    ensures AssessAll(m, rows + [p]) == AssessAll(m, rows) + [Assess(m, p)]
  {
    var rows' := rows + [p];
    var a, b := AssessAll(m, rows'), AssessAll(m, rows) + [Assess(m, p)];
    assert |a| == |b|;
    forall i | 0 <= i < |a|
      ensures a[i] == b[i]
    {
      if i < |rows| {
        assert rows'[i] == rows[i];
      } else {
        assert rows'[i] == p;
      }
    }
  }

  /** The status check's share of the score and of the issue list. */
  lemma StatusStep(p: Pilot, prev: seq<Issue>, issues: seq<Issue>, statusIssues: seq<Issue>, before: int, score: int)
    requires issues == prev + statusIssues
    requires p.status == StatusAvailable ==> statusIssues == [] && score == before + 20
    requires p.status != StatusAvailable && p.status == StatusOnLeave ==> statusIssues == [PilotOnLeave] && score == before - 100
    requires p.status != StatusAvailable && p.status != StatusOnLeave && p.status == StatusAssigned ==>
               statusIssues == [AlreadyAssigned(p.currentAssignment)] && score == before - 50
    requires p.status != StatusAvailable && p.status != StatusOnLeave && p.status != StatusAssigned ==>
               statusIssues == [] && score == before
    ensures score == before + StatusPoints(p.status)
    ensures issues == prev + if p.status == StatusOnLeave then [PilotOnLeave]
                             else if p.status == StatusAssigned then [AlreadyAssigned(p.currentAssignment)]
                             else []
  {
  }

  // ---------------------------------------------------------------- ordering

  predicate NonIncreasing(cs: seq<Candidate>) {
    forall i, j :: 0 <= i < j < |cs| ==> cs[i].score >= cs[j].score
  }

  /** Inserts `c` in front of the first entry that does not outscore it, so
      that it stays ahead of the equal scores that came after it in the input. */
  function InsertByScore(c: Candidate, sorted: seq<Candidate>): (r: seq<Candidate>)
    ensures multiset(r) == multiset(sorted) + multiset{c}
  {
    if sorted == [] || sorted[0].score <= c.score then
      [c] + sorted
    else
      assert sorted == [sorted[0]] + sorted[1..];
      [sorted[0]] + InsertByScore(c, sorted[1..])
  }

  /** Inserting into a sorted list keeps it sorted. */
  lemma {:induction false} InsertSorted(c: Candidate, sorted: seq<Candidate>)
    requires NonIncreasing(sorted)
    ensures NonIncreasing(InsertByScore(c, sorted))
  {
    if sorted != [] && sorted[0].score > c.score {
      var rest := InsertByScore(c, sorted[1..]);
      InsertSorted(c, sorted[1..]);
      var r := [sorted[0]] + rest;
      forall j | 0 < j < |r|
        ensures r[0].score >= r[j].score
      {
        assert r[j] in multiset(rest);
        assert r[j] in multiset(sorted[1..]) || r[j] == c;
        if r[j] != c {
          var k :| 0 <= k < |sorted[1..]| && sorted[1..][k] == r[j];
          assert sorted[k + 1] == r[j];
        }
      }
    }
  }

  /** `list.sort(key=score, reverse=True)`: the candidates by score, highest
      first, equal scores in their original order. */
  function SortByScore(cs: seq<Candidate>): (r: seq<Candidate>)
    ensures multiset(r) == multiset(cs)
    ensures NonIncreasing(r)
  {
    if cs == [] then []
    else
      assert cs == [cs[0]] + cs[1..];
      var rest := SortByScore(cs[1..]);
      InsertSorted(cs[0], rest);
      InsertByScore(cs[0], rest)
  }

  /** The entries with a given score, in order. */
  function WithScore(cs: seq<Candidate>, score: int): seq<Candidate> {
    if cs == [] then []
    else (if cs[0].score == score then [cs[0]] else []) + WithScore(cs[1..], score)
  }

  /** The first `n` entries (`cs[:n]`). */
  function Top(cs: seq<Candidate>, n: nat): (r: seq<Candidate>)
    ensures |r| <= n && r <= cs
    ensures |r| == if |cs| < n then |cs| else n
  {
    if |cs| <= n then cs else cs[..n]
  }

  /** The ranked result for a mission: every pilot assessed, sorted, cut to five. */
  function Ranked(m: Mission, rows: seq<Pilot>): seq<Candidate> {
    Top(SortByScore(AssessAll(m, rows)), TopCount)
  }

  // ---------------------------------------------------------------- lemmas

  /** Inserting keeps the relative order of every score class. */
  lemma {:induction false} InsertStable(c: Candidate, sorted: seq<Candidate>, score: int)
    ensures WithScore(InsertByScore(c, sorted), score) ==
              (if c.score == score then [c] else []) + WithScore(sorted, score)
  {
    if sorted == [] || sorted[0].score <= c.score {
      assert ([c] + sorted)[1..] == sorted;
    } else {
      var rest := InsertByScore(c, sorted[1..]);
      InsertStable(c, sorted[1..], score);
      assert ([sorted[0]] + rest)[1..] == rest;
    }
  }

  /** The sort is stable: for every score, the candidates with that score come
      out in the order they went in. */
  lemma {:induction false} SortStable(cs: seq<Candidate>, score: int)
    ensures WithScore(SortByScore(cs), score) == WithScore(cs, score)
  {
    if cs != [] {
      SortStable(cs[1..], score);
      InsertStable(cs[0], SortByScore(cs[1..]), score);
    }
  }

  /** The issue list is empty exactly for an eligible pilot with every required
      skill, and names the missing certifications whenever there are any. */
  lemma IssuesMeaning(m: Mission, p: Pilot)
    ensures Assess(m, p).issues == [] <==> Assess(m, p).eligible && SkillsMissing(m, p) == []
    ensures CertsMissing(m, p) != [] ==> Assess(m, p).issues[0] == MissingCerts(CertsMissing(m, p))
    ensures Assess(m, p).score == 120 <==> Assess(m, p).issues == [] && p.status == StatusAvailable
  {
  }

  /** An ineligible pilot scores at most 60 and a pilot without issues at least
      100, so every issue-free pilot outranks every ineligible one. */
  lemma ScoreSeparatesEligibility(m: Mission, p: Pilot)
    ensures !Assess(m, p).eligible ==> Assess(m, p).score <= 60
    ensures Assess(m, p).issues == [] ==> Assess(m, p).score >= 100
  {
  }

  /** Leave costs exactly 120 points against the same pilot Available, and makes it ineligible. */
  lemma OnLeavePenalty(m: Mission, p: Pilot)
    ensures Assess(m, p.(status := StatusOnLeave)).score == Assess(m, p.(status := StatusAvailable)).score - 120
    ensures !Assess(m, p.(status := StatusOnLeave)).eligible
  {
  }

  /** Every missing skill costs ten more points. */
  lemma SkillPenalty(m: Mission, p: Pilot, q: Pilot)
    requires p.(skills := q.skills) == q
    requires SkillsMissing(m, p) != [] && SkillsMissing(m, q) != []
    ensures Assess(m, p).score - Assess(m, q).score == 10 * (|SkillsMissing(m, q)| - |SkillsMissing(m, p)|)
  {
  }

  /** A sorted permutation of the assessments, cut to its first `n` entries, holds only assessments. */
  lemma {:induction false} TopOfSortedFromAll(all: seq<Candidate>, n: nat)
    ensures forall c :: c in Top(SortByScore(all), n) ==> c in all
  {
    var sorted := SortByScore(all);
    forall c | c in Top(sorted, n)
      ensures c in all
    {
      assert c in sorted;
      assert c in multiset(sorted);
      assert c in multiset(all);
    }
  }

  /** The ranked list has at most five entries, in non-increasing score order,
      all of them assessments of pilots in the table. */
  lemma RankedShape(m: Mission, rows: seq<Pilot>)
    ensures |Ranked(m, rows)| == if |rows| < TopCount then |rows| else TopCount
    ensures NonIncreasing(Ranked(m, rows))
    ensures forall c :: c in Ranked(m, rows) ==> c in AssessAll(m, rows)
  {
    var all := AssessAll(m, rows);
    var sorted := SortByScore(all);
    assert |sorted| == |multiset(sorted)| == |multiset(all)| == |all|;
    var top := Top(sorted, TopCount);
    forall i, j | 0 <= i < j < |top|
      ensures top[i].score >= top[j].score
    {
      assert top[i] == sorted[i] && top[j] == sorted[j];
    }
    TopOfSortedFromAll(all, TopCount);
  }

  /** Nobody left out of the ranked list outscores anybody in it. */
  lemma RankedKeepsBest(m: Mission, rows: seq<Pilot>)
    ensures forall c, d :: c in Ranked(m, rows) && d in AssessAll(m, rows) && d !in Ranked(m, rows) ==> d.score <= c.score
  {
    var all := AssessAll(m, rows);
    KeepsBest(all, TopCount);
  }

  lemma KeepsBest(all: seq<Candidate>, n: nat)
    ensures forall c, d :: c in Top(SortByScore(all), n) && d in all && d !in Top(SortByScore(all), n) ==> d.score <= c.score
  {
    var sorted := SortByScore(all);
    var top := Top(sorted, n);
    forall c, d | c in top && d in all && d !in top
      ensures d.score <= c.score
    {
      assert d in multiset(all);
      assert d in multiset(sorted);
      assert d in sorted;
      var i :| 0 <= i < |top| && top[i] == c;
      var j :| 0 <= j < |sorted| && sorted[j] == d;
      assert top[i] == sorted[i];
      assert forall k :: 0 <= k < |top| ==> sorted[k] == top[k];
      assert j >= |top|;
    }
  }

  /** Candidates with equal scores are listed in pilot-table order. */
  lemma RankedTiesInTableOrder(m: Mission, rows: seq<Pilot>, score: int)
    ensures WithScore(SortByScore(AssessAll(m, rows)), score) == WithScore(AssessAll(m, rows), score)
  {
    SortStable(AssessAll(m, rows), score);
  }
}
