/** Tag fields: the comma-separated skill, certification and capability cells
    (`Logic.parse_skills` and the "missing tags" comprehensions of logic.py). */
module Tags {
  import opened Text
  import opened Records

  /** A cell that is empty once stripped. */
  predicate IsBlank(field: string) {
    Strip(field) == []
  }

  /** `parse_skills`: a blank cell has no tags; otherwise every comma-separated
      piece, stripped and lower-cased, in order (empty pieces included). */
  function ParseSkills(field: string): (tags: seq<string>)
    ensures IsBlank(field) ==> tags == []
    ensures !IsBlank(field) ==> |tags| == Occurrences(field, ',') + 1
  {
    if IsBlank(field) then []
    else
      var pieces := Split(field, ',');
      seq(|pieces|, i requires 0 <= i < |pieces| => Lower(Strip(pieces[i])))
  }

  /** What a parsed tag looks like: no surrounding whitespace, no upper case, no comma. */
  predicate Normalised(tag: string) {
    Strip(tag) == tag && Lower(tag) == tag && ',' !in tag
  }

  /** `[c for c in required if c not in held]`. */
  function MissingTags(required: seq<string>, held: seq<string>): (missing: seq<string>)
    ensures |missing| <= |required|
  {
    if required == [] then []
    else
      var rest := MissingTags(required[1..], held);
      if required[0] in held then rest else [required[0]] + rest
  }

  /** The missing tags are exactly the required tags not held, so none are
      missing exactly when every required tag is held. */
  lemma {:induction false} MissingTagsMeaning(required: seq<string>, held: seq<string>)
    ensures forall t :: t in MissingTags(required, held) <==> t in required && t !in held
    ensures MissingTags(required, held) == [] <==> forall t :: t in required ==> t in held
  {
    if required != [] {
      MissingTagsMeaning(required[1..], held);
      assert forall t :: t in required <==> t == required[0] || t in required[1..];
      var missing := MissingTags(required, held);
      if missing != [] {
        assert missing[0] in missing;
      }
    }
  }

  /** Some tag is missing exactly when some required tag is not held. */
  lemma MissingTagsNonEmpty(required: seq<string>, held: seq<string>)
    ensures MissingTags(required, held) != [] <==> exists c :: c in required && c !in held
  {
    MissingTagsMeaning(required, held);
    var missing := MissingTags(required, held);
    if missing != [] {
      assert missing[0] in missing;
    }
  }

  /** The mission's required certifications the pilot does not hold. */
  function CertsMissing(m: Mission, p: Pilot): seq<string> {
    MissingTags(ParseSkills(m.requiredCerts), ParseSkills(p.certifications))
  }

  /** The mission's required skills the pilot does not have. */
  function SkillsMissing(m: Mission, p: Pilot): seq<string> {
    MissingTags(ParseSkills(m.requiredSkills), ParseSkills(p.skills))
  }

  // ---------------------------------------------------------------- lemmas

  lemma LowerKeepsComma(s: string)
    requires ',' !in s
    ensures ',' !in Lower(s)
  {
    forall i | 0 <= i < |s|
      ensures Lower(s)[i] != ','
    {
      assert s[i] != ',';
    }
  }

  /** Every parsed tag is normalised. */
  lemma ParsedTagsAreNormalised(field: string)
    ensures forall t :: t in ParseSkills(field) ==> Normalised(t)
  {
    if !IsBlank(field) {
      var pieces := Split(field, ',');
      forall i | 0 <= i < |pieces|
        ensures Normalised(Lower(Strip(pieces[i])))
      {
        var p := pieces[i];
        StripLower(Strip(p));
        StripIdempotent(p);
        LowerIdempotent(Strip(p));
        assert ',' !in p;
        StripMeaning(p);
        assert ',' !in Strip(p);
        LowerKeepsComma(Strip(p));
      }
    }
  }

  /** Tag comparison is case-insensitive: lower-casing the cell first changes nothing. */
  lemma ParseSkillsIgnoresCase(field: string)
    ensures ParseSkills(Lower(field)) == ParseSkills(field)
  {
    StripLower(field);
    assert IsBlank(Lower(field)) == IsBlank(field);
    if !IsBlank(field) {
      var pieces := Split(field, ',');
      var lowered := Split(Lower(field), ',');
      SplitLower(field, ',');
      forall i | 0 <= i < |pieces|
        ensures Lower(Strip(lowered[i])) == Lower(Strip(pieces[i]))
      {
        LowerEachAt(pieces, i);
        NormaliseLowered(pieces[i]);
      }
    }
  }

  lemma NormaliseLowered(piece: string)
    ensures Lower(Strip(Lower(piece))) == Lower(Strip(piece))
  {
    StripLower(piece);
    LowerIdempotent(Strip(piece));
  }

  /** Writing normalised tags back as a comma-separated cell and parsing it gives
      the same tags. The one list this loses is a single empty tag, whose cell is
      blank and so parses to no tags. */
  lemma ParseSkillsOfJoin(tags: seq<string>)
    requires tags != [[]]
    requires forall t :: t in tags ==> Normalised(t)
    ensures ParseSkills(Join(tags, ',')) == tags
  {
    var field := Join(tags, ',');
    if tags == [] {
      StripEmpty(field);
    } else {
      SplitJoin(tags, ',');
      JoinNotBlank(tags);
      var parsed := ParseSkills(field);
      forall i | 0 <= i < |tags|
        ensures parsed[i] == tags[i]
      {
        assert tags[i] in tags;
      }
    }
  }

  /** The cell of a join is blank only for a single blank tag. */
  lemma JoinNotBlank(tags: seq<string>)
    requires tags != [] && tags != [[]]
    requires forall t :: t in tags ==> Normalised(t)
    ensures !IsBlank(Join(tags, ','))
  {
    var field := Join(tags, ',');
    StripEmpty(field);
    if |tags| == 1 {
      assert tags[0] in tags;
      assert field == tags[0] != [];
      StripMeaning(tags[0]);
      assert !IsSpace(field[0]);
    } else {
      assert field == tags[0] + [','] + Join(tags[1..], ',');
      assert field[|tags[0]|] == ',';
    }
  }

}
