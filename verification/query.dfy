/** The record filters behind `query_pilots`, `query_drones` and `query_missions`:
    a list of (column, value) filters applied one after another, an exact
    case-insensitive match on ordinary columns and a substring match on tag
    columns. */
module Query {
  import opened Text
  import opened Tags

  /** One `{column: value}` entry of the filter dictionary. */
  datatype Filter = Filter(column: string, value: string)

  /** How the filters see a table: the cell under a column, the table's
      columns, and the tag columns matched by substring. */
  datatype Schema<-T> = Schema(cell: (T, string) -> string, columns: set<string>, tagColumns: set<string>)

  /** The value a filter looks for: lower-cased, then stripped. */
  function Needle(f: Filter): string {
    Strip(Lower(f.value))
  }

  /** A filter on an unknown column, or with a blank value, is skipped. */
  predicate Ignored<T(!new)>(sc: Schema<T>, f: Filter) {
    f.column !in sc.columns || Needle(f) == []
  }

  /** Whether `row` survives the filter `f`. */
  predicate Passes<T(!new)>(sc: Schema<T>, f: Filter, row: T) {
    || Ignored(sc, f)
    || (if f.column in sc.tagColumns
        then Contains(Lower(sc.cell(row, f.column)), Needle(f))
        else Lower(sc.cell(row, f.column)) == Needle(f))
  }

  predicate PassesAll<T(!new)>(sc: Schema<T>, filters: seq<Filter>, row: T) {
    forall f :: f in filters ==> Passes(sc, f, row)
  }

  /** One filter step, `df[mask]`: the rows that survive `f`, in order. */
  function KeepMatching<T(!new)>(sc: Schema<T>, rows: seq<T>, f: Filter): (r: seq<T>)
    ensures |r| <= |rows|
  {
    if rows == [] then []
    else
      var last := rows[|rows| - 1];
      KeepMatching(sc, rows[..|rows| - 1], f) + if Passes(sc, f, last) then [last] else []
  }

  /** The rows that survive every filter, in their original order. */
  function Select<T(!new)>(sc: Schema<T>, rows: seq<T>, filters: seq<Filter>): (r: seq<T>)
    ensures |r| <= |rows|
  {
    if rows == [] then []
    else
      var last := rows[|rows| - 1];
      Select(sc, rows[..|rows| - 1], filters) + if PassesAll(sc, filters, last) then [last] else []
  }

  /** `for key, value in filters.items(): df = df[mask]`. */
  method Narrow<T(!new)>(sc: Schema<T>, rows: seq<T>, filters: seq<Filter>) returns (r: seq<T>)
    ensures r == Select(sc, rows, filters)
  {
    r := rows;
    SelectNone(sc, rows);
    var k := 0;
    assert filters[..k] == [];
    while k < |filters|
      invariant 0 <= k <= |filters|
      invariant r == Select(sc, rows, filters[..k])
    {
      SelectOneMore(sc, rows, filters[..k], filters[k]);
      assert filters[..k + 1] == filters[..k] + [filters[k]];
      r := KeepMatching(sc, r, filters[k]);
      k := k + 1;
    }
    assert filters[..k] == filters;
  }

  // ---------------------------------------------------------------- lemmas

  /** The selection holds exactly the rows that pass every filter. */
  lemma {:induction false} SelectMembers<T(!new)>(sc: Schema<T>, rows: seq<T>, filters: seq<Filter>)
    ensures forall x :: x in Select(sc, rows, filters) <==> x in rows && PassesAll(sc, filters, x)
  {
    if rows != [] {
      var init := rows[..|rows| - 1];
      SelectMembers(sc, init, filters);
      assert rows == init + [rows[|rows| - 1]];
    }
  }

  /** One filter step keeps exactly the rows that pass the filter. */
  lemma {:induction false} KeepMatchingMembers<T(!new)>(sc: Schema<T>, rows: seq<T>, f: Filter)
    ensures forall x :: x in KeepMatching(sc, rows, f) <==> x in rows && Passes(sc, f, x)
  {
    if rows != [] {
      var init := rows[..|rows| - 1];
      KeepMatchingMembers(sc, init, f);
      assert rows == init + [rows[|rows| - 1]];
    }
  }

  /** With no filters, every row is kept. */
  lemma {:induction false} SelectNone<T(!new)>(sc: Schema<T>, rows: seq<T>)
    ensures Select(sc, rows, []) == rows
  {
    if rows != [] {
      SelectNone(sc, rows[..|rows| - 1]);
    }
  }

  /** Applying one more filter to the selection is selecting with it added. */
  lemma {:induction false} SelectOneMore<T(!new)>(sc: Schema<T>, rows: seq<T>, filters: seq<Filter>, f: Filter)
    ensures KeepMatching(sc, Select(sc, rows, filters), f) == Select(sc, rows, filters + [f])
  {
    if rows != [] {
      var init := rows[..|rows| - 1];
      var last := rows[|rows| - 1];
      SelectOneMore(sc, init, filters, f);
      assert PassesAll(sc, filters + [f], last) <==> PassesAll(sc, filters, last) && Passes(sc, f, last);
      KeepMatchingAppend(sc, Select(sc, init, filters), if PassesAll(sc, filters, last) then [last] else [], f);
    }
  }

  lemma {:induction false} KeepMatchingAppend<T(!new)>(sc: Schema<T>, a: seq<T>, b: seq<T>, f: Filter)
    ensures KeepMatching(sc, a + b, f) == KeepMatching(sc, a, f) + KeepMatching(sc, b, f)
  {
    if b != [] {
      var ab := a + b;
      assert ab[..|ab| - 1] == a + b[..|b| - 1];
      assert ab[|ab| - 1] == b[|b| - 1];
      KeepMatchingAppend(sc, a, b[..|b| - 1], f);
    } else {
      assert a + b == a;
    }
  }

  /** The result depends only on which filters are given, not on their order
      or repetition. */
  lemma {:induction false} SelectOrderIrrelevant<T(!new)>(sc: Schema<T>, rows: seq<T>, filters: seq<Filter>, others: seq<Filter>)
    requires forall f :: f in filters <==> f in others
    ensures Select(sc, rows, filters) == Select(sc, rows, others)
  {
    if rows != [] {
      SelectOrderIrrelevant(sc, rows[..|rows| - 1], filters, others);
    }
  }

  /** Unknown columns and blank values change nothing. */
  lemma {:induction false} IgnoredFilterKeepsAll<T(!new)>(sc: Schema<T>, rows: seq<T>, filters: seq<Filter>, f: Filter)
    requires Ignored(sc, f)
    ensures Select(sc, rows, filters + [f]) == Select(sc, rows, filters)
  {
    if rows != [] {
      var last := rows[|rows| - 1];
      IgnoredFilterKeepsAll(sc, rows[..|rows| - 1], filters, f);
      assert PassesAll(sc, filters + [f], last) <==> PassesAll(sc, filters, last);
    }
  }

  /** The filter value is compared without regard to case. */
  lemma FilterValueIgnoresCase<T(!new)>(sc: Schema<T>, f: Filter, row: T)
    ensures Passes(sc, f.(value := Lower(f.value)), row) == Passes(sc, f, row)
  {
    LowerIdempotent(f.value);
  }

  /** On an ordinary column a non-blank filter keeps exactly the rows whose
      cell, lower-cased, equals the lower-cased, stripped value. */
  lemma ExactColumn<T(!new)>(sc: Schema<T>, f: Filter, row: T)
    requires f.column in sc.columns && f.column !in sc.tagColumns && Needle(f) != []
    ensures Passes(sc, f, row) <==> Lower(sc.cell(row, f.column)) == Strip(Lower(f.value))
  {
  }

  /** A filter naming one of the tags a record lists in a tag column keeps that record. */
  lemma ListedTagIsFound<T(!new)>(sc: Schema<T>, f: Filter, row: T)
    requires f.column in sc.tagColumns && f.column in sc.columns
    requires Needle(f) in ParseSkills(sc.cell(row, f.column))
    ensures Passes(sc, f, row)
  {
    TagOccursInField(sc.cell(row, f.column), Needle(f));
  }

  /** Every parsed tag of a field occurs in the lower-cased field. */
  lemma TagOccursInField(field: string, tag: string)
    requires tag in ParseSkills(field)
    ensures Contains(Lower(field), tag)
  {
    var pieces := Split(field, ',');
    var tags := ParseSkills(field);
    var i :| 0 <= i < |tags| && tags[i] == tag;
    var piece := pieces[i];
    assert tag == Lower(Strip(piece));
    var k := PieceOccurs(field, ',', i);
    var a := StripOccurs(piece);
    OccursWithin(field, piece, Strip(piece), k, a);
    LowerOccurs(field, Strip(piece), k + a);
    ContainsIffOccurs(Lower(field), tag);
  }

  /** Where the `i`th piece of a split starts in the split string. */
  lemma {:induction false} PieceOccurs(s: string, sep: char, i: nat) returns (k: nat)
    requires i < |Split(s, sep)|
    ensures OccursAt(s, Split(s, sep)[i], k)
  {
    if s == [] {
      k := 0;
    } else {
      var rest := Split(s[1..], sep);
      if s[0] == sep {
        if i == 0 {
          k := 0;
        } else {
          var k' := PieceOccurs(s[1..], sep, i - 1);
          k := k' + 1;
          assert s[k..k + |rest[i - 1]|] == s[1..][k'..k' + |rest[i - 1]|];
        }
      } else {
        if i == 0 {
          k := 0;
          FirstPieceIsPrefix(s[1..], sep);
          assert s[..1 + |rest[0]|] == [s[0]] + s[1..][..|rest[0]|];
        } else {
          var k' := PieceOccurs(s[1..], sep, i);
          k := k' + 1;
          assert s[k..k + |rest[i]|] == s[1..][k'..k' + |rest[i]|];
        }
      }
    }
  }

  /** The first piece of a split is a prefix of the string. */
  lemma {:induction false} FirstPieceIsPrefix(s: string, sep: char)
    ensures Split(s, sep)[0] <= s
  {
    if s != [] && s[0] != sep {
      FirstPieceIsPrefix(s[1..], sep);
      assert s == [s[0]] + s[1..];
    }
  }

  /** Where the stripped text starts inside the unstripped one. */
  lemma StripOccurs(s: string) returns (a: nat)
    ensures OccursAt(s, Strip(s), a)
  {
    StripMeaning(s);
    var i, j :| 0 <= i <= j <= |s| && Strip(s) == s[i..j];
    a := i;
  }

  /** An occurrence of an occurrence is an occurrence. */
  lemma OccursWithin(hay: string, mid: string, needle: string, k: nat, a: nat)
    requires OccursAt(hay, mid, k) && OccursAt(mid, needle, a)
    ensures OccursAt(hay, needle, k + a)
  {
    var n := |needle|;
    forall t | 0 <= t < n
      ensures hay[k + a..k + a + n][t] == needle[t]
    {
      assert needle[t] == mid[a..a + n][t] == mid[a + t];
      assert mid[a + t] == hay[k..k + |mid|][a + t] == hay[k + a + t];
    }
  }

  /** Lower-casing keeps every occurrence where it is. */
  lemma LowerOccurs(hay: string, needle: string, k: nat)
    requires OccursAt(hay, needle, k)
    ensures OccursAt(Lower(hay), Lower(needle), k)
  {
    assert Lower(hay)[k..k + |needle|] == Lower(hay[k..k + |needle|]);
  }
}
