/** The few Python string operations the scheduling engine relies on:
    `str.strip()`, `str.lower()`, `str.split(',')` and substring search.
    Strings are sequences of Unicode scalar values. */
module Text {

  /** Python's `str.isspace` for a single character: the characters that
      `strip()` removes when called without arguments. */
  predicate IsSpace(c: char) {
    || c == ' ' || c == '\t' || c == '\n' || c == '\r' || c == '\U{0B}' || c == '\U{0C}'
    || ('\U{1C}' <= c <= '\U{1F}') || c == '\U{85}' || c == '\U{A0}' || c == '\U{1680}'
    || ('\U{2000}' <= c <= '\U{200A}') || c == '\U{2028}' || c == '\U{2029}'
    || c == '\U{202F}' || c == '\U{205F}' || c == '\U{3000}'
  }

  predicate IsUpper(c: char) {
    'A' <= c <= 'Z'
  }

  function LowerChar(c: char): (r: char)
    ensures !IsUpper(r)
    ensures IsSpace(r) == IsSpace(c)
    ensures r == c || IsUpper(c)
  {
    if IsUpper(c) then (c as int + 32) as char else c
  }

  /** `str.lower()`, restricted to the ASCII letters. */
  function Lower(s: string): (r: string)
    ensures |r| == |s|
    ensures forall i :: 0 <= i < |r| ==> !IsUpper(r[i])
  {
    seq(|s|, i requires 0 <= i < |s| => LowerChar(s[i]))
  }

  /** `str.lstrip()`: the longest suffix of `s` that does not start with whitespace. */
  function StripLeft(s: string): string {
    if s != [] && IsSpace(s[0]) then StripLeft(s[1..]) else s
  }

  /** `str.rstrip()`: the longest prefix of `s` that does not end with whitespace. */
  function StripRight(s: string): string {
    if s != [] && IsSpace(s[|s| - 1]) then StripRight(s[..|s| - 1]) else s
  }

  /** `str.strip()`: `s` with the whitespace at both ends removed, and nothing else. */
  function Strip(s: string): string {
    StripRight(StripLeft(s))
  }

  /** Number of occurrences of `c` in `s`. */
  function Occurrences(s: string, c: char): nat {
    if s == [] then 0 else (if s[0] == c then 1 else 0) + Occurrences(s[1..], c)
  }

  /** `s.split(sep)`: the pieces between the separators, empty pieces included. */
  function Split(s: string, sep: char): (parts: seq<string>)
    ensures |parts| == Occurrences(s, sep) + 1
    ensures forall p :: p in parts ==> sep !in p
  {
    if s == [] then [[]]
    else
      var rest := Split(s[1..], sep);
      if s[0] == sep then [[]] + rest else [[s[0]] + rest[0]] + rest[1..]
  }

  /** `sep.join(parts)`: the inverse of `Split`. No parts join to the empty string. */
  function Join(parts: seq<string>, sep: char): string {
    if parts == [] then []
    else if |parts| == 1 then parts[0]
    else parts[0] + [sep] + Join(parts[1..], sep)
  }

  /** `needle` occurs in `hay` starting at index `i`. */
  predicate OccursAt(hay: string, needle: string, i: nat) {
    i + |needle| <= |hay| && hay[i..i + |needle|] == needle
  }

  /** `needle in hay` for strings. */
  function Contains(hay: string, needle: string): bool {
    if needle <= hay then true
    else if hay == [] then false
    else Contains(hay[1..], needle)
  }

  // ---------------------------------------------------------------- lemmas

  /** `Contains` holds exactly when the needle occurs somewhere in the haystack. */
  lemma {:induction false} ContainsIffOccurs(hay: string, needle: string)
    ensures Contains(hay, needle) <==> exists i: nat :: OccursAt(hay, needle, i)
  {
    if needle <= hay {
      assert OccursAt(hay, needle, 0);
    } else if hay != [] {
      ContainsIffOccurs(hay[1..], needle);
      assert forall i: nat :: OccursAt(hay[1..], needle, i) <==> OccursAt(hay, needle, i + 1);
      assert !OccursAt(hay, needle, 0);
      assert forall i: nat :: OccursAt(hay, needle, i) ==> i == 0 || OccursAt(hay[1..], needle, i - 1);
    }
  }

  /** `StripLeft` removes the leading whitespace, and nothing else. */
  lemma {:induction false} StripLeftMeaning(s: string)
    ensures |StripLeft(s)| <= |s| && StripLeft(s) == s[|s| - |StripLeft(s)|..]
    ensures forall i :: 0 <= i < |s| - |StripLeft(s)| ==> IsSpace(s[i])
    ensures StripLeft(s) != [] ==> !IsSpace(StripLeft(s)[0])
  {
    if s != [] && IsSpace(s[0]) {
      var r := StripLeft(s[1..]);
      assert StripLeft(s) == r;
      StripLeftMeaning(s[1..]);
      assert s[1..][|s| - 1 - |r|..] == s[|s| - |r|..];
      forall i | 1 <= i < |s| - |r|
        ensures IsSpace(s[i])
      {
        assert s[i] == s[1..][i - 1];
      }
    }
  }

  /** `StripRight` removes the trailing whitespace, and nothing else. */
  lemma {:induction false} StripRightMeaning(s: string)
    ensures |StripRight(s)| <= |s| && StripRight(s) == s[..|StripRight(s)|]
    ensures forall i :: |StripRight(s)| <= i < |s| ==> IsSpace(s[i])
    ensures StripRight(s) != [] ==> !IsSpace(StripRight(s)[|StripRight(s)| - 1])
  {
    if s != [] && IsSpace(s[|s| - 1]) {
      var r := StripRight(s[..|s| - 1]);
      assert StripRight(s) == r;
      StripRightMeaning(s[..|s| - 1]);
      assert s[..|s| - 1][..|r|] == s[..|r|];
      forall i | |r| <= i < |s| - 1
        ensures IsSpace(s[i])
      {
        assert s[i] == s[..|s| - 1][i];
      }
    }
  }

  /** `Strip` removes whitespace at both ends, and nothing else. */
  lemma StripMeaning(s: string)
    ensures exists i, j :: 0 <= i <= j <= |s| && Strip(s) == s[i..j]
              && (forall k :: 0 <= k < i ==> IsSpace(s[k]))
              && (forall k :: j <= k < |s| ==> IsSpace(s[k]))
    ensures Strip(s) != [] ==> !IsSpace(Strip(s)[0]) && !IsSpace(Strip(s)[|Strip(s)| - 1])
  {
    var left := StripLeft(s);
    var r := StripRight(left);
    StripLeftMeaning(s);
    StripRightMeaning(left);
    assert r == s[|s| - |left|..|s| - |left| + |r|];
  }

  /** Joining the pieces of a split gives back the original string. */
  lemma {:induction false} JoinSplit(s: string, sep: char)
    ensures Join(Split(s, sep), sep) == s
  {
    if s != [] {
      var rest := Split(s[1..], sep);
      JoinSplit(s[1..], sep);
      if s[0] == sep {
        assert Split(s, sep) == [[]] + rest;
      } else {
        var parts := Split(s, sep);
        assert parts == [[s[0]] + rest[0]] + rest[1..];
        if |rest| == 1 {
          assert Join(rest, sep) == rest[0];
        } else {
          assert Join(rest, sep) == rest[0] + [sep] + Join(rest[1..], sep);
          assert parts[1..] == rest[1..];
        }
      }
    }
  }

  /** A piece without separators splits into itself. */
  lemma {:induction false} SplitPlain(s: string, sep: char)
    requires sep !in s
    ensures Split(s, sep) == [s]
  {
    if s != [] {
      SplitPlain(s[1..], sep);
      assert [s[0]] + s[1..] == s;
    }
  }

  /** Splitting `x + sep + y` separates `x` from the pieces of `y`. */
  lemma {:induction false} SplitAtSeparator(x: string, y: string, sep: char)
    requires sep !in x
    ensures Split(x + [sep] + y, sep) == [x] + Split(y, sep)
  {
    if x == [] {
      assert [sep] + y == x + [sep] + y;
      assert ([sep] + y)[1..] == y;
    } else {
      var s := x + [sep] + y;
      assert s[1..] == x[1..] + [sep] + y;
      SplitAtSeparator(x[1..], y, sep);
      assert [x[0]] + x[1..] == x;
    }
  }

  /** Splitting a join of separator-free pieces gives back the pieces. */
  lemma {:induction false} SplitJoin(parts: seq<string>, sep: char)
    requires parts != []
    requires forall p :: p in parts ==> sep !in p
    ensures Split(Join(parts, sep), sep) == parts
  {
    if |parts| == 1 {
      SplitPlain(parts[0], sep);
    } else {
      SplitJoin(parts[1..], sep);
      SplitAtSeparator(parts[0], Join(parts[1..], sep), sep);
      assert [parts[0]] + parts[1..] == parts;
    }
  }

  lemma LowerIdempotent(s: string)
    ensures Lower(Lower(s)) == Lower(s)
  {
  }

  /** Stripping and lower-casing commute: no whitespace character is an upper-case letter. */
  lemma {:induction false} StripLower(s: string)
    ensures Strip(Lower(s)) == Lower(Strip(s))
  {
    StripLeftLower(s);
    StripRightLower(StripLeft(s));
  }

  lemma {:induction false} StripLeftLower(s: string)
    ensures StripLeft(Lower(s)) == Lower(StripLeft(s))
  {
    if s != [] && IsSpace(s[0]) {
      assert Lower(s)[1..] == Lower(s[1..]);
      StripLeftLower(s[1..]);
    }
  }

  lemma {:induction false} StripRightLower(s: string)
    ensures StripRight(Lower(s)) == Lower(StripRight(s))
  {
    if s != [] && IsSpace(s[|s| - 1]) {
      assert Lower(s)[..|s| - 1] == Lower(s[..|s| - 1]);
      StripRightLower(s[..|s| - 1]);
    }
  }

  /** A string strips to nothing exactly when it is all whitespace. */
  lemma StripEmpty(s: string)
    ensures Strip(s) == [] <==> forall k :: 0 <= k < |s| ==> IsSpace(s[k])
  {
    StripMeaning(s);
  }

  /** Stripping twice is stripping once. */
  lemma StripIdempotent(s: string)
    ensures Strip(Strip(s)) == Strip(s)
  {
    var r := Strip(s);
    StripMeaning(s);
    if r != [] {
      assert StripLeft(r) == r;
      assert StripRight(r) == r;
    }
  }

  /** Every piece lower-cased. */
  function LowerEach(parts: seq<string>): (r: seq<string>)
    ensures |r| == |parts|
  {
    if parts == [] then [] else [Lower(parts[0])] + LowerEach(parts[1..])
  }

  /** Splitting commutes with lower-casing, because the separator is not a letter. */
  lemma {:induction false} SplitLower(s: string, sep: char)
    requires !IsUpper(sep) && !('a' <= sep <= 'z')
    ensures Split(Lower(s), sep) == LowerEach(Split(s, sep))
  {
    if s != [] {
      var ls := Lower(s);
      assert ls[1..] == Lower(s[1..]);
      assert ls[0] == LowerChar(s[0]);
      SplitLower(s[1..], sep);
      var rest := Split(s[1..], sep);
      if s[0] == sep {
        assert Split(ls, sep) == [[]] + Split(ls[1..], sep);
        assert Split(s, sep) == [[]] + rest;
        assert ([[]] + rest)[1..] == rest;
      } else {
        assert Split(ls, sep) == [[ls[0]] + Split(ls[1..], sep)[0]] + Split(ls[1..], sep)[1..];
        assert Split(s, sep) == [[s[0]] + rest[0]] + rest[1..];
        assert Lower([s[0]] + rest[0]) == [ls[0]] + Lower(rest[0]);
        assert LowerEach(rest) == [Lower(rest[0])] + LowerEach(rest[1..]);
        assert ([[s[0]] + rest[0]] + rest[1..])[1..] == rest[1..];
      }
    } else {
      assert Lower(s) == [];
    }
  }

  /** Lower-casing each piece keeps each piece's place. */
  lemma {:induction false} LowerEachAt(parts: seq<string>, i: nat)
    requires i < |parts|
    ensures LowerEach(parts)[i] == Lower(parts[i])
  {
    if i > 0 {
      LowerEachAt(parts[1..], i - 1);
    }
  }


}
