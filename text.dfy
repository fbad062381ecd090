/**
 * The string primitives the components call: `toLowerCase`, `trim`,
 * `includes`, `startsWith` and the `\s` character class, restricted to
 * ASCII (no Unicode case mapping or Unicode white space).
 */
module Text {
  import opened Js

  /** The ASCII members of JavaScript's `\s` and of what `trim` removes. */
  predicate IsSpace(c: char) {
    c == ' ' || c == '\t' || c == '\n' || c == '\r' || c == '\U{000B}' || c == '\U{000C}'
  }

  predicate AllSpace(s: string) {
    forall i :: 0 <= i < |s| ==> IsSpace(s[i])
  }

  predicate IsUpper(c: char) {
    'A' <= c <= 'Z'
  }

  function LowerChar(c: char): char {
    if IsUpper(c) then (c as int + 32) as char else c
  }

  /** `s.toLowerCase()` on ASCII letters. */
  function Lower(s: string): (r: string)
    ensures |r| == |s|
    ensures forall i :: 0 <= i < |s| ==> r[i] == LowerChar(s[i])
    ensures forall i :: 0 <= i < |r| ==> !IsUpper(r[i])
  {
    if s == [] then [] else [LowerChar(s[0])] + Lower(s[1..])
  }

  /** Lower-casing twice is lower-casing once. */
  lemma LowerIdempotent(s: string)
    ensures Lower(Lower(s)) == Lower(s)
  {
  }

  function TrimStart(s: string): (r: string)
    ensures |r| <= |s| && r == s[|s| - |r|..]
    ensures s != [] && IsSpace(s[0]) ==> |r| < |s|
    ensures r != [] ==> !IsSpace(r[0])
    ensures r == [] ==> AllSpace(s)
  {
    if s != [] && IsSpace(s[0]) then TrimStart(s[1..]) else s
  }

  function TrimEnd(s: string): (r: string)
    ensures |r| <= |s| && r == s[..|r|]
    ensures r != [] ==> !IsSpace(r[|r| - 1])
    ensures r == [] ==> AllSpace(s)
    ensures AllSpace(s) ==> r == []
  {
    if s != [] && IsSpace(s[|s| - 1]) then TrimEnd(s[..|s| - 1]) else s
  }

  /** `s.trim()`: the text between the leading and the trailing white space. */
  function Trim(s: string): (r: string)
    ensures |r| <= |s|
    ensures r != [] ==> !IsSpace(r[0]) && !IsSpace(r[|r| - 1])
  {
    TrimEnd(TrimStart(s))
  }

  /** `!s.trim()` holds exactly for strings made only of white space. */
  lemma {:induction false} TrimEmptyIffAllSpace(s: string)
    ensures Trim(s) == "" <==> AllSpace(s)
  {
    var t := TrimStart(s);
    if AllSpace(s) {
      TrimStartAllSpace(s);
    }
    if Trim(s) == "" {
      assert AllSpace(t);
      assert t == [];
    }
  }

  lemma {:induction false} TrimStartAllSpace(s: string)
    requires AllSpace(s)
    ensures TrimStart(s) == []
  {
    if s != [] {
      TrimStartAllSpace(s[1..]);
    }
  }

  /** `q` occurs in `s` starting at index `i`. */
  predicate OccursAt(s: string, q: string, i: nat) {
    i + |q| <= |s| && s[i..i + |q|] == q
  }

  /** `s.includes(q)`. */
  function Includes(s: string, q: string): (r: bool)
    ensures r ==> |q| <= |s|
    ensures q == [] ==> r
    decreases |s|
  {
    if |q| > |s| then false
    else if s[..|q|] == q then true
    else Includes(s[1..], q)
  }

  /** `Includes` finds an occurrence exactly when one exists. */
  lemma {:induction false} IncludesIff(s: string, q: string)
    ensures Includes(s, q) <==> exists i: nat :: OccursAt(s, q, i)
    decreases |s|
  {
    if |q| > |s| {
      forall i: nat ensures !OccursAt(s, q, i) {}
    } else if s[..|q|] == q {
      assert OccursAt(s, q, 0);
    } else {
      IncludesIff(s[1..], q);
      if Includes(s[1..], q) {
        var i: nat :| OccursAt(s[1..], q, i);
        assert s[i + 1..i + 1 + |q|] == s[1..][i..i + |q|];
        assert OccursAt(s, q, i + 1);
      }
      if i: nat :| OccursAt(s, q, i) {
        assert i != 0;
        assert s[1..][i - 1..i - 1 + |q|] == s[i..i + |q|];
        assert OccursAt(s[1..], q, i - 1);
      }
    }
  }

  /** A string that lacks the query's first character does not include the query. */
  lemma {:induction false} FirstCharAbsent(s: string, q: string)
    requires q != [] && q[0] !in s
    ensures !Includes(s, q)
  {
    IncludesIff(s, q);
  }

  /**
   * A string whose only copy of the query's first character is not followed
   * by the query's second character does not include the query.
   */
  lemma {:induction false} FirstCharOnlyOnce(a: string, c: string, q: string)
    requires |q| >= 2 && q[0] !in a && q[0] !in c && (c == [] || c[0] != q[1])
    ensures !Includes(a + [q[0]] + c, q)
  {
    IncludesIff(a + [q[0]] + c, q);
  }

  /** A string includes each of its prefixes. */
  lemma {:induction false} IncludesPrefix(p: string, rest: string)
    ensures Includes(p + rest, p)
  {
    IncludesIff(p + rest, p);
    assert OccursAt(p + rest, p, 0) by {
      assert (p + rest)[..|p|] == p;
    }
  }

  /** The empty string occurs in every string. */
  lemma IncludesEmpty(s: string)
    ensures Includes(s, "")
  {
  }

  /** `s.startsWith(p)`. */
  predicate StartsWith(s: string, p: string) {
    |p| <= |s| && s[..|p|] == p
  }

  /** Case-insensitive `includes`: `s.toLowerCase().includes(q.toLowerCase())`. */
  predicate MatchesIgnoringCase(s: string, q: string) {
    Includes(Lower(s), Lower(q))
  }

  /** A query and its lower-cased form match the same strings. */
  lemma MatchesLowerQuery(s: string, q: string)
    ensures MatchesIgnoringCase(s, Lower(q)) == MatchesIgnoringCase(s, q)
  {
    LowerIdempotent(q);
  }

  /** `f?.toLowerCase().includes(q.toLowerCase())`: an absent property never matches. */
  predicate FieldMatches(f: Field, q: string) {
    f.Some? && MatchesIgnoringCase(f.value, q)
  }

  /** Every present property matches the empty query. */
  lemma FieldMatchesEmpty(f: Field)
    ensures FieldMatches(f, "") <==> f.Some?
  {
    if f.Some? {
      IncludesEmpty(Lower(f.value));
    }
  }

  /** A query and its lower-cased form match the same properties. */
  lemma FieldMatchesLowerQuery(f: Field, q: string)
    ensures FieldMatches(f, Lower(q)) == FieldMatches(f, q)
  {
    if f.Some? {
      MatchesLowerQuery(f.value, q);
    }
  }
}
