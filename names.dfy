/**
 * The string tests the models use to find clips and meshes by name:
 * `toLowerCase`, `includes`, and a case-insensitive `RegExp` test on a
 * plain keyword. Case mapping covers ASCII letters only.
 */
module Names {

  function LowerChar(c: char): char {
    if 'A' <= c <= 'Z' then (c as int + 32) as char else c
  }

  /** `s.toLowerCase()` on ASCII text. */
  function Lower(s: string): (r: string)
    ensures |r| == |s| && forall i :: 0 <= i < |s| ==> r[i] == LowerChar(s[i])
  {
    if s == [] then [] else [LowerChar(s[0])] + Lower(s[1..])
  }

  /** Lower-casing twice is lower-casing once. */
  lemma LowerIdempotent(s: string)
    ensures Lower(Lower(s)) == Lower(s)
  {
  }

  /** `s.startsWith(p)`. */
  predicate StartsWith(s: string, p: string) {
    |p| <= |s| && s[..|p|] == p
  }

  /** `s.includes(sub)`: sub occurs at the front or somewhere further on. */
  predicate Contains(s: string, sub: string)
    decreases |s|
  {
    StartsWith(s, sub) || (s != [] && Contains(s[1..], sub))
  }

  /** sub sits in s at position i. */
  predicate OccursAt(s: string, sub: string, i: int) {
    0 <= i <= |s| - |sub| && s[i..i + |sub|] == sub
  }

  lemma {:induction false} OccurrenceGivesContains(s: string, sub: string, i: int)
    requires OccursAt(s, sub, i)
    ensures Contains(s, sub)
    decreases i
  {
    if i > 0 {
      assert s[1..][i - 1..i - 1 + |sub|] == s[i..i + |sub|];
      OccurrenceGivesContains(s[1..], sub, i - 1);
    } else {
      assert StartsWith(s, sub);
    }
  }

  lemma {:induction false} ContainsGivesOccurrence(s: string, sub: string)
    requires Contains(s, sub)
    ensures exists i :: OccursAt(s, sub, i)
    decreases |s|
  {
    if StartsWith(s, sub) {
      assert OccursAt(s, sub, 0);
    } else {
      ContainsGivesOccurrence(s[1..], sub);
      var i :| OccursAt(s[1..], sub, i);
      assert s[1..][i..i + |sub|] == s[i + 1..i + 1 + |sub|];
      assert OccursAt(s, sub, i + 1);
    }
  }

  /** `includes` holds exactly when there is a position where sub sits in s. */
  lemma ContainsIffOccurs(s: string, sub: string)
    ensures Contains(s, sub) <==> exists i :: OccursAt(s, sub, i)
  {
    if Contains(s, sub) {
      ContainsGivesOccurrence(s, sub);
    }
    if exists i :: OccursAt(s, sub, i) {
      var i :| OccursAt(s, sub, i);
      OccurrenceGivesContains(s, sub, i);
    }
  }

  /**
   * `name.toLowerCase().includes(key.toLowerCase())`, and likewise
   * `new RegExp(key, "i").test(name)` for a key without pattern
   * characters: a case-insensitive substring test.
   */
  predicate ContainsIgnoreCase(name: string, key: string) {
    Contains(Lower(name), Lower(key))
  }

  /** The test ignores the case of the name. */
  lemma IgnoresNameCase(name: string, key: string)
    ensures ContainsIgnoreCase(Lower(name), key) == ContainsIgnoreCase(name, key)
  {
    LowerIdempotent(name);
  }

  /** Every name contains the empty key. */
  lemma EmptyKeyMatchesAll(name: string)
    ensures ContainsIgnoreCase(name, "")
  {
    assert StartsWith(Lower(name), "");
  }
}
