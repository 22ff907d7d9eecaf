/** The three string operations of the JavaScript runtime that the suggestion
    builder relies on: `String.prototype.startsWith`, `String.prototype.includes`
    and `String.prototype.toLowerCase` (restricted to ASCII letters). */
module JsStrings {

  /** `s.startsWith(prefix)`: the first |prefix| characters of s are prefix. */
  predicate StartsWith(s: string, prefix: string) {
    |prefix| <= |s| && s[..|prefix|] == prefix
  }

  /** `s.includes(t)`: t starts at some position of s (the empty string starts
      everywhere, so every string includes ""). */
  function Includes(s: string, t: string): bool
    decreases |s|
  {
    StartsWith(s, t) || (|s| > 0 && Includes(s[1..], t))
  }

  /** t occurs in s at position i. */
  ghost predicate OccursAt(s: string, t: string, i: int) {
    0 <= i && i + |t| <= |s| && s[i..i + |t|] == t
  }

  lemma OccursShift(s: string, t: string, i: int)
    requires |s| > 0 && 0 <= i
    ensures OccursAt(s[1..], t, i) <==> OccursAt(s, t, i + 1)
  {
    if 0 <= i && i + |t| <= |s| - 1 {
      assert s[1..][i..i + |t|] == s[i + 1..i + 1 + |t|];
    }
  }

  /** Includes is exactly the substring relation: s includes t if and only if t
      occurs at some position of s. */
  lemma {:induction false} IncludesIffOccurs(s: string, t: string)
    ensures Includes(s, t) <==> exists i :: OccursAt(s, t, i)
    decreases |s|
  {
    if StartsWith(s, t) {
      assert OccursAt(s, t, 0);
    } else {
      assert !OccursAt(s, t, 0);
      if |s| > 0 {
        IncludesIffOccurs(s[1..], t);
        if Includes(s[1..], t) {
          var i :| OccursAt(s[1..], t, i);
          OccursShift(s, t, i);
        } else if exists i :: OccursAt(s, t, i) {
          var i :| OccursAt(s, t, i);
          assert i > 0;
          OccursShift(s, t, i - 1);
          assert false;
        }
      }
    }
  }

  /** Every string includes the empty string. */
  lemma IncludesEmpty(s: string)
    ensures Includes(s, "")
  {
    assert s[..0] == "";
  }

  /** No string includes a longer one. */
  lemma {:induction false} IncludesLonger(s: string, t: string)
    requires |s| < |t|
    ensures !Includes(s, t)
    decreases |s|
  {
    if |s| > 0 {
      IncludesLonger(s[1..], t);
    }
  }

  /** ASCII lower-casing of one character. */
  function LowerChar(c: char): char {
    if 'A' <= c <= 'Z' then (c as int + 32) as char else c
  }

  predicate IsUpper(c: char) {
    'A' <= c <= 'Z'
  }

  /** `s.toLowerCase()` on ASCII: every upper-case letter becomes its lower-case
      letter, every other character is kept, and the length is unchanged. */
  function Lower(s: string): (r: string)
    ensures |r| == |s|
    ensures forall i :: 0 <= i < |s| ==> !IsUpper(r[i])
    ensures forall i :: 0 <= i < |s| && IsUpper(s[i]) ==> r[i] as int == s[i] as int + 32
    ensures forall i :: 0 <= i < |s| && !IsUpper(s[i]) ==> r[i] == s[i]
  {
    if s == [] then [] else [LowerChar(s[0])] + Lower(s[1..])
  }

  /** Lower-casing twice is lower-casing once. */
  lemma LowerIdempotent(s: string)
    ensures Lower(Lower(s)) == Lower(s)
  {
  }

  /** A string without upper-case letters is its own lower-case form. */
  lemma LowerOfLower(s: string)
    requires forall i :: 0 <= i < |s| ==> !IsUpper(s[i])
    ensures Lower(s) == s
  {
  }
}
