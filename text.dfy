/**
 * The two string operations of the destination filter, `toLowerCase` and
 * `includes`. Lower-casing is modelled on ASCII letters only; every other
 * character is left as it is.
 */
module Text {

  function LowerChar(c: char): char
  {
    if 'A' <= c <= 'Z' then (c as int + 32) as char else c
  }

  /** `s.toLowerCase()`, restricted to ASCII. */
  function Lower(s: string): string
  {
    seq(|s|, i requires 0 <= i < |s| => LowerChar(s[i]))
  }

  /** Lower-casing keeps the length, lower-cases each character and is idempotent. */
  lemma LowerFacts(s: string)
    ensures |Lower(s)| == |s|
    ensures forall i :: 0 <= i < |s| ==> Lower(s)[i] == LowerChar(s[i]) && !('A' <= Lower(s)[i] <= 'Z')
    ensures Lower(Lower(s)) == Lower(s)
  {
  }

  /** `s.includes(needle)`: does `needle` occur in `s` at some position? */
  function Includes(s: string, needle: string): bool
    decreases |s|
  {
    needle <= s || (|s| > 0 && Includes(s[1..], needle))
  }

  /** `needle` occurs in `s` starting at index `k`. */
  ghost predicate OccursAt(needle: string, s: string, k: int)
  {
    0 <= k && k + |needle| <= |s| && s[k..k + |needle|] == needle
  }

  /** `Includes` is the substring relation, in both directions. */
  lemma {:induction false} IncludesIsSubstring(s: string, needle: string)
    ensures Includes(s, needle) <==> exists k :: OccursAt(needle, s, k)
    decreases |s|
  {
    if needle <= s {
      assert OccursAt(needle, s, 0);
    } else if |s| > 0 {
      IncludesIsSubstring(s[1..], needle);
      if Includes(s[1..], needle) {
        var k :| OccursAt(needle, s[1..], k);
        assert s[k + 1..k + 1 + |needle|] == s[1..][k..k + |needle|];
        assert OccursAt(needle, s, k + 1);
      }
      forall k | OccursAt(needle, s, k)
        ensures OccursAt(needle, s[1..], k - 1)
      {
        if k == 0 {
          assert false;
        }
        assert s[1..][k - 1..k - 1 + |needle|] == s[k..k + |needle|];
      }
    }
  }

  /** Every string includes itself (the query equal to a field matches it). */
  lemma IncludesItself(s: string)
    ensures Includes(s, s)
  {
  }
}
