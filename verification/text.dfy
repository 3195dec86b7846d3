/** The two string operations the credit scorer relies on:
    `String.prototype.toUpperCase` (restricted to ASCII letters) and
    `String.prototype.includes`. */
module Text {

  function UpperChar(c: char): (u: char)
    ensures 'a' <= c <= 'z' ==> 'A' <= u <= 'Z' && u as int == c as int - 32
    ensures !('a' <= c <= 'z') ==> u == c
  {
    if 'a' <= c <= 'z' then (c as int - 32) as char else c
  }

  /** Upper-cases every ASCII letter and leaves every other character alone. */
  function ToUpper(s: string): (r: string)
    ensures |r| == |s|
    ensures forall i :: 0 <= i < |s| ==> r[i] == UpperChar(s[i])
  {
    if s == [] then [] else [UpperChar(s[0])] + ToUpper(s[1..])
  }

  /** Upper-casing works character by character, so it distributes over concatenation. */
  lemma {:induction false} ToUpperAppend(a: string, b: string)
    ensures ToUpper(a + b) == ToUpper(a) + ToUpper(b)
  {
    var whole, parts := ToUpper(a + b), ToUpper(a) + ToUpper(b);
    assert |whole| == |parts|;
    forall i | 0 <= i < |whole|
      ensures whole[i] == parts[i]
    {
      if i < |a| {
        assert (a + b)[i] == a[i];
        assert parts[i] == ToUpper(a)[i];
      } else {
        assert (a + b)[i] == b[i - |a|];
        assert parts[i] == ToUpper(b)[i - |a|];
      }
    }
  }

  /** Whether `pat` occurs in `s` as a contiguous block, as a left-to-right scan. */
  predicate Contains(s: string, pat: string)
    decreases |s|
  {
    |pat| <= |s| && (s[..|pat|] == pat || Contains(s[1..], pat))
  }

  /** The occurrence-based reading of `Contains`. */
  ghost predicate OccursAt(s: string, pat: string, k: int)
  {
    0 <= k && k + |pat| <= |s| && s[k..k + |pat|] == pat
  }

  /** The scan finds `pat` exactly when it occurs at some offset of `s`. */
  lemma {:induction false} ContainsIff(s: string, pat: string)
    ensures Contains(s, pat) <==> exists k :: OccursAt(s, pat, k)
    decreases |s|
  {
    if |pat| <= |s| {
      if s[..|pat|] == pat {
        assert OccursAt(s, pat, 0);
      } else {
        ContainsIff(s[1..], pat);
        forall k | OccursAt(s[1..], pat, k)
          ensures OccursAt(s, pat, k + 1)
        {
          assert s[1..][k..k + |pat|] == s[k + 1..k + 1 + |pat|];
        }
        forall k | OccursAt(s, pat, k)
          ensures OccursAt(s[1..], pat, k - 1)
        {
          assert k != 0;
          assert s[1..][k - 1..k - 1 + |pat|] == s[k..k + |pat|];
        }
      }
    }
  }

  /** Any word that holds `pat` somewhere inside it matches. */
  lemma ContainsInside(a: string, pat: string, b: string)
    ensures Contains(a + pat + b, pat)
  {
    ContainsIff(a + pat + b, pat);
    assert (a + pat + b)[|a|..|a| + |pat|] == pat;
    assert OccursAt(a + pat + b, pat, |a|);
  }

  /** A pattern with a character that `s` lacks does not occur in `s`. */
  lemma AbsentChar(s: string, pat: string, j: nat)
    requires j < |pat| && pat[j] !in s
    ensures !Contains(s, pat)
  {
    ContainsIff(s, pat);
    forall k
      ensures !OccursAt(s, pat, k)
    {
      if 0 <= k && k + |pat| <= |s| {
        assert s[k..k + |pat|][j] == s[k + j];
      }
    }
  }

  /** An upper-case letter missing from `s` in both cases is missing from `ToUpper(s)`. */
  lemma UpperAbsent(s: string, c: char)
    requires 'A' <= c <= 'Z' && c !in s && (c as int + 32) as char !in s
    ensures c !in ToUpper(s)
  {
    forall i | 0 <= i < |s|
      ensures ToUpper(s)[i] != c
    {
      assert s[i] in s;
    }
  }
}
