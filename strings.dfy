/** The .NET string operations the migration tool relies on, with ordinal
    comparison. A Dafny char is a Unicode scalar value, not a UTF-16 code
    unit, so indices agree with .NET's only for text within the Basic
    Multilingual Plane. */
module Strings {

  /** char.IsWhiteSpace: the Unicode space, line and paragraph separators
      (categories Zs, Zl, Zp) and the control characters U+0009..U+000D, U+0085. */
  predicate IsWhiteSpace(c: char) {
    c == ' ' || ('\t' <= c <= '\r') || c == '\U{0085}' || c == '\U{00A0}' || c == '\U{1680}'
    || ('\U{2000}' <= c <= '\U{200A}') || c == '\U{2028}' || c == '\U{2029}'
    || c == '\U{202F}' || c == '\U{205F}' || c == '\U{3000}'
  }

  /** string.IsNullOrWhiteSpace; a null string is modelled as "". */
  predicate IsNullOrWhiteSpace(s: string) {
    forall i :: 0 <= i < |s| ==> IsWhiteSpace(s[i])
  }

  /** string.IsNullOrEmpty; a null string is modelled as "". */
  predicate IsNullOrEmpty(s: string) {
    |s| == 0
  }

  /** The first index at or after i that does not hold white space, or |s|. */
  function TextStart(s: string, i: nat): (n: nat)
    requires i <= |s|
    ensures i <= n <= |s|
    ensures forall k :: i <= k < n ==> IsWhiteSpace(s[k])
    ensures n < |s| ==> !IsWhiteSpace(s[n])
    decreases |s| - i
  {
    if i < |s| && IsWhiteSpace(s[i]) then TextStart(s, i + 1) else i
  }

  /** The end of s[..j] once its trailing white space is cut off. */
  function TextEnd(s: string, j: nat): (n: nat)
    requires j <= |s|
    ensures n <= j
    ensures forall k :: n <= k < j ==> IsWhiteSpace(s[k])
    ensures n > 0 ==> !IsWhiteSpace(s[n - 1])
  {
    if j > 0 && IsWhiteSpace(s[j - 1]) then TextEnd(s, j - 1) else j
  }

  /** string.Trim(): s without its leading and trailing white space. */
  function Trim(s: string): (r: string)
    ensures |r| <= |s|
    ensures r == "" <==> IsNullOrWhiteSpace(s)
    ensures r != "" ==> !IsWhiteSpace(r[0]) && !IsWhiteSpace(r[|r| - 1])
    ensures r != "" ==> r == s[TextStart(s, 0)..TextEnd(s, |s|)]
  {
    var lo := TextStart(s, 0);
    if lo == |s| then
      ""
    else
      assert !IsWhiteSpace(s[lo]);
      var hi := TextEnd(s, |s|);
      assert !IsNullOrWhiteSpace(s);
      s[lo..hi]
  }

  /** p occurs in s at index i. */
  predicate OccursAt(s: string, p: string, i: int) {
    0 <= i && i + |p| <= |s| && s[i..i + |p|] == p
  }

  /** string.IndexOf(p) with ordinal comparison: the first index at which p
      occurs, or -1 (IndexOfFirst states that no earlier index matches). */
  function IndexOf(s: string, p: string): (r: int)
    ensures -1 <= r <= |s|
    ensures r >= 0 ==> OccursAt(s, p, r)
  {
    if |s| < |p| then
      -1
    else if s[..|p|] == p then
      0
    else
      var k := IndexOf(s[1..], p);
      if k < 0 then -1
      else
        assert s[k + 1..k + 1 + |p|] == s[1..][k..k + |p|];
        k + 1
  }

  /** Wherever p occurs, IndexOf finds an occurrence at or before it. */
  lemma {:induction false} IndexOfFirst(s: string, p: string, j: nat)
    requires OccursAt(s, p, j)
    ensures 0 <= IndexOf(s, p) <= j
    decreases |s|
  {
    assert s[..|p|] == s[0..|p|];
    if s[..|p|] != p {
      assert s[1..][j - 1..j - 1 + |p|] == s[j..j + |p|];
      IndexOfFirst(s[1..], p, j - 1);
    }
  }

  /** string.IndexOf for a one-character pattern: the first index of c, or -1. */
  function IndexOfChar(s: string, c: char): (r: int)
    ensures -1 <= r < |s|
    ensures r >= 0 ==> s[r] == c && c !in s[..r]
    ensures r < 0 ==> c !in s
  {
    if s == [] then -1
    else if s[0] == c then 0
    else
      var k := IndexOfChar(s[1..], c);
      if k < 0 then -1
      else
        assert s[..k + 1] == [s[0]] + s[1..][..k];
        k + 1
  }

  /** The character search is the string search with a one-character pattern. */
  lemma {:induction false} IndexOfOneChar(s: string, c: char)
    ensures IndexOf(s, [c]) == IndexOfChar(s, c)
  {
    if s != [] {
      assert s[..1] == [s[0]];
      if s[0] != c {
        IndexOfOneChar(s[1..], c);
      }
    }
  }

  /** The search stops at the first c. */
  lemma FirstIndexOfChar(s: string, c: char, i: nat)
    requires i < |s| && s[i] == c && c !in s[..i]
    ensures IndexOfChar(s, c) == i
  {
  }

  /** string.Contains(p), ordinal. */
  predicate Contains(s: string, p: string) {
    IndexOf(s, p) >= 0
  }

  /** p cannot occur where its first character does not. */
  lemma {:induction false} AbsentFirstChar(s: string, p: string)
    requires |p| > 0 && p[0] !in s
    ensures !Contains(s, p)
  {
    if |s| >= |p| {
      assert s[..|p|][0] == s[0];
      assert forall x :: x in s[1..] ==> x in s;
      AbsentFirstChar(s[1..], p);
    }
  }

  /** string.Replace(p, rep) for a non-empty p: one left-to-right pass that
      replaces each non-overlapping occurrence of p. */
  function Replace(s: string, p: string, rep: string): (r: string)
    requires |p| > 0
    decreases |s|
  {
    if |s| < |p| then s
    else if s[..|p|] == p then rep + Replace(s[|p|..], p, rep)
    else [s[0]] + Replace(s[1..], p, rep)
  }

  /** Occurrences in s[1..] are those in s, one index later. */
  lemma OccursInTail(s: string, p: string, j: nat)
    requires |s| > 0
    ensures OccursAt(s[1..], p, j) <==> OccursAt(s, p, j + 1)
  {
    if j + |p| <= |s| - 1 {
      assert s[1..][j..j + |p|] == s[j + 1..j + 1 + |p|];
    }
  }

  /** A first occurrence at i > 0 is a first occurrence at i - 1 in s[1..]. */
  lemma FirstInTail(s: string, p: string, i: nat)
    requires 0 < i && OccursAt(s, p, i)
    requires forall j :: 0 <= j < i ==> !OccursAt(s, p, j)
    ensures |p| <= |s| && !OccursAt(s, p, 0)
    ensures OccursAt(s[1..], p, i - 1)
    ensures forall j :: 0 <= j < i - 1 ==> !OccursAt(s[1..], p, j)
  {
    forall j | 0 <= j < i - 1
      ensures !OccursAt(s[1..], p, j)
    {
      OccursInTail(s, p, j);
    }
    OccursInTail(s, p, i - 1);
  }

  /** At an occurrence of p, Replace emits the replacement and skips p. */
  lemma ReplaceAtOccurrence(s: string, p: string, rep: string)
    requires |p| > 0 && OccursAt(s, p, 0)
    ensures Replace(s, p, rep) == s[..0] + rep + Replace(s[0 + |p|..], p, rep)
  {
    assert s[..|p|] == s[0..0 + |p|] && s[..0] == [];
  }

  /** Where p does not occur, Replace keeps the first character and moves on. */
  lemma ReplacePastMismatch(s: string, p: string, rep: string)
    requires |p| > 0 && |p| <= |s| && !OccursAt(s, p, 0)
    ensures Replace(s, p, rep) == [s[0]] + Replace(s[1..], p, rep)
  {
    assert s[..|p|] == s[0..0 + |p|];
  }

  /** The sequence algebra of one step past a mismatch: a cut of s[1..] at
      i - 1, with the first character put back, is a cut of s at i. */
  lemma CutStep(s: string, i: nat, rep: string, whole: string, tail: string, after: string)
    requires 0 < i <= |s|
    requires whole == [s[0]] + tail
    requires tail == s[1..][..i - 1] + rep + after
    ensures whole == s[..i] + rep + after
  {
    assert s[..i] == [s[0]] + s[1..][..i - 1];
  }

  /** Replace cuts at the first occurrence of the pattern, puts the
      replacement there and carries on only after that occurrence. */
  lemma {:induction false} ReplaceCutsAt(s: string, p: string, rep: string, i: nat)
    requires |p| > 0 && OccursAt(s, p, i)
    requires forall j :: 0 <= j < i ==> !OccursAt(s, p, j)
    ensures Replace(s, p, rep) == s[..i] + rep + Replace(s[i + |p|..], p, rep)
    decreases i
  {
    if i == 0 {
      ReplaceAtOccurrence(s, p, rep);
    } else {
      FirstInTail(s, p, i);
      ReplaceCutsAt(s[1..], p, rep, i - 1);
      ReplacePastMismatch(s, p, rep);
      assert s[1..][i - 1 + |p|..] == s[i + |p|..];
      CutStep(s, i, rep, Replace(s, p, rep), Replace(s[1..], p, rep), Replace(s[i + |p|..], p, rep));
    }
  }

  /** Replace cuts where IndexOf finds the pattern. */
  lemma ReplaceCutsAtFirst(s: string, p: string, rep: string)
    requires |p| > 0 && IndexOf(s, p) >= 0
    ensures var k := IndexOf(s, p);
      Replace(s, p, rep) == s[..k] + rep + Replace(s[k + |p|..], p, rep)
  {
    NothingBeforeIndexOf(s, p);
    ReplaceCutsAt(s, p, rep, IndexOf(s, p));
  }

  /** The pattern occurs nowhere before the index IndexOf finds. */
  lemma NothingBeforeIndexOf(s: string, p: string)
    requires IndexOf(s, p) >= 0
    ensures forall j :: 0 <= j < IndexOf(s, p) ==> !OccursAt(s, p, j)
  {
    forall j | 0 <= j < IndexOf(s, p)
      ensures !OccursAt(s, p, j)
    {
      if OccursAt(s, p, j) {
        IndexOfFirst(s, p, j);
      }
    }
  }

  /** A string in which p does not occur is left unchanged. */
  lemma {:induction false} ReplaceAbsent(s: string, p: string, rep: string)
    requires |p| > 0 && !Contains(s, p)
    ensures Replace(s, p, rep) == s
    decreases |s|
  {
    if |s| >= |p| {
      assert !OccursAt(s, p, 0);
      ReplaceAbsent(s[1..], p, rep);
    }
  }

  /** Removing an occurring pattern makes the string strictly shorter. */
  lemma {:induction false} RemoveShrinks(s: string, p: string)
    requires |p| > 0 && Contains(s, p)
    ensures |Replace(s, p, "")| < |s|
    decreases |s|
  {
    if s[..|p|] == p {
      ReplaceNoLonger(s[|p|..], p);
    } else {
      RemoveShrinks(s[1..], p);
    }
  }

  /** Removing a pattern never lengthens a string. */
  lemma {:induction false} ReplaceNoLonger(s: string, p: string)
    requires |p| > 0
    ensures |Replace(s, p, "")| <= |s|
    decreases |s|
  {
    if |s| >= |p| {
      if s[..|p|] == p {
        ReplaceNoLonger(s[|p|..], p);
      } else {
        ReplaceNoLonger(s[1..], p);
      }
    }
  }

  /** Removing a one-character pattern removes every occurrence of that character. */
  lemma {:induction false} RemoveCharRemovesAll(s: string, c: char)
    ensures forall i :: 0 <= i < |Replace(s, [c], "")| ==> Replace(s, [c], "")[i] != c
    decreases |s|
  {
    if |s| >= 1 {
      RemoveCharRemovesAll(s[1..], c);
    }
  }

  /** The pass does not rescan what it produced: "ddtt" with "dt" removed is "dt". */
  lemma RemoveIsSinglePass()
    ensures Replace("ddtt", "dt", "") == "dt"
    ensures Contains(Replace("ddtt", "dt", ""), "dt")
  {
    assert "ddtt"[..2][1] != "dt"[1];
    assert "ddtt"[1..] == "dtt";
    assert "dtt"[..2] == "dt";
    assert "dtt"[2..] == "t";
    assert Replace("t", "dt", "") == "t";
    assert OccursAt("dt", "dt", 0);
  }
}
