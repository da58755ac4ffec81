/** The few Python `str` operations the core relies on. Case mapping covers
    the ASCII letters only. */
module Text {

  function LowerChar(c: char): char {
    if 'A' <= c <= 'Z' then (c as int + 32) as char else c
  }

  function UpperChar(c: char): char {
    if 'a' <= c <= 'z' then (c as int - 32) as char else c
  }

  /** `s.lower()` */
  function Lower(s: string): (r: string)
    ensures |r| == |s|
  {
    if s == [] then [] else [LowerChar(s[0])] + Lower(s[1..])
  }

  /** `s.upper()` */
  function Upper(s: string): (r: string)
    ensures |r| == |s|
  {
    if s == [] then [] else [UpperChar(s[0])] + Upper(s[1..])
  }

  /** s spells the word w up to the case of its letters. */
  predicate CaseVariant(s: string, w: string) {
    |s| == |w| && forall i :: 0 <= i < |s| ==> LowerChar(s[i]) == w[i]
  }

  lemma {:induction false} LowerAt(s: string, i: int)
    requires 0 <= i < |s|
    ensures Lower(s)[i] == LowerChar(s[i])
  {
    if i > 0 {
      LowerAt(s[1..], i - 1);
    }
  }

  lemma {:induction false} UpperAt(s: string, i: int)
    requires 0 <= i < |s|
    ensures Upper(s)[i] == UpperChar(s[i])
  {
    if i > 0 {
      UpperAt(s[1..], i - 1);
    }
  }

  /** Comparing `s.lower()` with a word is a case-insensitive comparison. */
  lemma LowerEquals(s: string, w: string)
    ensures Lower(s) == w <==> CaseVariant(s, w)
  {
    forall i | 0 <= i < |s| {
      LowerAt(s, i);
    }
  }

  /** Python's `a < b` on strings: lexicographic by code point, a proper
      prefix before its extensions. */
  predicate StrLess(a: string, b: string) {
    if b == [] then false
    else if a == [] then true
    else if a[0] != b[0] then a[0] < b[0]
    else StrLess(a[1..], b[1..])
  }

  /** Against a one-letter string only the first letter counts. */
  lemma AtLeastLetter(s: string, c: char)
    requires s != []
    ensures !StrLess(s, [c]) <==> s[0] >= c
  {
    if s[0] == c {
      assert [c][1..] == [];
    }
  }

  function DigitChar(d: int): char
    requires 0 <= d < 10
  {
    "0123456789"[d]
  }

  function Decimal(n: nat): string
    decreases n
  {
    if n < 10 then [DigitChar(n)] else Decimal(n / 10) + [DigitChar(n % 10)]
  }

  /** `str(n)` for an integer. */
  function IntRepr(n: int): string {
    if n < 0 then "-" + Decimal(-n) else Decimal(n)
  }

  /** s has an occurrence of pat starting at position k. */
  predicate OccursAt(s: string, pat: string, k: int) {
    0 <= k <= |s| && pat <= s[k..]
  }

  /** `s.replace(pat, rep, 1)`: the first occurrence of pat, if any, is replaced. */
  function ReplaceFirst(s: string, pat: string, rep: string): string
    decreases |s|
  {
    if pat <= s then rep + s[|pat|..]
    else if s == [] then []
    else [s[0]] + ReplaceFirst(s[1..], pat, rep)
  }

  /** An occurrence in s[1..] at j is one in s at j + 1. */
  lemma OccursShift(s: string, pat: string, j: int)
    requires s != [] && 0 <= j <= |s| - 1
    ensures OccursAt(s[1..], pat, j) <==> OccursAt(s, pat, j + 1)
  {
    assert s[1..][j..] == s[j + 1..];
  }

  /** Where pat first occurs at k, ReplaceFirst splices rep in at k and leaves
      everything before and after untouched. */
  lemma {:induction false} ReplaceFirstAt(s: string, pat: string, rep: string, k: int)
    requires OccursAt(s, pat, k)
    requires forall j :: 0 <= j < k ==> !OccursAt(s, pat, j)
    ensures ReplaceFirst(s, pat, rep) == s[..k] + rep + s[k + |pat|..]
    decreases k
  {
    if k > 0 {
      var t := s[1..];
      assert !OccursAt(s, pat, 0);
      assert ReplaceFirst(s, pat, rep) == [s[0]] + ReplaceFirst(t, pat, rep);
      OccursShift(s, pat, k - 1);
      forall j | 0 <= j < k - 1
        ensures !OccursAt(t, pat, j)
      {
        OccursShift(s, pat, j);
      }
      ReplaceFirstAt(t, pat, rep, k - 1);
      assert s[..k] == [s[0]] + t[..k - 1];
      assert t[k - 1 + |pat|..] == s[k + |pat|..];
    }
  }

  /** Without an occurrence of pat, ReplaceFirst leaves s as it is. */
  lemma {:induction false} ReplaceFirstAbsent(s: string, pat: string, rep: string)
    requires forall j :: 0 <= j <= |s| ==> !OccursAt(s, pat, j)
    ensures ReplaceFirst(s, pat, rep) == s
    decreases |s|
  {
    assert !OccursAt(s, pat, 0);
    if s != [] {
      forall j | 0 <= j <= |s| - 1
        ensures !OccursAt(s[1..], pat, j)
      {
        OccursShift(s, pat, j);
      }
      ReplaceFirstAbsent(s[1..], pat, rep);
      assert s == [s[0]] + s[1..];
    }
  }
}
