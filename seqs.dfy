/** Order-preserving map and filter over sequences, the shapes of Python's
    list comprehensions and append loops. */
module Seqs {

  /** `[f(x) for x in s]` */
  function Map<A, B>(f: A -> B, s: seq<A>): (r: seq<B>)
    ensures |r| == |s|
  {
    if s == [] then [] else Map(f, s[..|s| - 1]) + [f(s[|s| - 1])]
  }

  lemma {:induction false} MapAt<A, B>(f: A -> B, s: seq<A>, i: int)
    requires 0 <= i < |s|
    ensures Map(f, s)[i] == f(s[i])
    decreases |s|
  {
    if i < |s| - 1 {
      MapAt(f, s[..|s| - 1], i);
    }
  }

  /** `[x for x in s if p(x)]` */
  function Filter<A>(p: A -> bool, s: seq<A>): (r: seq<A>)
    ensures |r| <= |s|
  {
    if s == [] then []
    else Filter(p, s[..|s| - 1]) + (if p(s[|s| - 1]) then [s[|s| - 1]] else [])
  }

  lemma AppendAssoc<A>(a: seq<A>, b: seq<A>, c: seq<A>)
    ensures (a + b) + c == a + (b + c)
  {
  }

  lemma MapSnoc<A, B>(f: A -> B, s: seq<A>, x: A)
    ensures Map(f, s + [x]) == Map(f, s) + [f(x)]
  {
    assert (s + [x])[..|s|] == s;
  }

  lemma FilterSnoc<A>(p: A -> bool, s: seq<A>, x: A)
    ensures Filter(p, s + [x]) == Filter(p, s) + (if p(x) then [x] else [])
  {
    assert (s + [x])[..|s|] == s;
  }

  lemma {:induction false} MapConcat<A, B>(f: A -> B, s: seq<A>, t: seq<A>)
    ensures Map(f, s + t) == Map(f, s) + Map(f, t)
    decreases |t|
  {
    if t == [] {
      assert s + t == s;
    } else {
      var n := |t| - 1;
      assert (s + t)[..|s + t| - 1] == s + t[..n];
      assert (s + t)[|s + t| - 1] == t[n];
      MapConcat(f, s, t[..n]);
    }
  }

  lemma {:induction false} FilterConcat<A>(p: A -> bool, s: seq<A>, t: seq<A>)
    ensures Filter(p, s + t) == Filter(p, s) + Filter(p, t)
    decreases |t|
  {
    if t == [] {
      assert s + t == s;
    } else {
      var n := |t| - 1;
      assert (s + t)[..|s + t| - 1] == s + t[..n];
      assert t[..|t| - 1] == t[..n];
      FilterConcat(p, s, t[..n]);
    }
  }

  /** Everything Filter keeps is from s and satisfies p, and it keeps all such. */
  lemma {:induction false} FilterMembers<A>(p: A -> bool, s: seq<A>, x: A)
    ensures x in Filter(p, s) <==> x in s && p(x)
    decreases |s|
  {
    if s != [] {
      var n := |s| - 1;
      FilterMembers(p, s[..n], x);
      assert s == s[..n] + [s[n]];
    }
  }

  /** Every element Filter returns satisfies p. */
  lemma FilterAll<A>(p: A -> bool, s: seq<A>, k: int)
    requires 0 <= k < |Filter(p, s)|
    ensures p(Filter(p, s)[k]) && Filter(p, s)[k] in s
  {
    FilterMembers(p, s, Filter(p, s)[k]);
  }
}
