/** Sequence facts shared by the move generators and the self-check filter. */
module Seqs {

  /** `t` is obtained from `s` by deleting elements, order kept. */
  predicate IsSubsequence<T(==)>(t: seq<T>, s: seq<T>)
    decreases |s|
  {
    t == [] ||
    (s != [] &&
     ((t[0] == s[0] && IsSubsequence(t[1..], s[1..])) || IsSubsequence(t, s[1..])))
  }

  /** `s.filter(x => !xs.has(x))`: every occurrence of an element of `xs` removed. */
  function Without<T(==, !new)>(s: seq<T>, xs: set<T>): (r: seq<T>)
    ensures forall x :: x in r <==> x in s && x !in xs
    ensures IsSubsequence(r, s)
    ensures |r| <= |s|
  {
    if s == [] then []
    else
      var rest := Without(s[1..], xs);
      if s[0] in xs then rest
      else
        assert ([s[0]] + rest)[1..] == rest;
        [s[0]] + rest
  }

  /** Every copy of an element that is not removed is kept. */
  lemma {:induction false} WithoutCounts<T(!new)>(s: seq<T>, xs: set<T>, x: T)
    requires x !in xs
    ensures multiset(Without(s, xs))[x] == multiset(s)[x]
  {
    if s != [] {
      WithoutCounts(s[1..], xs, x);
      assert s == [s[0]] + s[1..];
      assert multiset(s) == multiset{s[0]} + multiset(s[1..]);
      if s[0] !in xs {
        var rest := Without(s[1..], xs);
        assert multiset([s[0]] + rest) == multiset{s[0]} + multiset(rest);
      }
    }
  }

  /** Removing nothing leaves the sequence as it was. */
  lemma {:induction false} WithoutNothing<T(!new)>(s: seq<T>)
    ensures Without(s, {}) == s
  {
    if s != [] {
      WithoutNothing(s[1..]);
    }
  }

  /** Removing the elements of `xs` and then those of `ys` removes those of `xs + ys`. */
  lemma {:induction false} WithoutWithout<T(!new)>(s: seq<T>, xs: set<T>, ys: set<T>)
    ensures Without(Without(s, xs), ys) == Without(s, xs + ys)
  {
    if s != [] {
      WithoutWithout(s[1..], xs, ys);
      if s[0] !in xs {
        var t := Without(s, xs);
        assert t[0] == s[0] && t[1..] == Without(s[1..], xs);
      }
    }
  }
}
