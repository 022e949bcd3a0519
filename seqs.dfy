/**
 * The list operations the store and the screens are built from: JavaScript's
 * `filter`, `find`, `map` with a replacement, and `reduce` as a sum.
 */
module Seqs {
  import opened Wrappers

  /** `s.filter(p)`: the elements that satisfy `p`, in their original order. */
  function Filter<T(==,!new)>(s: seq<T>, p: T -> bool): (r: seq<T>)
    ensures |r| <= |s|
    ensures forall x :: x in r <==> x in s && p(x)
    ensures |r| == |s| <==> forall i :: 0 <= i < |s| ==> p(s[i])
  {
    if s == [] then []
    else
      var rest := Filter(s[1..], p);
      assert forall x :: x in s <==> x == s[0] || x in s[1..];
      assert forall i :: 1 <= i < |s| ==> s[i] == s[1..][i - 1];
      if p(s[0]) then [s[0]] + rest else rest
  }

  /** The predicate "the selected field equals `k`". */
  function KeyIs<T, K(==)>(key: T -> K, k: K): T -> bool {
    (x: T) => key(x) == k
  }

  /** The predicate "the selected field differs from `k`". */
  function KeyIsNot<T, K(==)>(key: T -> K, k: K): T -> bool {
    (x: T) => key(x) != k
  }

  /** The negation of a predicate. */
  function Not<T>(p: T -> bool): T -> bool {
    (x: T) => !p(x)
  }

  /** `s.filter(x => key(x) === k)`: the elements whose selected field is `k`. */
  function SelectByKey<T(==,!new), K(==)>(s: seq<T>, key: T -> K, k: K): (r: seq<T>)
    ensures forall x :: x in r <==> x in s && key(x) == k
  {
    Filter(s, KeyIs(key, k))
  }

  /** `s.filter(x => key(x) !== id)`: the removal by id of the store. */
  function RemoveById<T(==,!new), K(==)>(s: seq<T>, key: T -> K, id: K): (r: seq<T>)
    ensures forall x :: x in r <==> x in s && key(x) != id
    ensures (forall i :: 0 <= i < |s| ==> key(s[i]) != id) ==> r == s
  {
    FilterKeepsAll(s, KeyIsNot(key, id));
    Filter(s, KeyIsNot(key, id))
  }

  /** `s.map(item => key(item) === key(x) ? x : item)`. */
  function ReplaceById<T, K(==)>(s: seq<T>, key: T -> K, x: T): (r: seq<T>)
    ensures |r| == |s|
    ensures forall i :: 0 <= i < |s| ==> r[i] == if key(s[i]) == key(x) then x else s[i]
  {
    if s == [] then []
    else [if key(s[0]) == key(x) then x else s[0]] + ReplaceById(s[1..], key, x)
  }

  /** `s.find(p)`: the first element satisfying `p`, if any. */
  function FindFirst<T>(s: seq<T>, p: T -> bool): (r: Option<T>)
    ensures r.None? <==> forall i :: 0 <= i < |s| ==> !p(s[i])
    ensures r.Some? ==> exists i :: 0 <= i < |s| && s[i] == r.value && p(s[i]) &&
                                    forall j :: 0 <= j < i ==> !p(s[j])
  {
    if s == [] then None
    else if p(s[0]) then Some(s[0])
    else
      var r := FindFirst(s[1..], p);
      assert forall i :: 1 <= i < |s| ==> s[i] == s[1..][i - 1];
      r
  }

  /** `i` is the first position whose selected field is `k`. */
  predicate IsFirstKey<T, K(==)>(s: seq<T>, key: T -> K, k: K, i: int) {
    0 <= i < |s| && key(s[i]) == k && forall j :: 0 <= j < i ==> key(s[j]) != k
  }

  /** `s.find(x => key(x) === k)`: the first element whose selected field is `k`, if any. */
  function FindByKey<T, K(==)>(s: seq<T>, key: T -> K, k: K): (r: Option<T>)
    ensures r.None? <==> forall i :: 0 <= i < |s| ==> key(s[i]) != k
    ensures r.Some? ==> exists i :: IsFirstKey(s, key, k, i) && s[i] == r.value
  {
    if s == [] then None
    else if key(s[0]) == k then
      assert IsFirstKey(s, key, k, 0);
      Some(s[0])
    else
      var r := FindByKey(s[1..], key, k);
      assert forall i :: 1 <= i < |s| ==> s[i] == s[1..][i - 1];
      assert r.Some? ==> forall i :: IsFirstKey(s[1..], key, k, i) ==> IsFirstKey(s, key, k, i + 1);
      r
  }

  /** `s.reduce((acc, x) => acc + f(x), 0)`, folded from the left as `reduce` does. */
  function Sum<T>(s: seq<T>, f: T -> int): int {
    if s == [] then 0 else Sum(s[..|s| - 1], f) + f(s[|s| - 1])
  }

  /** `r` is `s` with some elements left out, the rest in their original order. */
  ghost predicate IsSubsequence<T>(r: seq<T>, s: seq<T>) {
    r == [] || (s != [] && ((r[0] == s[0] && IsSubsequence(r[1..], s[1..])) || IsSubsequence(r, s[1..])))
  }

  /** Filtering commutes with concatenation: the order of the survivors is the original order. */
  lemma {:induction false} FilterConcat<T(!new)>(a: seq<T>, b: seq<T>, p: T -> bool)
    ensures Filter(a + b, p) == Filter(a, p) + Filter(b, p)
  {
    if a == [] {
      assert a + b == b;
    } else {
      assert (a + b)[0] == a[0];
      assert (a + b)[1..] == a[1..] + b;
      FilterConcat(a[1..], b, p);
    }
  }

  /** The survivors of a filter form a subsequence of the input. */
  lemma {:induction false} FilterIsSubsequence<T(!new)>(s: seq<T>, p: T -> bool)
    ensures IsSubsequence(Filter(s, p), s)
  {
    if s != [] {
      FilterIsSubsequence(s[1..], p);
      if !p(s[0]) && Filter(s[1..], p) != [] {
        assert Filter(s, p) == Filter(s[1..], p);
      }
    }
  }

  /** Every element satisfying `p` survives as often as it occurs; no other element survives. */
  lemma {:induction false} FilterMultiplicity<T(!new)>(s: seq<T>, p: T -> bool, x: T)
    ensures multiset(Filter(s, p))[x] == if p(x) then multiset(s)[x] else 0
  {
    if s != [] {
      FilterMultiplicity(s[1..], p, x);
      assert s == [s[0]] + s[1..];
      assert multiset(s) == multiset([s[0]]) + multiset(s[1..]);
      if p(s[0]) {
        assert multiset(Filter(s, p)) == multiset([s[0]]) + multiset(Filter(s[1..], p));
      }
    }
  }

  /** A filter that every element passes is the identity. */
  lemma {:induction false} FilterKeepsAll<T(!new)>(s: seq<T>, p: T -> bool)
    ensures (forall i :: 0 <= i < |s| ==> p(s[i])) ==> Filter(s, p) == s
  {
    if s != [] && forall i :: 0 <= i < |s| ==> p(s[i]) {
      var tail := s[1..];
      assert forall i :: 0 <= i < |tail| ==> tail[i] == s[i + 1];
      FilterKeepsAll(tail, p);
      assert p(s[0]);
      assert Filter(s, p) == [s[0]] + Filter(tail, p);
      assert s == [s[0]] + tail;
    }
  }

  /** A sum over a concatenation is the sum of the two sums. */
  lemma {:induction false} SumConcat<T>(a: seq<T>, b: seq<T>, f: T -> int)
    ensures Sum(a + b, f) == Sum(a, f) + Sum(b, f)
  {
    if b == [] {
      assert a + b == a;
    } else {
      assert (a + b)[..|a + b| - 1] == a + b[..|b| - 1];
      SumConcat(a, b[..|b| - 1], f);
    }
  }

  /** Sum of a filter over a list extended by one element. */
  lemma SumFilterSnoc<T(!new)>(s: seq<T>, x: T, p: T -> bool, f: T -> int)
    ensures Sum(Filter(s + [x], p), f) == Sum(Filter(s, p), f) + (if p(x) then f(x) else 0)
  {
    FilterConcat(s, [x], p);
    assert Filter([x], p) == if p(x) then [x] else [];
    SumConcat(Filter(s, p), Filter([x], p), f);
  }

  /** Splitting a list by a predicate splits its sum. */
  lemma {:induction false} SumFilterComplement<T(!new)>(s: seq<T>, p: T -> bool, f: T -> int)
    ensures Sum(Filter(s, p), f) + Sum(Filter(s, Not(p)), f) == Sum(s, f)
  {
    if s != [] {
      var init, last := s[..|s| - 1], s[|s| - 1];
      assert s == init + [last];
      SumFilterComplement(init, p, f);
      SumFilterSnoc(init, last, p, f);
      SumFilterSnoc(init, last, Not(p), f);
    }
  }

  /** A sum of non-negative terms is non-negative. */
  lemma {:induction false} SumNonNegative<T(!new)>(s: seq<T>, f: T -> int)
    requires forall x :: x in s ==> f(x) >= 0
    ensures Sum(s, f) >= 0
  {
    if s != [] {
      assert forall x :: x in s[..|s| - 1] ==> x in s;
      SumNonNegative(s[..|s| - 1], f);
    }
  }

  /** With non-negative terms, a filtered sum never exceeds the full sum. */
  lemma SumFilterAtMost<T(!new)>(s: seq<T>, p: T -> bool, f: T -> int)
    requires forall x :: x in s ==> f(x) >= 0
    ensures 0 <= Sum(Filter(s, p), f) <= Sum(s, f)
  {
    SumNonNegative(Filter(s, p), f);
    SumNonNegative(Filter(s, Not(p)), f);
    SumFilterComplement(s, p, f);
  }
}
