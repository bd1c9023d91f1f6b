/// Vocabulary shared by every part of the model: optional values (JavaScript's
/// `null`/`undefined`), sums over record lists in `reduce` order, prefixes taken
/// with `slice(0, n)`, and order-preserving sub-lists (what `filter` yields).
module Basics {

  /** A value that may be absent: `null` or `undefined` in the source. */
  datatype Option<+T> = None | Some(value: T)

  function Min(a: int, b: int): int
  {
    if a <= b then a else b
  }

  /** `xs.reduce((sum, x) => sum + f(x), 0)`: a left fold, so the last element is added last. */
  function SumBy<T>(xs: seq<T>, f: T -> int): int
  {
    if xs == [] then 0 else SumBy(xs[..|xs| - 1], f) + f(xs[|xs| - 1])
  }

  /** Sums distribute over concatenation, so a fold may be split at any point. */
  lemma {:induction false} SumByAppend<T>(a: seq<T>, b: seq<T>, f: T -> int)
    ensures SumBy(a + b, f) == SumBy(a, f) + SumBy(b, f)
    decreases |b|
  {
    if b == [] {
      assert a + b == a;
    } else {
      assert (a + b)[..|a + b| - 1] == a + b[..|b| - 1];
      SumByAppend(a, b[..|b| - 1], f);
    }
  }

  /** A sum of non-negative terms is non-negative. */
  lemma {:induction false} SumByNonNegative<T>(xs: seq<T>, f: T -> int)
    requires forall x :: x in xs ==> f(x) >= 0
    ensures SumBy(xs, f) >= 0
    decreases |xs|
  {
    if xs != [] {
      SumByNonNegative(xs[..|xs| - 1], f);
    }
  }

  /**
   * `a` is `b` with some elements deleted, the rest kept in order: either the
   * last elements of both are matched, or the last element of `b` is dropped.
   */
  ghost predicate IsSubsequence<T>(a: seq<T>, b: seq<T>)
    decreases |b|
  {
    if a == [] then true
    else if b == [] then false
    else (a[|a| - 1] == b[|b| - 1] && IsSubsequence(a[..|a| - 1], b[..|b| - 1]))
         || IsSubsequence(a, b[..|b| - 1])
  }

  /** A sub-list stays one when the list grows. */
  lemma SubsequenceOfLonger<T>(a: seq<T>, b: seq<T>, x: T)
    requires IsSubsequence(a, b)
    ensures IsSubsequence(a, b + [x])
  {
    assert (b + [x])[..|b|] == b;
  }

  /** Appending the same element to both keeps a sub-list one. */
  lemma SubsequenceSnoc<T>(a: seq<T>, b: seq<T>, x: T)
    requires IsSubsequence(a, b)
    ensures IsSubsequence(a + [x], b + [x])
  {
    assert (a + [x])[..|a|] == a;
    assert (b + [x])[..|b|] == b;
  }

  /** With non-negative terms, a sub-list never sums to more than the whole list. */
  lemma {:induction false} SumBySubsequence<T>(a: seq<T>, b: seq<T>, f: T -> int)
    requires IsSubsequence(a, b)
    requires forall x :: x in b ==> f(x) >= 0
    ensures SumBy(a, f) <= SumBy(b, f)
    decreases |b|
  {
    if a == [] {
      SumByNonNegative(b, f);
    } else {
      var b' := b[..|b| - 1];
      assert forall x :: x in b' ==> x in b;
      if a[|a| - 1] == b[|b| - 1] && IsSubsequence(a[..|a| - 1], b') {
        SumBySubsequence(a[..|a| - 1], b', f);
      } else {
        SumBySubsequence(a, b', f);
      }
    }
  }

  /** Taking out the element at `k` takes its term out of the sum. */
  lemma {:induction false} SumByRemove<T>(b: seq<T>, k: int, f: T -> int)
    requires 0 <= k < |b|
    ensures SumBy(b, f) == SumBy(b[..k] + b[k + 1..], f) + f(b[k])
  {
    var front, x, back := b[..k], b[k], b[k + 1..];
    assert b == front + ([x] + back);
    SumByAppend(front, [x] + back, f);
    SumByAppend([x], back, f);
    SumByAppend(front, back, f);
    assert [x][..0] == [];
  }

  /** Removing the element at `k` removes one occurrence of it. */
  lemma RemoveOne<T>(s: seq<T>, k: int)
    requires 0 <= k < |s|
    ensures multiset(s) == multiset(s[..k] + s[k + 1..]) + multiset{s[k]}
  {
    assert s == s[..k] + [s[k]] + s[k + 1..];
  }

  /** The last element of `a` occurs in a permutation `b` of it; without them the rest are still permutations. */
  lemma MatchLast<T>(a: seq<T>, b: seq<T>) returns (k: int)
    requires a != [] && multiset(a) == multiset(b)
    ensures 0 <= k < |b| && b[k] == a[|a| - 1]
    ensures multiset(a[..|a| - 1]) == multiset(b[..k] + b[k + 1..])
  {
    var last := a[|a| - 1];
    assert last in multiset(b) by {
      assert last in a;
    }
    k :| 0 <= k < |b| && b[k] == last;
    var front, rest := multiset(a[..|a| - 1]), multiset(b[..k] + b[k + 1..]);
    RemoveOne(b, k);
    assert a == a[..|a| - 1] + [last];
    assert front + multiset{last} == rest + multiset{last};
    forall x
      ensures front[x] == rest[x]
    {
      assert (front + multiset{last})[x] == (rest + multiset{last})[x];
    }
    assert front == rest;
  }

  /** Sums do not depend on the order of the terms. */
  lemma {:induction false} SumByPermutation<T>(a: seq<T>, b: seq<T>, f: T -> int)
    requires multiset(a) == multiset(b)
    ensures SumBy(a, f) == SumBy(b, f)
    decreases |a|
  {
    if a == [] {
      assert |b| == |multiset(b)|;
    } else {
      var k := MatchLast(a, b);
      SumByPermutation(a[..|a| - 1], b[..k] + b[k + 1..], f);
      SumByRemove(b, k, f);
    }
  }

  /** `xs || []`: the rows a query returned, with `null` read as no rows. */
  function OrEmpty<T>(xs: Option<seq<T>>): seq<T>
  {
    if xs.Some? then xs.value else []
  }

  /** `s.slice(0, n)`: the first `n` elements, or all of them when there are fewer. */
  function Take<T>(s: seq<T>, n: nat): (r: seq<T>)
    ensures |r| == Min(n, |s|)
    ensures forall i :: 0 <= i < |r| ==> r[i] == s[i]
  {
    if |s| <= n then s else s[..n]
  }
}
