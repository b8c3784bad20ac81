/** Sequence notions shared by the model: order-preserving subsequences and filtering. */
module Seqs {

  /** `r` can be obtained from `s` by deleting elements, keeping the order of the rest. */
  predicate IsSubsequence<T(==)>(r: seq<T>, s: seq<T>)
    decreases |s|
  {
    if r == [] then true
    else if s == [] then false
    else
      || (r[|r| - 1] == s[|s| - 1] && IsSubsequence(r[..|r| - 1], s[..|s| - 1]))
      || IsSubsequence(r, s[..|s| - 1])
  }

  lemma {:induction false} SubsequenceLength<T>(r: seq<T>, s: seq<T>)
    requires IsSubsequence(r, s)
    ensures |r| <= |s|
    decreases |s|
  {
    if r != [] {
      if r[|r| - 1] == s[|s| - 1] && IsSubsequence(r[..|r| - 1], s[..|s| - 1]) {
        SubsequenceLength(r[..|r| - 1], s[..|s| - 1]);
      } else {
        SubsequenceLength(r, s[..|s| - 1]);
      }
    }
  }

  lemma {:induction false} SubsequenceMembers<T>(r: seq<T>, s: seq<T>)
    requires IsSubsequence(r, s)
    ensures forall x :: x in r ==> x in s
    decreases |s|
  {
    if r != [] {
      if r[|r| - 1] == s[|s| - 1] && IsSubsequence(r[..|r| - 1], s[..|s| - 1]) {
        SubsequenceMembers(r[..|r| - 1], s[..|s| - 1]);
        assert r == r[..|r| - 1] + [r[|r| - 1]];
        assert s == s[..|s| - 1] + [s[|s| - 1]];
      } else {
        SubsequenceMembers(r, s[..|s| - 1]);
        assert s == s[..|s| - 1] + [s[|s| - 1]];
      }
    }
  }

  /** The elements of `s` that satisfy `p`, in their original order (a list comprehension with a condition). */
  function Filter<T>(s: seq<T>, p: T -> bool): (r: seq<T>)
    ensures |r| <= |s|
    ensures forall x :: x in r ==> x in s && p(x)
    decreases |s|
  {
    if s == [] then []
    else
      var init := Filter(s[..|s| - 1], p);
      if p(s[|s| - 1]) then init + [s[|s| - 1]] else init
  }

  lemma {:induction false} FilterIsSubsequence<T>(s: seq<T>, p: T -> bool)
    ensures IsSubsequence(Filter(s, p), s)
    decreases |s|
  {
    if s != [] {
      var init := Filter(s[..|s| - 1], p);
      FilterIsSubsequence(s[..|s| - 1], p);
      if p(s[|s| - 1]) {
        assert (init + [s[|s| - 1]])[..|init|] == init;
      } else if init != [] {
        assert IsSubsequence(init, s[..|s| - 1]);
      }
    }
  }

  /** Every element of `s` that satisfies `p` is kept. */
  lemma {:induction false} FilterKeeps<T>(s: seq<T>, p: T -> bool, x: T)
    requires x in s && p(x)
    ensures x in Filter(s, p)
    decreases |s|
  {
    if s[|s| - 1] != x {
      assert s == s[..|s| - 1] + [s[|s| - 1]];
      FilterKeeps(s[..|s| - 1], p, x);
    }
  }

  /** A filter no element passes keeps nothing. */
  lemma {:induction false} FilterNone<T>(s: seq<T>, p: T -> bool)
    requires forall x :: x in s ==> !p(x)
    ensures Filter(s, p) == []
    decreases |s|
  {
    if s != [] {
      assert s == s[..|s| - 1] + [s[|s| - 1]];
      FilterNone(s[..|s| - 1], p);
    }
  }

  /** A filter every element passes keeps everything. */
  lemma {:induction false} FilterAll<T>(s: seq<T>, p: T -> bool)
    requires forall x :: x in s ==> p(x)
    ensures Filter(s, p) == s
    decreases |s|
  {
    if s != [] {
      assert s == s[..|s| - 1] + [s[|s| - 1]];
      FilterAll(s[..|s| - 1], p);
    }
  }

  /** Filtering a list extended by one element. */
  lemma FilterSnoc<T>(s: seq<T>, x: T, p: T -> bool)
    ensures Filter(s + [x], p) == Filter(s, p) + (if p(x) then [x] else [])
  {
    assert (s + [x])[..|s|] == s;
  }

  lemma AppendAssoc<T>(a: seq<T>, b: seq<T>, c: seq<T>)
    ensures a + (b + c) == a + b + c
  {
  }

  /** Filtering a list that starts with `x`. */
  lemma FilterCons<T>(x: T, s: seq<T>, p: T -> bool)
    ensures Filter([x] + s, p) == (if p(x) then [x] else []) + Filter(s, p)
  {
    FilterAppend([x], s, p);
    assert [x] == [] + [x];
    FilterSnoc([], x, p);
  }

  lemma {:induction false} FilterAppend<T>(a: seq<T>, b: seq<T>, p: T -> bool)
    ensures Filter(a + b, p) == Filter(a, p) + Filter(b, p)
    decreases |b|
  {
    if b != [] {
      assert (a + b)[..|a + b| - 1] == a + b[..|b| - 1];
      FilterAppend(a, b[..|b| - 1], p);
    } else {
      assert a + b == a;
    }
  }

  lemma {:induction false} FilterMultiset<T>(s: seq<T>, p: T -> bool)
    ensures multiset(Filter(s, p)) <= multiset(s)
    ensures forall x :: x in multiset(s) && p(x) ==> multiset(Filter(s, p))[x] == multiset(s)[x]
    decreases |s|
  {
    if s != [] {
      FilterMultiset(s[..|s| - 1], p);
      assert s == s[..|s| - 1] + [s[|s| - 1]];
    }
  }

  /** The concatenation of `f(x)` for the elements `x` of `s`, in order (a loop that extends a list per element). */
  function FlatMap<T, U>(s: seq<T>, f: T -> seq<U>): seq<U>
    decreases |s|
  {
    if s == [] then [] else FlatMap(s[..|s| - 1], f) + f(s[|s| - 1])
  }

  lemma {:induction false} FlatMapAppend<T, U>(a: seq<T>, b: seq<T>, f: T -> seq<U>)
    ensures FlatMap(a + b, f) == FlatMap(a, f) + FlatMap(b, f)
    decreases |b|
  {
    if b == [] {
      assert a + b == a;
    } else {
      var b' := b[..|b| - 1];
      FlatMapAppend(a, b', f);
      assert (a + b)[..|a + b| - 1] == a + b';
    }
  }

  /** Rearranging the elements rearranges the result: only the multiset of elements matters, up to order. */
  lemma {:induction false} FlatMapPermutation<T, U>(xs: seq<T>, ys: seq<T>, f: T -> seq<U>)
    requires multiset(xs) == multiset(ys)
    ensures multiset(FlatMap(xs, f)) == multiset(FlatMap(ys, f))
    decreases |xs|
  {
    if xs == [] {
      assert |multiset(ys)| == 0;
    } else {
      var x := xs[|xs| - 1];
      var xs' := xs[..|xs| - 1];
      assert xs == xs' + [x];
      assert x in multiset(ys);
      var j :| 0 <= j < |ys| && ys[j] == x;
      var ys' := ys[..j] + ys[j + 1..];
      assert ys == ys[..j] + [x] + ys[j + 1..];
      assert multiset(ys') == multiset(ys) - multiset{x};
      FlatMapPermutation(xs', ys', f);
      FlatMapRemove(ys, j, f);
    }
  }

  /** Taking out the element at `j` takes out its piece of the result. */
  lemma FlatMapRemove<T, U>(ys: seq<T>, j: nat, f: T -> seq<U>)
    requires j < |ys|
    ensures multiset(FlatMap(ys, f)) == multiset(FlatMap(ys[..j] + ys[j + 1..], f)) + multiset(f(ys[j]))
  {
    var front, back, x := ys[..j], ys[j + 1..], ys[j];
    assert ys == front + [x] + back;
    FlatMapAppend(front + [x], back, f);
    assert (front + [x])[..|front|] == front;
    FlatMapAppend(front, back, f);
    var mid, rest := FlatMap(front, f), FlatMap(back, f);
    assert FlatMap(ys, f) == mid + f(x) + rest;
    assert multiset(mid + f(x) + rest) == multiset(mid) + multiset(f(x)) + multiset(rest);
  }

  /** `[0, 1, ..., n-1]` */
  function Indices(n: nat): (r: seq<nat>)
    ensures |r| == n && forall k :: 0 <= k < n ==> r[k] == k
  {
    seq(n, k => k)
  }
}
