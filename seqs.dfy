/**
 * `Array.prototype.filter`, `reduce` with `+` and `slice(0, n)`, and the
 * facts about them that the screens rely on.
 */
module Seqs {

  /** `s.filter(keep)`: the elements that pass, in their original order. */
  function Filter<T>(keep: T -> bool, s: seq<T>): (r: seq<T>)
    ensures |r| <= |s|
    ensures forall i :: 0 <= i < |r| ==> keep(r[i])
  {
    if s == [] then []
    else if keep(s[0]) then [s[0]] + Filter(keep, s[1..])
    else Filter(keep, s[1..])
  }

  /** `s.reduce((sum, x) => sum + f(x), 0)`. */
  function Sum<T>(f: T -> int, s: seq<T>): int {
    if s == [] then 0 else f(s[0]) + Sum(f, s[1..])
  }

  /** `s.slice(0, n)`: at most the first n elements. */
  function Take<T>(s: seq<T>, n: nat): (r: seq<T>)
    ensures |r| == if n < |s| then n else |s|
    ensures r <= s
  {
    if n < |s| then s[..n] else s
  }

  /** a is s with some elements left out and the rest kept in order. */
  predicate IsSubsequence<T(==)>(a: seq<T>, s: seq<T>)
    decreases |s|
  {
    if a == [] then true
    else if s == [] then false
    else if a[0] == s[0] then IsSubsequence(a[1..], s[1..])
    else IsSubsequence(a, s[1..])
  }

  lemma {:induction false} FilterIsSubsequence<T>(keep: T -> bool, s: seq<T>)
    ensures IsSubsequence(Filter(keep, s), s)
  {
    if s != [] {
      FilterIsSubsequence(keep, s[1..]);
      if !keep(s[0]) {
        SubsequenceCons(Filter(keep, s[1..]), s[1..], s[0]);
      }
    }
  }

  /** Putting one more element in front of s keeps a subsequence a subsequence. */
  lemma {:induction false} SubsequenceCons<T>(a: seq<T>, s: seq<T>, x: T)
    requires IsSubsequence(a, s)
    ensures IsSubsequence(a, [x] + s)
    decreases |s|, 1
  {
    var xs := [x] + s;
    assert xs[1..] == s;
    if a != [] && a[0] == x {
      SubsequenceTail(a, s);
    }
  }

  /** Dropping the first element of a subsequence leaves a subsequence. */
  lemma {:induction false} SubsequenceTail<T>(a: seq<T>, s: seq<T>)
    requires a != [] && IsSubsequence(a, s)
    ensures IsSubsequence(a[1..], s)
    decreases |s|, 0
  {
    if a[0] == s[0] {
      if a[1..] != [] {
        SubsequenceCons(a[1..], s[1..], s[0]);
        assert [s[0]] + s[1..] == s;
      }
    } else {
      SubsequenceTail(a, s[1..]);
      if a[1..] != [] {
        SubsequenceCons(a[1..], s[1..], s[0]);
        assert [s[0]] + s[1..] == s;
      }
    }
  }

  /** An element is kept exactly when it occurs in s and passes the test. */
  lemma {:induction false} FilterMembers<T>(keep: T -> bool, s: seq<T>)
    ensures forall x :: x in Filter(keep, s) <==> x in s && keep(x)
  {
    if s != [] {
      FilterMembers(keep, s[1..]);
      assert forall x :: x in s <==> x == s[0] || x in s[1..];
    }
  }

  /** When every element passes, the filter returns s unchanged. */
  lemma {:induction false} FilterAll<T>(keep: T -> bool, s: seq<T>)
    requires forall i :: 0 <= i < |s| ==> keep(s[i])
    ensures Filter(keep, s) == s
  {
    if s != [] {
      FilterAll(keep, s[1..]);
    }
  }

  /** Filtering distributes over concatenation. */
  lemma {:induction false} FilterAppend<T>(keep: T -> bool, a: seq<T>, b: seq<T>)
    ensures Filter(keep, a + b) == Filter(keep, a) + Filter(keep, b)
  {
    if a != [] {
      assert (a + b)[1..] == a[1..] + b;
      FilterAppend(keep, a[1..], b);
    } else {
      assert a + b == b;
    }
  }

  /**
   * When r passes exactly what passes p or q and no element passes both,
   * the sum over the r-filter splits into the sums over the p- and q-filters.
   */
  lemma {:induction false} SumFilterSplit<T>(f: T -> int, r: T -> bool, p: T -> bool, q: T -> bool, s: seq<T>)
    requires forall x :: r(x) == (p(x) || q(x))
    requires forall x :: !(p(x) && q(x))
    ensures Sum(f, Filter(r, s)) == Sum(f, Filter(p, s)) + Sum(f, Filter(q, s))
  {
    if s != [] {
      SumFilterSplit(f, r, p, q, s[1..]);
    }
  }

  /** Splitting by r, p and q as above also splits the lengths. */
  lemma {:induction false} LengthFilterSplit<T>(r: T -> bool, p: T -> bool, q: T -> bool, s: seq<T>)
    requires forall x :: r(x) == (p(x) || q(x))
    requires forall x :: !(p(x) && q(x))
    ensures |Filter(r, s)| == |Filter(p, s)| + |Filter(q, s)|
  {
    if s != [] {
      LengthFilterSplit(r, p, q, s[1..]);
    }
  }
}
