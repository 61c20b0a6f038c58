/** Order-preserving filtering and left-to-right summation over sequences: the
    `Array.prototype.filter` and `reduce((acc, x) => acc + f(x), 0)` idioms that the
    cost engine and the pages use. */
module Folds {

  /** The elements of `s` that satisfy `p`, in their original order. */
  function Filter<T(!new)>(p: T -> bool, s: seq<T>): (r: seq<T>)
    ensures |r| <= |s|
    ensures forall x :: x in r <==> x in s && p(x)
    ensures forall i :: 0 <= i < |r| ==> p(r[i])
  {
    if s == [] then [] else (if p(s[0]) then [s[0]] else []) + Filter(p, s[1..])
  }

  /** Filtering distributes over concatenation, so the relative order of kept elements is unchanged. */
  lemma {:induction false} FilterAppend<T(!new)>(p: T -> bool, a: seq<T>, b: seq<T>)
    ensures Filter(p, a + b) == Filter(p, a) + Filter(p, b)
  {
    if a == [] {
      assert a + b == b;
    } else {
      assert (a + b)[0] == a[0];
      assert (a + b)[1..] == a[1..] + b;
      FilterAppend(p, a[1..], b);
    }
  }

  /** When every element passes, filtering is the identity. */
  lemma {:induction false} FilterKeepsAll<T(!new)>(p: T -> bool, s: seq<T>)
    requires forall i :: 0 <= i < |s| ==> p(s[i])
    ensures Filter(p, s) == s
  {
    if s != [] {
      FilterKeepsAll(p, s[1..]);
    }
  }

  /** Dropping the one element that fails, between two runs that pass, leaves the two runs. */
  lemma FilterAround<T(!new)>(p: T -> bool, a: seq<T>, x: T, b: seq<T>)
    requires forall i :: 0 <= i < |a| ==> p(a[i])
    requires !p(x)
    requires forall i :: 0 <= i < |b| ==> p(b[i])
    ensures Filter(p, a + [x] + b) == a + b
  {
    assert Filter(p, [x]) == [] by {
      assert [x][1..] == [];
    }
    calc {
      Filter(p, a + [x] + b);
      { FilterAppend(p, a + [x], b); }
      Filter(p, a + [x]) + Filter(p, b);
      { FilterAppend(p, a, [x]); }
      Filter(p, a) + Filter(p, [x]) + Filter(p, b);
      { FilterKeepsAll(p, a); FilterKeepsAll(p, b); }
      a + [] + b;
      { assert a + [] == a; }
      a + b;
    }
  }

  /** Filtering keeps every occurrence of a passing element and none of a failing one. */
  lemma {:induction false} FilterMultiset<T(!new)>(p: T -> bool, s: seq<T>)
    ensures forall x :: multiset(Filter(p, s))[x] == if p(x) then multiset(s)[x] else 0
  {
    if s != [] {
      FilterMultiset(p, s[1..]);
      assert s == [s[0]] + s[1..];
      assert multiset(s) == multiset([s[0]]) + multiset(s[1..]);
      var head := if p(s[0]) then [s[0]] else [];
      assert multiset(Filter(p, s)) == multiset(head) + multiset(Filter(p, s[1..]));
    }
  }

  /** Filtering twice with the same predicate is filtering once. */
  lemma FilterIdempotent<T(!new)>(p: T -> bool, s: seq<T>)
    ensures Filter(p, Filter(p, s)) == Filter(p, s)
  {
    FilterKeepsAll(p, Filter(p, s));
  }

  /** Left fold `acc + f(x)` starting from 0, exactly as `reduce` evaluates it. */
  function Sum<T>(f: T -> real, s: seq<T>): (r: real)
    ensures s == [] ==> r == 0.0
    ensures |s| == 1 ==> r == f(s[0])
  {
    if s == [] then 0.0 else Sum(f, s[..|s| - 1]) + f(s[|s| - 1])
  }

  /** A sum of non-negative values is non-negative. */
  lemma {:induction false} SumNonNegative<T>(f: T -> real, s: seq<T>)
    requires forall i :: 0 <= i < |s| ==> f(s[i]) >= 0.0
    ensures Sum(f, s) >= 0.0
  {
    if s != [] {
      SumNonNegative(f, s[..|s| - 1]);
    }
  }

  /** The sum over a concatenation is the sum of the two parts. */
  lemma {:induction false} SumAppend<T>(f: T -> real, a: seq<T>, b: seq<T>)
    ensures Sum(f, a + b) == Sum(f, a) + Sum(f, b)
  {
    if b == [] {
      assert a + b == a;
    } else {
      var n := |b| - 1;
      assert (a + b)[..|a + b| - 1] == a + b[..n];
      assert (a + b)[|a + b| - 1] == b[n];
      SumAppend(f, a, b[..n]);
    }
  }

  /** The sum of a single element is that element's value. */
  lemma SumSingleton<T>(f: T -> real, x: T)
    ensures Sum(f, [x]) == f(x)
  {
    assert [x][..0] == [];
  }

  /** The sum around a single element splits into the part before, the element and the part after. */
  lemma SumAround<T>(f: T -> real, a: seq<T>, x: T, b: seq<T>)
    ensures Sum(f, a + [x] + b) == Sum(f, a) + f(x) + Sum(f, b)
  {
    SumAppend(f, a + [x], b);
    SumAppend(f, a, [x]);
    SumSingleton(f, x);
  }

  /** Replacing one element changes the sum by exactly the difference of the two values. */
  lemma SumUpdate<T>(f: T -> real, s: seq<T>, i: nat, y: T)
    requires i < |s|
    ensures Sum(f, s[i := y]) == Sum(f, s) - f(s[i]) + f(y)
  {
    var a, b := s[..i], s[i + 1..];
    assert s == a + [s[i]] + b;
    assert s[i := y] == a + [y] + b;
    SumAround(f, a, s[i], b);
    SumAround(f, a, y, b);
  }

  /** Removing one element lowers the sum by exactly that element's value. */
  lemma SumRemove<T>(f: T -> real, a: seq<T>, x: T, b: seq<T>)
    ensures Sum(f, a + b) == Sum(f, a + [x] + b) - f(x)
  {
    SumAround(f, a, x, b);
    SumAppend(f, a, b);
  }

  /** Sums are monotone in the summand: pointwise `f <= g` gives `Sum(f) <= Sum(g)`. */
  lemma {:induction false} SumMonotone<T>(f: T -> real, g: T -> real, s: seq<T>)
    requires forall i :: 0 <= i < |s| ==> f(s[i]) <= g(s[i])
    ensures Sum(f, s) <= Sum(g, s)
  {
    if s != [] {
      SumMonotone(f, g, s[..|s| - 1]);
    }
  }

  /** Two summands that agree on every element give the same sum. */
  lemma {:induction false} SumCongruent<T>(f: T -> real, g: T -> real, s: seq<T>)
    requires forall i :: 0 <= i < |s| ==> f(s[i]) == g(s[i])
    ensures Sum(f, s) == Sum(g, s)
  {
    if s != [] {
      SumCongruent(f, g, s[..|s| - 1]);
    }
  }

  function Max(a: real, b: real): (r: real)
    ensures r >= a && r >= b && (r == a || r == b)
  {
    if a >= b then a else b
  }
}
