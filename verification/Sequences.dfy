/** Sums, filters and images of sequences, defined from the last element so that they follow
    appended rows and records. */
module Sequences {

  function Sum<T>(s: seq<T>, f: T -> int): int {
    if s == [] then 0 else Sum(s[..|s| - 1], f) + f(s[|s| - 1])
  }

  function Filter<T>(s: seq<T>, p: T -> bool): seq<T> {
    if s == [] then []
    else Filter(s[..|s| - 1], p) + if p(s[|s| - 1]) then [s[|s| - 1]] else []
  }

  function Image<T, U>(s: seq<T>, f: T -> U): (r: seq<U>)
    ensures |r| == |s| && forall i :: 0 <= i < |s| ==> r[i] == f(s[i])
  {
    seq(|s|, i requires 0 <= i < |s| => f(s[i]))
  }

  lemma SumAppend<T>(s: seq<T>, x: T, f: T -> int)
    ensures Sum(s + [x], f) == Sum(s, f) + f(x)
  {
    assert (s + [x])[..|s|] == s;
  }

  lemma FilterAppend<T>(s: seq<T>, x: T, p: T -> bool)
    ensures Filter(s + [x], p) == Filter(s, p) + if p(x) then [x] else []
  {
    assert (s + [x])[..|s|] == s;
  }

  lemma ImageAppend<T, U>(s: seq<T>, x: T, f: T -> U)
    ensures Image(s + [x], f) == Image(s, f) + [f(x)]
  {}

  lemma {:induction false} SumPointwise<T, U>(s: seq<T>, f: T -> int, t: seq<U>, g: U -> int)
    requires |s| == |t| && forall i :: 0 <= i < |s| ==> f(s[i]) == g(t[i])
    ensures Sum(s, f) == Sum(t, g)
  {
    if s != [] {
      SumPointwise(s[..|s| - 1], f, t[..|t| - 1], g);
    }
  }

  /** If each element of `t` contributes the sum of two amounts of `s`, so does the total. */
  lemma {:induction false} SumSplit<T, U>(s: seq<T>, f: T -> int, g: T -> int, t: seq<U>, h: U -> int)
    requires |s| == |t| && forall i :: 0 <= i < |s| ==> h(t[i]) == f(s[i]) + g(s[i])
    ensures Sum(t, h) == Sum(s, f) + Sum(s, g)
  {
    if s != [] {
      SumSplit(s[..|s| - 1], f, g, t[..|t| - 1], h);
    }
  }

  lemma {:induction false} FilterMember<T>(s: seq<T>, p: T -> bool, x: T)
    ensures x in Filter(s, p) <==> x in s && p(x)
  {
    if s != [] {
      FilterMember(s[..|s| - 1], p, x);
      assert s == s[..|s| - 1] + [s[|s| - 1]];
    }
  }

  /* ---- iteration ---- */

  function Iterate<T>(f: T -> T, x: T, k: nat): T
    decreases k
  {
    if k == 0 then x else Iterate(f, f(x), k - 1)
  }

  lemma {:induction false} IterateTwice<T>(f: T -> T, x: T, i: nat, j: nat)
    ensures Iterate(f, Iterate(f, x, i), j) == Iterate(f, x, i + j)
    decreases i
  {
    if i > 0 {
      IterateTwice(f, f(x), i - 1, j);
    }
  }

  lemma {:induction false} IterateFixed<T>(f: T -> T, x: T, k: nat)
    requires f(x) == x
    ensures Iterate(f, x, k) == x
    decreases k
  {
    if k > 0 {
      IterateFixed(f, x, k - 1);
    }
  }

  /** If g is n times f then k times g is k * n times f. */
  lemma {:induction false} IterateProduct<T(!new)>(f: T -> T, g: T -> T, n: nat, x: T, k: nat)
    requires forall y :: g(y) == Iterate(f, y, n)
    ensures k * n >= 0 && Iterate(g, x, k) == Iterate(f, x, k * n)
    decreases k
  {
    if k > 0 {
      IterateProduct(f, g, n, g(x), k - 1);
      IterateTwice(f, x, n, (k - 1) * n);
      assert k * n == n + (k - 1) * n;
    }
  }
}
