/** Sums and counts over sequences. */
module Sums {

  function IntSum<T>(s: seq<T>, f: T -> int): int
  {
    if s == [] then 0 else IntSum(s[..|s| - 1], f) + f(s[|s| - 1])
  }

  function RealSum<T>(s: seq<T>, f: T -> real): real
  {
    if s == [] then 0.0 else RealSum(s[..|s| - 1], f) + f(s[|s| - 1])
  }

  function CountIf<T>(s: seq<T>, p: T -> bool): nat
  {
    if s == [] then 0 else CountIf(s[..|s| - 1], p) + if p(s[|s| - 1]) then 1 else 0
  }

  // Sums are determined by these laws: one element, and two sequences one after the other.

  lemma {:induction false} IntSumLaws<T>(a: seq<T>, b: seq<T>, x: T, f: T -> int)
    ensures IntSum([], f) == 0 && IntSum([x], f) == f(x)
    ensures IntSum(a + b, f) == IntSum(a, f) + IntSum(b, f)
    decreases |b|
  {
    if b == [] {
      assert a + b == a;
    } else {
      IntSumLaws(a, b[..|b| - 1], x, f);
      assert (a + b)[..|a + b| - 1] == a + b[..|b| - 1];
    }
  }

  lemma {:induction false} RealSumLaws<T>(a: seq<T>, b: seq<T>, x: T, f: T -> real)
    ensures RealSum([], f) == 0.0 && RealSum([x], f) == f(x)
    ensures RealSum(a + b, f) == RealSum(a, f) + RealSum(b, f)
    decreases |b|
  {
    if b == [] {
      assert a + b == a;
    } else {
      RealSumLaws(a, b[..|b| - 1], x, f);
      assert (a + b)[..|a + b| - 1] == a + b[..|b| - 1];
    }
  }

  lemma RealSumSnoc<T>(s: seq<T>, x: T, f: T -> real)
    ensures RealSum(s + [x], f) == RealSum(s, f) + f(x)
  {
    RealSumLaws(s, [x], x, f);
  }

  lemma CountOne<T>(x: T, p: T -> bool)
    ensures CountIf([x], p) == if p(x) then 1 else 0
  {
    assert [x][..0] == [] && CountIf([], p) == 0;
  }

  /** The positions at which p holds. */
  function Where<T>(s: seq<T>, p: T -> bool): set<int>
  {
    set i | 0 <= i < |s| && p(s[i])
  }

  lemma {:induction false} CountIsCardinality<T>(s: seq<T>, p: T -> bool)
    ensures CountIf(s, p) == |Where(s, p)|
  {
    if s != [] {
      var n := |s| - 1;
      CountIsCardinality(s[..n], p);
      assert Where(s, p) == Where(s[..n], p) + if p(s[n]) then {n} else {};
    }
  }
}
