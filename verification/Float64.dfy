/** float64 arithmetic on non-negative values: reals plus the rounding of section 4.3.1 of IEEE 754-2019
    (roundTiesToEven), with an unbounded exponent range. */
module Float64 {

  const TWO52: real := 4503599627370496.0
  const TWO53: real := 9007199254740992.0
  const TWO53_INT: int := 9007199254740992

  /** Nearest integer, ties to the even one. */
  function HalfEven(x: real): (n: int)
    requires x >= 0.0
    ensures n as real - 0.5 <= x <= n as real + 0.5
    ensures x == n as real - 0.5 || x == n as real + 0.5 ==> n % 2 == 0
  {
    var f := x.Floor;
    var d := x - f as real;
    if d < 0.5 || (d == 0.5 && f % 2 == 0) then f else f + 1
  }

  function Doublings(x: real): (n: nat)
    requires x >= 0.0
  {
    if x == 0.0 then 0
    else if x < TWO52 then (TWO52 / x).Floor
    else if x >= TWO53 then x.Floor
    else 0
  }

  lemma DoublingsUp(x: real)
    requires 0.0 < x < TWO52
    ensures Doublings(2.0 * x) < Doublings(x)
  {
    var q := TWO52 / x;
    assert q * x == TWO52;
    assert q > 1.0;
    assert TWO52 / (2.0 * x) == q / 2.0;
  }

  /** Rounding to 53 significant bits: scale into [2^52, 2^53), round to an integer, scale back. */
  function Round(x: real): (r: real)
    requires x >= 0.0
    ensures r >= 0.0
    decreases Doublings(x)
  {
    if x == 0.0 then 0.0
    else if x < TWO52 then DoublingsUp(x); Round(2.0 * x) / 2.0
    else if x >= TWO53 then 2.0 * Round(x / 2.0)
    else HalfEven(x) as real
  }

  // Scaling by powers of two commutes with rounding.

  /** x * 2^k */
  function Scale(x: real, k: nat): (r: real)
    requires x >= 0.0
    ensures r >= x
  {
    if k == 0 then x else 2.0 * Scale(x, k - 1)
  }

  lemma RoundDouble(x: real)
    requires x >= 0.0
    ensures Round(2.0 * x) == 2.0 * Round(x)
  {
    if x == 0.0 {
    } else if x < TWO52 {
    } else {
      assert 2.0 * x / 2.0 == x;
    }
  }

  lemma {:induction false} RoundScale(x: real, k: nat)
    requires x >= 0.0
    ensures Round(Scale(x, k)) == Scale(Round(x), k)
  {
    if k > 0 {
      RoundScale(x, k - 1);
      RoundDouble(Scale(x, k - 1));
    }
  }

  lemma {:induction false} ScaleAdd(x: real, j: nat, k: nat)
    requires x >= 0.0
    ensures Scale(Scale(x, j), k) == Scale(x, j + k)
  {
    if k > 0 { ScaleAdd(x, j, k - 1); }
  }

  lemma Scale10(x: real)
    requires x >= 0.0
    ensures Scale(x, 10) == 1024.0 * x
  {
    assert Scale(x, 1) == 2.0 * x;
    assert Scale(x, 2) == 4.0 * x;
    assert Scale(x, 3) == 8.0 * x;
    assert Scale(x, 4) == 16.0 * x;
    assert Scale(x, 5) == 32.0 * x;
    assert Scale(x, 6) == 64.0 * x;
    assert Scale(x, 7) == 128.0 * x;
    assert Scale(x, 8) == 256.0 * x;
    assert Scale(x, 9) == 512.0 * x;
  }

  lemma Scale50(x: real)
    requires x >= 0.0
    ensures Scale(x, 50) == 1125899906842624.0 * x
  {
    Scale30(x);
    ScaleAdd(x, 30, 10);
    Scale10(1073741824.0 * x);
    ScaleAdd(x, 40, 10);
    Scale10(1099511627776.0 * x);
  }

  lemma Scale30(x: real)
    requires x >= 0.0
    ensures Scale(x, 30) == 1073741824.0 * x
  {
    Scale10(x);
    ScaleAdd(x, 10, 10);
    Scale10(1024.0 * x);
    ScaleAdd(x, 20, 10);
    Scale10(1048576.0 * x);
  }

  // Error of one rounding.

  lemma {:induction false} RelativeError(x: real)
    requires x >= 0.0
    ensures x - x / TWO53 <= Round(x) <= x + x / TWO53
    decreases Doublings(x)
  {
    if x == 0.0 {
    } else if x < TWO52 {
      DoublingsUp(x);
      RelativeError(2.0 * x);
    } else if x >= TWO53 {
      RelativeError(x / 2.0);
    }
  }

  // Exactness.

  lemma {:induction false} IntegerExact(n: int)
    requires 0 <= n <= TWO53_INT
    ensures Round(n as real) == n as real
    decreases TWO53_INT - n
  {
    if 0 < n && 2 * n <= TWO53_INT {
      IntegerExact(2 * n);
      RoundDouble(n as real);
    } else if n == TWO53_INT {
      RoundDouble(TWO52);
      assert HalfEven(TWO52) as real == TWO52;
    }
  }

  // Round is the rounding of the standard: its value is a float64, and no float64 is nearer.

  /** f * 2^j == m * 2^k for a significand m of at most 53 bits. */
  ghost predicate HasSignificand(f: real, m: int, j: nat, k: nat)
  {
    f >= 0.0 && 0 <= m <= TWO53_INT && Scale(f, j) == Scale(m as real, k)
  }

  ghost predicate IsFloat(f: real)
  {
    exists m: int, j: nat, k: nat :: HasSignificand(f, m, j, k)
  }

  function Distance(x: real, y: real): (d: real)
    ensures d >= 0.0
  {
    if x <= y then y - x else x - y
  }

  lemma FloatDouble(f: real)
    requires f >= 0.0
    ensures IsFloat(f) <==> IsFloat(2.0 * f)
  {
    if IsFloat(f) {
      var m: int, j: nat, k: nat :| HasSignificand(f, m, j, k);
      ScaleAdd(f, 1, j);
      assert Scale(f, 1) == 2.0 * f;
      assert HasSignificand(2.0 * f, m, j, k + 1);
    }
    if IsFloat(2.0 * f) {
      var m: int, j: nat, k: nat :| HasSignificand(2.0 * f, m, j, k);
      ScaleAdd(f, 1, j);
      assert Scale(f, 1) == 2.0 * f;
      assert HasSignificand(f, m, j + 1, k);
    }
  }

  lemma {:induction false} RoundIsFloat(x: real)
    requires x >= 0.0
    ensures IsFloat(Round(x))
    decreases Doublings(x)
  {
    if x == 0.0 {
      assert HasSignificand(0.0, 0, 0, 0);
    } else if x < TWO52 {
      DoublingsUp(x);
      RoundIsFloat(2.0 * x);
      FloatDouble(Round(x));
    } else if x >= TWO53 {
      RoundIsFloat(x / 2.0);
      FloatDouble(Round(x / 2.0));
    } else {
      assert HasSignificand(Round(x), HalfEven(x), 0, 0);
    }
  }

  lemma {:induction false} ScaleInjective(a: real, b: real, k: nat)
    requires a >= 0.0 && b >= 0.0 && Scale(a, k) == Scale(b, k)
    ensures a == b
  {
    if k > 0 { ScaleInjective(a, b, k - 1); }
  }

  lemma {:induction false} ScaleInteger(m: nat, k: nat) returns (n: nat)
    ensures Scale(m as real, k) == n as real
  {
    n := m;
    if k > 0 {
      n := ScaleInteger(m, k - 1);
      n := 2 * n;
    }
  }

  /** A float64 is an integer or lies at or below 2^52. */
  lemma FloatIsIntegerOrSmall(f: real) returns (n: nat)
    requires f >= 0.0 && IsFloat(f)
    ensures f == n as real || f <= TWO52
  {
    var m: int, j: nat, k: nat :| HasSignificand(f, m, j, k);
    if j <= k {
      ScaleAdd(m as real, k - j, j);
      ScaleInjective(f, Scale(m as real, k - j), j);
      n := ScaleInteger(m, k - j);
    } else {
      ScaleAdd(f, j - k, k);
      ScaleInjective(Scale(f, j - k), m as real, k);
      n := 0;
    }
  }

  lemma NearestInteger(x: real, n: int)
    requires x >= 0.0
    ensures Distance(x, HalfEven(x) as real) <= Distance(x, n as real)
  {
    var r := HalfEven(x);
    if n < r { assert n as real <= r as real - 1.0; }
    if n > r { assert n as real >= r as real + 1.0; }
  }

  lemma NearestFloat(x: real, f: real)
    requires TWO52 <= x < TWO53 && f >= 0.0 && IsFloat(f)
    ensures Distance(x, HalfEven(x) as real) <= Distance(x, f)
  {
    var n := FloatIsIntegerOrSmall(f);
    NearestInteger(x, n);
    NearestInteger(x, 4503599627370496);
  }

  lemma {:induction false} RoundIsNearest(x: real, f: real)
    requires x >= 0.0 && f >= 0.0 && IsFloat(f)
    ensures Distance(x, Round(x)) <= Distance(x, f)
    decreases Doublings(x)
  {
    if x == 0.0 {
    } else if x < TWO52 {
      DoublingsUp(x);
      FloatDouble(f);
      RoundIsNearest(2.0 * x, 2.0 * f);
    } else if x >= TWO53 {
      FloatDouble(f / 2.0);
      RoundIsNearest(x / 2.0, f / 2.0);
    } else {
      NearestFloat(x, f);
    }
  }

  /** Rounding does not cross an integer of at most 53 bits. */
  lemma RoundKeepsIntegerBound(x: real, n: nat)
    requires n as real <= x && n <= TWO53_INT
    ensures n as real <= Round(x)
  {
    assert HasSignificand(n as real, n, 0, 0);
    RoundIsNearest(x, n as real);
  }
}
