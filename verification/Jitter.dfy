/** Lifetime given to a cached kubeconfig: the configured TTL, spread by a random number of minutes. */
module Jitter {
  import opened Domain
  import opened Float64

  /** Durations are in nanoseconds. */
  const MINUTE: int := 60_000_000_000
  const MAX_DURATION: int := 0x7fff_ffff_ffff_ffff

  /** time.Duration.Minutes: whole minutes plus the fraction, in float64. */
  function Minutes(ttl: nat): (m: real)
    ensures m >= 0.0
  {
    Round(Round((ttl / MINUTE) as real) + Round(Round((ttl % MINUTE) as real) / 60_000_000_000.0))
  }

  /** The float64 nearest to 0.3. */
  function JitterFactor(): (f: real)
    ensures f >= 0.0
  {
    Round(0.3)
  }

  function Multiply(x: real, y: real): (p: real)
    requires x >= 0.0 && y >= 0.0
    ensures p >= 0.0
  {
    Round(x * y)
  }

  function Buffer(ttl: nat): nat
  {
    Multiply(Minutes(ttl), JitterFactor()).Floor
  }

  /** Multiplication of durations wraps around in 64 bits. */
  function Wrapped(d: int): (r: int)
    ensures -MAX_DURATION - 1 <= r <= MAX_DURATION
    ensures -MAX_DURATION - 1 <= d <= MAX_DURATION ==> r == d
    ensures MAX_DURATION < d <= 2 * MAX_DURATION ==> r < 0
  {
    (d + MAX_DURATION + 1) % (2 * MAX_DURATION + 2) - MAX_DURATION - 1
  }

  /** getJitterTTL; `draw` is the value rand.Int63n(buffer) returns. None is its panic on an empty range. */
  function JitterTTL(ttl: int, draw: nat): Option<int>
  {
    if ttl < 3 * MINUTE then Some(ttl)
    else if Buffer(ttl) == 0 then None
    else Some(Wrapped((draw + Minutes(ttl).Floor) * MINUTE))
  }

  /** What rand.Int63n promises of its result. */
  predicate Drawn(ttl: int, draw: nat)
  {
    3 * MINUTE <= ttl && Buffer(ttl) > 0 ==> draw < Buffer(ttl)
  }

  // Error bounds.

  function ExactMinutes(ttl: nat): real
  {
    ttl as real / 60_000_000_000.0
  }

  lemma MinutesError(ttl: nat)
    requires ttl <= MAX_DURATION
    ensures var m := ExactMinutes(ttl);
            && m - 3.0 * m / TWO53 <= Minutes(ttl) <= m + 3.0 * m / TWO53
            && (ttl / MINUTE) as real <= Minutes(ttl)
  {
    var whole, nsec := ttl / MINUTE, ttl % MINUTE;
    IntegerExact(whole);
    IntegerExact(nsec);
    var frac := nsec as real / 60_000_000_000.0;
    assert ExactMinutes(ttl) == whole as real + frac;
    RelativeError(frac);
    var sum := whole as real + Round(frac);
    RelativeError(sum);
    RoundKeepsIntegerBound(sum, whole);
  }

  lemma FactorError()
    ensures 0.3 - 0.3 / TWO53 <= JitterFactor() <= 0.3 + 0.3 / TWO53
  {
    RelativeError(0.3);
  }

  lemma MulBounds(x: real, y: real, lo: real, hi: real)
    requires 0.0 <= x && lo <= y <= hi
    ensures x * lo <= x * y <= x * hi
  {
  }

  lemma Product(x: real, f: real, p: real)
    requires 0.0 <= x && 0.3 - 0.3 / TWO53 <= f <= 0.3 + 0.3 / TWO53 && p == x * f
    ensures 0.3 * x - 0.3 * x / TWO53 <= p <= 0.3 * x + 0.3 * x / TWO53
  {
    MulBounds(x, f, 0.3 - 0.3 / TWO53, 0.3 + 0.3 / TWO53);
  }

  lemma ProductError(e: real, m: real, f: real)
    requires e >= 0.0 && e - 3.0 * e / TWO53 <= m <= e + 3.0 * e / TWO53
    requires 0.3 - 0.3 / TWO53 <= f <= 0.3 + 0.3 / TWO53
    ensures m >= 0.0 && f >= 0.0 && 0.3 * e - 2.0 * e / TWO53 <= Multiply(m, f) <= 0.3 * e + 2.0 * e / TWO53
  {
    var p := m * f;
    assert m >= 0.0;
    Product(m, f, p);
    Chain(e, m, p);
  }

  lemma Chain(e: real, m: real, p: real)
    requires e >= 0.0 && e - 3.0 * e / TWO53 <= m <= e + 3.0 * e / TWO53
    requires 0.3 * m - 0.3 * m / TWO53 <= p <= 0.3 * m + 0.3 * m / TWO53
    ensures p >= 0.0 && 0.3 * e - 2.0 * e / TWO53 <= Round(p) <= 0.3 * e + 2.0 * e / TWO53
  {
    assert p >= 0.0;
    RelativeError(p);
  }

  /** The buffer before truncation is 0.3 of the exact minutes up to its roundings. */
  lemma BufferError(ttl: nat)
    requires ttl <= MAX_DURATION
    ensures var m := ExactMinutes(ttl);
            0.3 * m - 2.0 * m / TWO53 <= Multiply(Minutes(ttl), JitterFactor()) <= 0.3 * m + 2.0 * m / TWO53
  {
    MinutesError(ttl);
    FactorError();
    ProductError(ExactMinutes(ttl), Minutes(ttl), JitterFactor());
  }

  // The band of TTLs for which the buffer is empty.

  /** Rounding a value of [2^-2, 2^-1): its 53-bit significand counts units of 2^-54. */
  lemma RoundBelowHalf(x: real, y: real)
    requires x >= 0.0 && y == 18014398509481984.0 * x && TWO52 <= y < TWO53
    ensures 18014398509481984.0 * Round(x) == HalfEven(y) as real
  {
    ScaleBy54(x);
    RoundScale(x, 54);
    ScaleBy54(Round(x));
  }

  lemma ScaleBy54(x: real)
    requires x >= 0.0
    ensures Scale(x, 54) == 18014398509481984.0 * x
  {
    Scale50(x);
    ScaleAdd(x, 50, 4);
    var s := Scale(x, 50);
    assert Scale(s, 1) == 2.0 * s && Scale(s, 2) == 4.0 * s && Scale(s, 3) == 8.0 * s && Scale(s, 4) == 16.0 * s;
  }

  /** Rounding a value of [2, 4): units of 2^-51. */
  lemma RoundBelowFour(x: real, y: real)
    requires x >= 0.0 && y == 2251799813685248.0 * x && TWO52 <= y < TWO53
    ensures 2251799813685248.0 * Round(x) == HalfEven(y) as real
  {
    Scale50(x);
    RoundScale(x, 51);
    Scale50(Round(x));
  }

  /** At 3m20s the three roundings happen to give a buffer of exactly one minute. */
  lemma BufferAtBoundary()
    ensures Buffer(200_000_000_000) >= 1
  {
    IntegerExact(3);
    IntegerExact(20_000_000_000);
    var third := 20_000_000_000.0 / 60_000_000_000.0;
    RoundBelowHalf(third, 18014398509481984.0 * third);
    assert 18014398509481984.0 * Round(third) == 6004799503160661.0;
    var sum := 3.0 + Round(third);
    RoundBelowFour(sum, 2251799813685248.0 * sum);
    assert 2251799813685248.0 * Round(sum) == 7505999378950827.0;
    RoundBelowHalf(0.3, 18014398509481984.0 * 0.3);
    assert 18014398509481984.0 * JitterFactor() == 5404319552844595.0;
    var m, f := Minutes(200_000_000_000), JitterFactor();
    assert m == 7505999378950827.0 / 2251799813685248.0 && f == 5404319552844595.0 / 18014398509481984.0;
    assert m * f >= 1.0;
    RoundKeepsIntegerBound(m * f, 1);
  }

  /** From 3m up to but excluding 3m20s. */
  predicate Panics(ttl: int)
  {
    3 * MINUTE <= ttl < 200_000_000_000
  }

  /** getJitterTTL panics for the TTLs from 3m up to but excluding 3m20s, and for no others. */
  lemma PanicsIff(ttl: int, draw: nat)
    requires ttl <= MAX_DURATION
    ensures JitterTTL(ttl, draw).None? <==> Panics(ttl)
  {
    if ttl == 200_000_000_000 {
      BufferAtBoundary();
    } else if ttl >= 3 * MINUTE {
      BufferError(ttl);
    }
  }

  /** The largest draw takes the lifetime beyond 64 bits; that takes a TTL of more than two centuries. */
  predicate CanOverflow(ttl: int)
  {
    ttl >= 3 * MINUTE && Buffer(ttl) > 0 && (Buffer(ttl) - 1 + Minutes(ttl).Floor) * MINUTE > MAX_DURATION
  }

  predicate WithinBounds(ttl: int, life: int)
  {
    if ttl < 3 * MINUTE then life == ttl else ttl - MINUTE < life && 10 * life < 13 * ttl
  }

  lemma UnwrappedBounds(ttl: nat, draw: nat)
    requires 3 * MINUTE <= ttl <= MAX_DURATION && draw < Buffer(ttl)
    ensures var d := (draw + Minutes(ttl).Floor) * MINUTE; ttl - MINUTE < d && 10 * d < 13 * ttl
  {
    MinutesError(ttl);
    BufferError(ttl);
    var minutes := draw + Minutes(ttl).Floor;
    assert minutes as real <= Multiply(Minutes(ttl), JitterFactor()) - 1.0 + Minutes(ttl);
    assert minutes as real < 1.3 * ExactMinutes(ttl);
    assert 10.0 * (minutes * MINUTE) as real < 13.0 * ttl as real;
    assert minutes >= ttl / MINUTE;
  }

  /** The lifetime is the TTL itself below three minutes; from there it is less than a minute shorter than
      the TTL and below 1.3 times it, unless the draw overflows: then it is negative. */
  lemma LifetimeBounds(ttl: int, draw: nat)
    requires ttl <= MAX_DURATION && Drawn(ttl, draw) && JitterTTL(ttl, draw).Some?
    ensures var life := JitterTTL(ttl, draw).value;
            if ttl < 3 * MINUTE || (draw + Minutes(ttl).Floor) * MINUTE <= MAX_DURATION
            then WithinBounds(ttl, life) else life < 0
  {
    if ttl >= 3 * MINUTE {
      UnwrappedBounds(ttl, draw);
      var d := (draw + Minutes(ttl).Floor) * MINUTE;
      assert JitterTTL(ttl, draw) == Some(Wrapped(d)) && d <= 2 * MAX_DURATION;
    }
  }

  /** Each further minute drawn is a further minute of lifetime, and the draw of zero gives the whole minutes of the TTL. */
  lemma DrawSpreads(ttl: int, draw: nat)
    requires 200_000_000_000 <= ttl <= MAX_DURATION && draw < Buffer(ttl) && !CanOverflow(ttl)
    ensures JitterTTL(ttl, draw) == Some((draw + Minutes(ttl).Floor) * MINUTE)
  {
    PanicsIff(ttl, draw);
  }

  predicate Bounded(ttl: int, draw: nat)
  {
    JitterTTL(ttl, draw).Some? && WithinBounds(ttl, JitterTTL(ttl, draw).value)
  }

  lemma LargestDraw(ttl: int)
    requires CanOverflow(ttl) && ttl <= MAX_DURATION
    ensures Drawn(ttl, Buffer(ttl) - 1) && !Bounded(ttl, Buffer(ttl) - 1) && 13 * ttl > 10 * MAX_DURATION
  {
    LifetimeBounds(ttl, Buffer(ttl) - 1);
    UnwrappedBounds(ttl, Buffer(ttl) - 1);
  }

  lemma NoOverflow(ttl: int, draw: nat)
    requires ttl <= MAX_DURATION && Drawn(ttl, draw) && JitterTTL(ttl, draw).Some? && !CanOverflow(ttl)
    ensures Bounded(ttl, draw)
  {
    LifetimeBounds(ttl, draw);
    if ttl >= 3 * MINUTE { assert draw + Minutes(ttl).Floor <= Buffer(ttl) - 1 + Minutes(ttl).Floor; }
  }

  /** Every draw meets the promise if and only if the TTL neither panics nor can overflow; a TTL whose 1.3-fold
      fits 64 bits cannot. */
  lemma BoundedIff(ttl: int)
    requires ttl <= MAX_DURATION
    ensures (forall draw: nat :: Drawn(ttl, draw) ==> Bounded(ttl, draw)) <==> !Panics(ttl) && !CanOverflow(ttl)
    ensures 13 * ttl <= 10 * MAX_DURATION ==> !CanOverflow(ttl)
  {
    forall draw: nat ensures JitterTTL(ttl, draw).None? <==> Panics(ttl) { PanicsIff(ttl, draw); }
    if CanOverflow(ttl) {
      LargestDraw(ttl);
    } else if Panics(ttl) {
      assert JitterTTL(ttl, 0).None? && Drawn(ttl, 0) && !Bounded(ttl, 0);
    } else {
      forall draw: nat | Drawn(ttl, draw) ensures Bounded(ttl, draw) { NoOverflow(ttl, draw); }
    }
  }
}
