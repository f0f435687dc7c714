/** The Wilson endpoints themselves: what the two searches find for a proportion num/den, and that it is sane. */
module Interval {
  import opened Basics
  import opened Arith
  import opened Wilson

  function D(den: nat): nat { 625 * den + 2401 }
  function C(num: nat): nat { 1250 * num + 2401 }

  function M(num: nat, den: nat): nat
    requires num <= den
  {
    den * (2500 * num * (den - num) + 2401 * den)
  }

  /** center * 10^6 + 1/2 is Rn / Rd, half * 10^6 is 49 * 10^6 sqrt(M) / E. */
  function Rn(num: nat, den: nat): nat { 2 * (MILLION * C(num)) + 2 * D(den) }
  function Rd(den: nat): nat { 4 * D(den) }
  function E(den: nat): nat { 2 * den * D(den) }

  /** q is the lower endpoint, rounded half up to millionths: the floor of 10^6 (center - half) + 1/2. */
  predicate IsLow(num: nat, den: nat, q: int)
    requires num <= den
  {
    && AtMostMinus(Rn(num, den), Rd(den), M(num, den), E(den), q)
    && !AtMostMinus(Rn(num, den), Rd(den), M(num, den), E(den), q + 1)
  }

  predicate IsHigh(num: nat, den: nat, q: int)
    requires num <= den
  {
    && AtMostPlus(Rn(num, den), Rd(den), M(num, den), E(den), q)
    && !AtMostPlus(Rn(num, den), Rd(den), M(num, den), E(den), q + 1)
  }

  // ---- clearing the denominators ----

  /** den * D * (Rn/Rd - q), doubled: what is left after cancelling. */
  function P(num: nat, den: nat, q: int): int { den * (MILLION * C(num) + D(den) * (1 - 2 * q)) }

  lemma SqProduct(k: int, x: int)
    ensures Sq(k * x) == (k * k) * Sq(x)
  {
    assert (k * x) * (k * x) == (k * k) * (x * x);
  }

  lemma DoubledGap(c: int, d: int, q: int)
    ensures 2 * c + 2 * d - q * (4 * d) == 2 * (c + d * (1 - 2 * q))
  {
    assert q * (4 * d) == 4 * (d * q) && d * (1 - 2 * q) == d - 2 * (d * q);
  }

  lemma SignKept(n: nat, x: int)
    requires n > 0
    ensures n * x >= 0 <==> x >= 0
    ensures n * x > 0 <==> x > 0
  {
    if x > 0 { Positive(n, x); } else if x < 0 { Positive(n, -x); assert n * -x == -(n * x); }
  }

  lemma Cleared(num: nat, den: nat, q: int)
    requires num <= den && den > 0
    ensures (Rn(num, den) - q * Rd(den)) * E(den) == Rd(den) * P(num, den, q)
    ensures Rn(num, den) - q * Rd(den) >= 0 <==> P(num, den, q) >= 0
    ensures Rn(num, den) - q * Rd(den) > 0 <==> P(num, den, q) > 0
  {
    hide D, C;
    var d, x := D(den), MILLION * C(num) + D(den) * (1 - 2 * q);
    DoubledGap(MILLION * C(num), d, q);
    Regroup(x, den, d);
    SignKept(den, x);
  }

  lemma Regroup(x: int, n: int, d: int)
    ensures (2 * x) * (2 * n * d) == (4 * d) * (n * x)
  {
    assert (2 * x) * (2 * n * d) == 4 * (x * (n * d));
    assert x * (n * d) == d * (n * x);
  }

  lemma CancelSquares(k: int, x: int, y: int)
    requires k > 0
    ensures Sq(k * x) >= y * (k * k) <==> Sq(x) >= y
    ensures Sq(k * x) <= y * (k * k) <==> Sq(x) <= y
  {
    SqProduct(k, x);
    Positive(k, k);
    var kk := k * k;
    if Sq(x) > y { MulStrict(kk, y, Sq(x)); } else if Sq(x) < y { MulStrict(kk, Sq(x), y); }
  }

  lemma MinusIs(num: nat, den: nat, q: int)
    requires num <= den && den > 0
    ensures AtMostMinus(Rn(num, den), Rd(den), M(num, den), E(den), q)
            <==> P(num, den, q) >= 0 && Sq(P(num, den, q)) >= K * M(num, den)
  {
    hide Sq, P, M, Rn, E;
    Cleared(num, den, q);
    CancelSquares(Rd(den), P(num, den, q), K * M(num, den));
  }

  lemma PlusIs(num: nat, den: nat, q: int)
    requires num <= den && den > 0
    ensures AtMostPlus(Rn(num, den), Rd(den), M(num, den), E(den), q)
            <==> P(num, den, q) >= 0 || Sq(P(num, den, q)) <= K * M(num, den)
  {
    hide P, M, Rn, E;
    var diff := Rn(num, den) - q * Rd(den);
    Cleared(num, den, q);
    assert (-diff) * E(den) == -(diff * E(den));
    assert Sq((q * Rd(den) - Rn(num, den)) * E(den)) == Sq(diff * E(den)) by {
      assert q * Rd(den) - Rn(num, den) == -diff;
    }
    hide Sq;
    CancelSquares(Rd(den), P(num, den, q), K * M(num, den));
  }

  // ---- where the endpoints lie ----

  lemma CenterSquared(num: nat, den: nat)
    requires num <= den
    ensures Sq(den * C(num)) == 2401 * M(num, den) + 2500 * (den * (num * num) * D(den))
  {
    var k, n := num, den;
    assert Sq(n * C(k)) == n * (n * (1250 * k + 2401) * (1250 * k + 2401));
    assert n * (1250 * k + 2401) * (1250 * k + 2401) == 1562500 * (n * k * k) + 6002500 * (n * k) + 5764801 * n;
    assert 2401 * (2500 * k * (n - k) + 2401 * n) == 6002500 * (n * k) - 6002500 * (k * k) + 5764801 * n;
    assert 2500 * ((k * k) * (625 * n + 2401)) == 1562500 * (n * k * k) + 6002500 * (k * k);
    assert den * (num * num) * D(den) == n * ((k * k) * (625 * n + 2401));
    assert n * (n * (1250 * k + 2401) * (1250 * k + 2401))
        == n * (2401 * (2500 * k * (n - k) + 2401 * n) + 2500 * ((k * k) * (625 * n + 2401)));
    Distribute(n, 2500 * k * (n - k) + 2401 * n, (k * k) * (625 * n + 2401));
  }

  lemma Distribute(n: int, a: int, b: int)
    ensures n * (2401 * a + 2500 * b) == 2401 * (n * a) + 2500 * (n * b)
  {}

  lemma SkewSquared(num: nat, den: nat)
    requires num <= den
    ensures 2401 * Sq(den - 2 * num) <= M(num, den)
  {
    var k, n, j := num, den, den - num;
    assert Sq(n - 2 * k) == n * n - 4 * (k * j) by {
      assert n == k + j;
      assert (j - k) * (j - k) == (k + j) * (k + j) - 4 * (k * j);
    }
    assert M(num, den) == 2500 * (n * (k * j)) + 2401 * (n * n) by {
      assert 2500 * k * (n - k) == 2500 * (k * j);
      assert n * (2500 * (k * j) + 2401 * n) == 2500 * (n * (k * j)) + 2401 * (n * n);
    }
    MulMono(k, 0, j);
    MulMono(n, 0, k * j);
  }

  /** The lower endpoint before rounding is at least 0, so the first search has a floor to stand on. */
  lemma AtLeastZero(num: nat, den: nat)
    requires num <= den && den > 0
    ensures P(num, den, 0) > 0 && Sq(P(num, den, 0)) > K * M(num, den)
  {
    var x, c := P(num, den, 0), den * C(num);
    assert x == MILLION * c + den * D(den) by {
      assert den * (MILLION * C(num) + D(den)) == MILLION * (den * C(num)) + den * D(den);
    }
    Positive(den, D(den));
    MulMono(den, 0, C(num));
    SqMono(MILLION * c, x);
    SqProduct(MILLION, c);
    CenterSquared(num, den);
    MulMono(den, 0, num * num);
    MulMono(D(den), 0, den * (num * num));
    assert den * (num * num) * D(den) == D(den) * (den * (num * num));
  }

  /** Swapping successes and failures mirrors the interval. */
  lemma Mirrored(num: nat, den: nat, q: int)
    requires num <= den
    ensures P(den - num, den, MILLION + 1 - q) == -P(num, den, q)
    ensures M(den - num, den) == M(num, den)
  {
    var d := D(den);
    assert C(den - num) == 2 * d - C(num);
    assert d * (1 - 2 * (MILLION + 1 - q)) == -(2 * MILLION) * d - d * (1 - 2 * q);
    var x := MILLION * C(num) + d * (1 - 2 * q);
    assert den * -x == -(den * x);
    assert 2500 * (den - num) * num == 2500 * num * (den - num);
  }

  lemma AtMostMillion(num: nat, den: nat)
    requires num <= den && den > 0
    ensures !AtMostPlus(Rn(num, den), Rd(den), M(num, den), E(den), MILLION + 1)
  {
    hide P, M, AtMostPlus;
    Mirrored(num, den, MILLION + 1);
    AtLeastZero(den - num, den);
    PlusIs(num, den, MILLION + 1);
    SqNegated(P(num, den, MILLION + 1));
  }

  lemma SqNegated(x: int)
    ensures Sq(-x) == Sq(x)
  {}

  /** num/den in millionths, rounded half up. */
  function Ratio6(num: nat, den: nat): (r: nat)
    requires den > 0
    ensures 2 * den * r <= 2 * MILLION * num + den < 2 * den * (r + 1)
  {
    (2 * (num * MILLION) + den) / (2 * den)
  }

  lemma BelowRatio(num: nat, den: nat, q: int)
    requires den > 0 && 2 * den * q <= 2 * MILLION * num + den
    ensures q <= Ratio6(num, den)
  {
    CancelLt(2 * den, q, Ratio6(num, den) + 1);
  }

  /** P(q) against the skew: den D (1 - 2q) + 2 10^6 num D, up to sign. */
  lemma SkewLine(num: nat, den: nat, q: int)
    requires num <= den
    ensures P(num, den, q) - 2401 * MILLION * (den - 2 * num) == D(den) * (den * (1 - 2 * q) + 2 * MILLION * num)
  {
    var k, n, d := num, den, D(den);
    assert n * (MILLION * C(k) + d * (1 - 2 * q)) == MILLION * (n * C(k)) + d * (n * (1 - 2 * q));
    assert n * C(k) == 1250 * (n * k) + 2401 * n;
    assert d * (2 * MILLION * k) == MILLION * (1250 * (n * k) + 4802 * k);
    assert d * (n * (1 - 2 * q) + 2 * MILLION * k) == d * (n * (1 - 2 * q)) + d * (2 * MILLION * k);
  }

  lemma SkewBound(num: nat, den: nat)
    requires num <= den
    ensures Sq(2401 * MILLION * (den - 2 * num)) <= K * M(num, den)
  {
    hide M;
    SkewSquared(num, den);
    SqProduct(2401 * MILLION, den - 2 * num);
  }

  /** low <= num/den, both in millionths rounded half up. */
  lemma LowAtMostRatio(num: nat, den: nat, q: int)
    requires num <= den && den > 0 && IsLow(num, den, q)
    ensures q <= Ratio6(num, den)
  {
    hide P, M, Sq, AtMostMinus;
    var skew := 2401 * MILLION * (den - 2 * num);
    MinusIs(num, den, q);
    SkewBound(num, den);
    SkewLine(num, den, q);
    assert P(num, den, q) >= skew by {
      if P(num, den, q) < skew { SqMono(P(num, den, q), skew); }
    }
    NonNegative(D(den), den * (1 - 2 * q) + 2 * MILLION * num);
    assert den * (1 - 2 * q) == den - 2 * den * q;
    BelowRatio(num, den, q);
  }

  lemma NonNegative(k: nat, x: int)
    requires k > 0 && k * x >= 0
    ensures x >= 0
  {
    CancelLe(k, 0, x);
  }

  lemma RatioAboveSkew(num: nat, den: nat, r: int)
    requires num <= den && 2 * den * r <= 2 * MILLION * num + den
    ensures P(num, den, r) >= 2401 * MILLION * (den - 2 * num)
  {
    hide P;
    SkewLine(num, den, r);
    assert den * (1 - 2 * r) == den - 2 * den * r;
    MulMono(D(den), 0, den * (1 - 2 * r) + 2 * MILLION * num);
  }

  lemma NegativeSquares(x: int, y: int, bound: int)
    requires y <= x < 0 && Sq(y) <= bound
    ensures Sq(x) <= bound
  {
    SqMono(-x, -y);
    SqNegated(x);
    SqNegated(y);
  }

  /** num/den <= high: whatever rounds num/den to millionths from below passes the upper test. */
  lemma RatioPasses(num: nat, den: nat, r: int)
    requires num <= den && den > 0 && 2 * den * r <= 2 * MILLION * num + den
    ensures AtMostPlus(Rn(num, den), Rd(den), M(num, den), E(den), r)
  {
    hide P, M, Sq, AtMostPlus, Rn, Rd, E;
    var skew := 2401 * MILLION * (den - 2 * num);
    PlusIs(num, den, r);
    SkewBound(num, den);
    RatioAboveSkew(num, den, r);
    if P(num, den, r) < 0 { NegativeSquares(P(num, den, r), skew, K * M(num, den)); }
  }

  lemma RatioAtMostHigh(num: nat, den: nat, q: int, r: int)
    requires num <= den && den > 0 && IsHigh(num, den, q) && 2 * den * r <= 2 * MILLION * num + den
    ensures r <= q
  {
    hide M, Sq, AtMostPlus, Rn, Rd, E;
    RatioPasses(num, den, r);
    if q < r { PlusDown(Rn(num, den), Rd(den), M(num, den), E(den), q + 1, r); }
  }

  lemma LowAtLeastZero(num: nat, den: nat, q: int)
    requires num <= den && den > 0 && IsLow(num, den, q)
    ensures q >= 0
  {
    hide P, M, Sq, AtMostMinus;
    AtLeastZero(num, den);
    MinusIs(num, den, 0);
    if q < 0 { MinusDown(Rn(num, den), Rd(den), M(num, den), E(den), q + 1, 0); }
  }

  lemma HighAtMostMillion(num: nat, den: nat, q: int)
    requires num <= den && den > 0 && IsHigh(num, den, q)
    ensures q <= MILLION
  {
    hide M, AtMostPlus;
    AtMostMillion(num, den);
    if q > MILLION { PlusDown(Rn(num, den), Rd(den), M(num, den), E(den), MILLION + 1, q); }
  }

  /** 0 <= low <= num/den <= high <= 1 for every proportion: clipping has nothing to do. */
  lemma Sane(num: nat, den: nat, low: int, high: int)
    requires num <= den && den > 0 && IsLow(num, den, low) && IsHigh(num, den, high)
    ensures 0 <= low <= Ratio6(num, den) <= high <= MILLION
  {
    hide IsLow, IsHigh;
    LowAtLeastZero(num, den, low);
    LowAtMostRatio(num, den, low);
    RatioAtMostHigh(num, den, high, Ratio6(num, den));
    HighAtMostMillion(num, den, high);
  }

  lemma LowUnique(num: nat, den: nat, p: int, q: int)
    requires num <= den && IsLow(num, den, p) && IsLow(num, den, q)
    ensures p == q
  {
    hide M, AtMostMinus;
    if p < q { MinusDown(Rn(num, den), Rd(den), M(num, den), E(den), p + 1, q); }
    if q < p { MinusDown(Rn(num, den), Rd(den), M(num, den), E(den), q + 1, p); }
  }

  lemma HighUnique(num: nat, den: nat, p: int, q: int)
    requires num <= den && IsHigh(num, den, p) && IsHigh(num, den, q)
    ensures p == q
  {
    hide M, AtMostPlus;
    if p < q { PlusDown(Rn(num, den), Rd(den), M(num, den), E(den), p + 1, q); }
    if q < p { PlusDown(Rn(num, den), Rd(den), M(num, den), E(den), q + 1, p); }
  }

  /** With no successes the lower endpoint is exactly 0. */
  lemma LowIsZero(den: nat, q: int)
    requires den > 0 && IsLow(0, den, q)
    ensures q == 0
  {
    LowAtLeastZero(0, den, q);
    LowAtMostRatio(0, den, q);
    assert Ratio6(0, den) == 0 by { if Ratio6(0, den) > 0 { MulMono(2 * den, 1, Ratio6(0, den)); } }
  }

  /** The upper endpoint lies on a boundary between two roundings exactly when this holds. */
  predicate Tie(num: nat, den: nat, q: int)
    requires num <= den
  {
    P(num, den, q) <= 0 && Sq(P(num, den, q)) == K * M(num, den)
  }

  lemma PFalls(num: nat, den: nat, p: int, q: int)
    requires den > 0 && p < q
    ensures P(num, den, q) < P(num, den, p)
  {
    MulStrict(D(den), 1 - 2 * q, 1 - 2 * p);
    MulStrict(den, MILLION * C(num) + D(den) * (1 - 2 * q), MILLION * C(num) + D(den) * (1 - 2 * p));
  }

  /** low(den - num) and high(num) add up to one whole, or on an exact tie to one millionth more. */
  lemma MirrorSum(num: nat, den: nat, low: int, high: int)
    requires num <= den && den > 0 && IsLow(den - num, den, low) && IsHigh(num, den, high)
    ensures low + high == if Tie(num, den, high) then MILLION + 1 else MILLION
  {
    hide P, M, AtMostPlus, AtMostMinus;
    var u := MILLION - low;
    Mirrored(num, den, u);
    Mirrored(num, den, u + 1);
    Mirrored(num, den, high);
    assert MILLION + 1 - u == low + 1 && MILLION + 1 - (u + 1) == low;
    MinusIs(den - num, den, low);
    MinusIs(den - num, den, low + 1);
    PlusIs(num, den, u);
    PlusIs(num, den, u + 1);
    SqNegated(P(num, den, u));
    SqNegated(P(num, den, u + 1));
    SpreadIsPositive(num, den);
    if AtMostPlus(Rn(num, den), Rd(den), M(num, den), E(den), u + 1) {
      PFalls(num, den, u + 1, u + 2);
      PlusIs(num, den, u + 2);
      SqMono(-P(num, den, u + 1), -P(num, den, u + 2));
      SqNegated(P(num, den, u + 2));
      HighUnique(num, den, high, u + 1);
    } else {
      HighUnique(num, den, high, u);
    }
  }

  lemma SpreadIsPositive(num: nat, den: nat)
    requires num <= den && den > 0
    ensures M(num, den) > 0
  {
    MulMono(num, 0, den - num);
    assert 2500 * num * (den - num) == 2500 * (num * (den - num));
    Positive(den, 2500 * num * (den - num) + 2401 * den);
  }

  /** With no failures the upper endpoint is exactly 1. */
  lemma HighIsMillion(den: nat, q: int)
    requires den > 0 && IsHigh(den, den, q)
    ensures q == MILLION
  {
    HighAtMostMillion(den, den, q);
    RatioAtMostHigh(den, den, q, MILLION);
  }

  // ---- the program ----

  lemma TermsFit(num: nat, den: nat)
    requires num <= den && 0 < den <= 4096
    ensures Fits(Rn(num, den), Rd(den), M(num, den), E(den))
  {
    ProductAtMost(num, den - num, 4096, 4096);
    assert 2500 * num * (den - num) == 2500 * (num * (den - num));
    ProductAtMost(den, 2500 * num * (den - num) + 2401 * den, 4096, 2500 * 4096 * 4096 + 2401 * 4096);
    ProductAtMost(2 * den, D(den), 2 * 4096, 625 * 4096 + 2401);
    Positive(2 * den, D(den));
  }

  function Clip(q: int): nat { if q < 0 then 0 else if q > MILLION then MILLION else q }

  /** Both endpoints in millionths, whatever the two binary64 estimates were. */
  method WilsonEndpoints(num: nat, den: nat, lowEstimate: int, highEstimate: int) returns (r: Option<(nat, nat)>)
    requires num <= den <= 4096 && InRange(lowEstimate) && InRange(highEstimate)
    ensures den == 0 <==> r.None?
    ensures r.Some? ==> IsLow(num, den, r.value.0) && IsHigh(num, den, r.value.1)
                        && 0 <= r.value.0 <= Ratio6(num, den) <= r.value.1 <= MILLION
  {
    hide AtMostMinus, AtMostPlus, P, Sq;
    if den == 0 { return None; }
    var m := den * (2500 * num * (den - num) + 2401 * den);
    var cn, cd := MILLION * (1250 * num + 2401), 2 * (625 * den + 2401);
    var e := 2 * den * (625 * den + 2401);
    var rn, rd := 2 * cn + cd, 2 * cd;
    assert m == M(num, den) && rn == Rn(num, den) && rd == Rd(den) && e == E(den);
    TermsFit(num, den);
    AtLeastZero(num, den);
    MinusIs(num, den, 0);
    AtMostMillion(num, den);
    var low := FloorMinus(rn, rd, m, e, lowEstimate);
    var high := FloorPlus(rn, rd, m, e, highEstimate);
    Sane(num, den, low, high);
    return Some((Clip(low), Clip(high)));
  }

  // ---- over the reals ----

  lemma RealSquareMono(a: real, t: real)
    requires a >= 0.0 && t > 0.0
    ensures a * a < (a + t) * (a + t)
  {
    assert (a + t) * (a + t) == a * a + 2.0 * (a * t) + t * t;
    assert a * t >= 0.0 && t * t > 0.0;
  }

  lemma RealSquares(a: real, b: real)
    requires b >= 0.0
    ensures a >= b <==> a >= 0.0 && a * a >= b * b
  {
    if a >= b {
      assert a * a >= b * a >= b * b;
    } else if a >= 0.0 {
      RealSquareMono(a, b - a);
    }
  }

  lemma CastSquare(x: int)
    ensures Sq(x) as real == x as real * x as real
  {}

  lemma CompareAsReals(x: int, square: int, y: real)
    requires y >= 0.0 && y * y == square as real
    ensures x as real >= y <==> x >= 0 && Sq(x) >= square
    ensures x as real <= y <==> x <= 0 || Sq(x) <= square
  {
    CastSquare(x);
    hide Sq;
    RealSquares(x as real, y);
    if x >= 0 { RealSquares(y, x as real); }
  }

  lemma RootTerm(m: nat, rd: nat, s: real)
    requires s >= 0.0 && s * s == m as real
    ensures var y := 49_000_000.0 * s * rd as real; y >= 0.0 && y * y == (K * m * (rd * rd)) as real
  {
    SquareOfProduct(s, rd as real, m as real);
    CastProduct(m, rd);
    RealNonNegative(49_000_000.0 * s, rd as real);
  }

  lemma RealNonNegative(x: real, y: real)
    requires x >= 0.0 && y >= 0.0
    ensures x * y >= 0.0
  {}

  /** The comparison without the root is the comparison with it: for the real s >= 0 with s*s = m, q passes exactly when
      q <= rn/rd - 49*10^6 s/e. */
  lemma MinusMeans(rn: int, rd: nat, m: nat, e: nat, q: int, s: real)
    requires rd > 0 && e > 0 && s >= 0.0 && s * s == m as real
    ensures AtMostMinus(rn, rd, m, e, q) <==> q as real <= rn as real / rd as real - 49_000_000.0 * s / e as real
  {
    hide Sq;
    CrossMultiplied(rn, rd, e, q, s);
    RootTerm(m, rd, s);
    CompareAsReals((rn - q * rd) * e, K * m * (rd * rd), 49_000_000.0 * s * rd as real);
    SignOfProduct(rn - q * rd, e);
  }

  lemma Negated(rn: int, rd: nat, e: nat, q: int, s: real)
    requires rd > 0 && e > 0
    ensures q as real <= rn as real / rd as real + 49_000_000.0 * s / e as real
            <==> ((q * rd - rn) * e) as real <= 49_000_000.0 * s * rd as real
  {
    CrossMultiplied(rn, rd, e, q, -s);
    NegatedFactors(rn, rd, e, q);
    var b := e as real;
    assert 49_000_000.0 * -s * rd as real == -(49_000_000.0 * s * rd as real);
    QuotientIs(49_000_000.0 * -s, b, -(49_000_000.0 * s / b));
  }

  lemma NegatedFactors(rn: int, rd: nat, e: nat, q: int)
    ensures (rn - q * rd) * e == -((q * rd - rn) * e)
  {}

  lemma PlusMeans(rn: int, rd: nat, m: nat, e: nat, q: int, s: real)
    requires rd > 0 && e > 0 && s >= 0.0 && s * s == m as real
    ensures AtMostPlus(rn, rd, m, e, q) <==> q as real <= rn as real / rd as real + 49_000_000.0 * s / e as real
  {
    hide Sq;
    Negated(rn, rd, e, q, s);
    RootTerm(m, rd, s);
    CompareAsReals((q * rd - rn) * e, K * m * (rd * rd), 49_000_000.0 * s * rd as real);
    SignOfProduct(q * rd - rn, e);
    SignOfProduct(rn - q * rd, e);
    NegatedFactors(rn, rd, e, q);
  }

  lemma SignOfProduct(x: int, e: nat)
    requires e > 0
    ensures x >= 0 <==> x * e >= 0
  {
    if x < 0 { Positive(-x, e); assert -x * e == -(x * e); } else { MulMono(e, 0, x); }
  }

  lemma SquareOfProduct(s: real, rd: real, m: real)
    requires s * s == m
    ensures (49_000_000.0 * s * rd) * (49_000_000.0 * s * rd) == 2_401_000_000_000_000.0 * m * (rd * rd)
  {
    assert (49_000_000.0 * s * rd) * (49_000_000.0 * s * rd) == 2_401_000_000_000_000.0 * (s * s) * (rd * rd);
  }

  lemma CastProduct(m: nat, rd: nat)
    ensures (K * m * (rd * rd)) as real == 2_401_000_000_000_000.0 * m as real * (rd as real * rd as real)
  {
    assert (rd * rd) as real == rd as real * rd as real;
    assert (K * m) as real == 2_401_000_000_000_000.0 * m as real;
    assert ((K * m) * (rd * rd)) as real == (K * m) as real * (rd * rd) as real;
  }

  lemma CrossMultiplied(rn: int, rd: nat, e: nat, q: int, s: real)
    requires rd > 0 && e > 0
    ensures q as real <= rn as real / rd as real - 49_000_000.0 * s / e as real
            <==> ((rn - q * rd) * e) as real >= 49_000_000.0 * s * rd as real
  {
    var a, b, n, t, z := rd as real, e as real, rn as real, 49_000_000.0 * s, q as real;
    assert ((rn - q * rd) * e) as real == (n - z * a) * b by {
      assert (q * rd) as real == z * a;
      assert ((rn - q * rd) * e) as real == (rn - q * rd) as real * b;
    }
    var left := n / a - t / b - z;
    assert left * (a * b) == (n - z * a) * b - t * a by {
      assert n / a * a == n && t / b * b == t;
      assert left * (a * b) == (n / a * a) * b - (t / b * b) * a - z * (a * b);
    }
    assert a * b > 0.0;
    assert left >= 0.0 <==> left * (a * b) >= 0.0;
  }

  /** The lower and upper endpoint are 10^6 (center -+ half) rounded half up, with the real square root. */
  lemma EndpointsAreRounded(num: nat, den: nat, low: int, high: int, s: real)
    requires num <= den && den > 0 && IsLow(num, den, low) && IsHigh(num, den, high)
    requires s >= 0.0 && s * s == M(num, den) as real
    ensures var center := C(num) as real / (2 * D(den)) as real;
            var half := 49.0 * s / E(den) as real;
            && low as real <= 1_000_000.0 * (center - half) + 0.5 < (low + 1) as real
            && high as real <= 1_000_000.0 * (center + half) + 0.5 < (high + 1) as real
  {
    hide M, AtMostMinus, AtMostPlus, Rn, Rd, E, C, D;
    Scales(num, den, s);
    MinusMeans(Rn(num, den), Rd(den), M(num, den), E(den), low, s);
    MinusMeans(Rn(num, den), Rd(den), M(num, den), E(den), low + 1, s);
    PlusMeans(Rn(num, den), Rd(den), M(num, den), E(den), high, s);
    PlusMeans(Rn(num, den), Rd(den), M(num, den), E(den), high + 1, s);
  }

  lemma Scales(num: nat, den: nat, s: real)
    requires den > 0
    ensures Rd(den) > 0 && E(den) > 0 && D(den) > 0
    ensures Rn(num, den) as real / Rd(den) as real == 1_000_000.0 * (C(num) as real / (2 * D(den)) as real) + 0.5
    ensures 49_000_000.0 * s / E(den) as real == 1_000_000.0 * (49.0 * s / E(den) as real)
  {
    Positive(2 * den, D(den));
    Rescaled(C(num) as real, D(den) as real);
    assert Rn(num, den) as real == 2.0 * (1_000_000.0 * C(num) as real) + 2.0 * D(den) as real;
    QuotientIs(49_000_000.0 * s, E(den) as real, 1_000_000.0 * (49.0 * s / E(den) as real));
  }

  lemma QuotientIs(a: real, b: real, x: real)
    requires b != 0.0 && x * b == a
    ensures a / b == x
  {
    assert (a / b) * b == a;
    assert (a / b - x) * b == 0.0;
  }

  lemma Rescaled(c: real, d: real)
    requires d > 0.0
    ensures (2.0 * (1_000_000.0 * c) + 2.0 * d) / (4.0 * d) == 1_000_000.0 * (c / (2.0 * d)) + 0.5
  {
    var y := c / (2.0 * d);
    assert y * (2.0 * d) == c;
    var x := 1_000_000.0 * y + 0.5;
    assert x * (4.0 * d) == 2_000_000.0 * (y * (2.0 * d)) + 2.0 * d;
    QuotientIs(2.0 * (1_000_000.0 * c) + 2.0 * d, 4.0 * d, x);
  }
}
