/** Total-variation score in basis points (crates/watch/src/detect.rs, `tvd_bp`). */
module Tvd {
  import opened Arith
  import opened Basics
  import opened Records

  type Hist = s: seq<nat> | |s| == 4 witness [0, 0, 0, 0]

  const U128: int := 0x1_0000_0000_0000_0000_0000_0000_0000_0000

  function Sum(h: Hist, n: nat): nat
    requires n <= 4
  {
    if n == 0 then 0 else Sum(h, n - 1) + h[n - 1]
  }

  function Mass(h: Hist): nat { Sum(h, 4) }

  function AbsDiff(x: int, y: int): nat { if x < y then y - x else x - y }

  /** Sum of |cur_i * B - base_i * C| over the first n bins. */
  function Gap(base: Hist, cur: Hist, n: nat): nat
    requires n <= 4
  {
    if n == 0 then 0
    else Gap(base, cur, n - 1) + AbsDiff(cur[n - 1] * Mass(base), base[n - 1] * Mass(cur))
  }

  function Score(base: Hist, cur: Hist): Option<nat> {
    if Mass(base) == 0 || Mass(cur) == 0 then None
    else
      Positive(2 * Mass(cur), Mass(base));
      Some(10_000 * Gap(base, cur, 4) / (2 * Mass(cur) * Mass(base)))
  }

  method TvdBp(baseline: Hist, current: Hist) returns (score: Option<nat>)
    ensures score == Score(baseline, current)
  {
    var b, c, num := 0, 0, 0;
    for i := 0 to 4
      invariant b == Sum(baseline, i) && c == Sum(current, i)
    {
      b, c := b + baseline[i], c + current[i];
    }
    if b == 0 || c == 0 { return None; }
    for i := 0 to 4
      invariant num == Gap(baseline, current, i)
    {
      num := num + AbsDiff(current[i] * b, baseline[i] * c);
    }
    var s := 10_000 * num / (2 * c * b);
    Bounded(baseline, current);
    score := Some(if s < 10_000 then s else 10_000);
  }

  lemma {:induction false} GapAtMost(b: Hist, c: Hist, n: nat)
    requires n <= 4
    ensures Gap(b, c, n) <= Sum(c, n) * Mass(b) + Sum(b, n) * Mass(c)
  {
    if n > 0 {
      GapAtMost(b, c, n - 1);
      AddTerms(Sum(c, n - 1), Sum(b, n - 1), c[n - 1], b[n - 1], Mass(b), Mass(c));
    }
  }

  lemma AddTerms(s: nat, t: nat, x: nat, y: nat, m: nat, k: nat)
    ensures (s + x) * m + (t + y) * k == s * m + t * k + x * m + y * k
    ensures AbsDiff(x * m, y * k) <= x * m + y * k
  {
    MulMono(x, 0, m); MulMono(y, 0, k);
  }

  lemma BoundedQuotient(g: nat, x: nat, y: nat)
    requires x > 0 && y > 0 && g <= x * y + y * x
    ensures 2 * x * y > 0 && g <= 2 * x * y
    ensures 10_000 * g / (2 * x * y) <= 10_000
  {
    Positive(x, y);
    assert 2 * x * y == x * y + y * x;
    QuotientAtMost(10_000 * g, 2 * x * y, 10_000);
  }

  lemma GapAtMostMasses(b: Hist, c: Hist)
    ensures Gap(b, c, 4) <= Mass(c) * Mass(b) + Mass(b) * Mass(c)
  {
    GapAtMost(b, c, 4);
  }

  /** The clamp to 10000 never fires. */
  lemma Bounded(b: Hist, c: Hist)
    requires Mass(b) > 0 && Mass(c) > 0
    ensures Gap(b, c, 4) <= 2 * Mass(c) * Mass(b)
    ensures Score(b, c).value <= 10_000
  {
    hide Gap, Mass, Sum;
    GapAtMostMasses(b, c);
    BoundedQuotient(Gap(b, c, 4), Mass(c), Mass(b));
  }

  /** For totals up to 2^56 every intermediate value of the loop fits in 128 bits. */
  lemma NoOverflow(b: Hist, c: Hist, n: nat)
    requires 0 < Mass(b) <= 0x100_0000_0000_0000 && 0 < Mass(c) <= 0x100_0000_0000_0000 && n <= 4
    ensures n < 4 ==> c[n] * Mass(b) < U128 && b[n] * Mass(c) < U128
    ensures Gap(b, c, n) < U128 && 10_000 * Gap(b, c, n) < U128
    ensures 2 * Mass(c) * Mass(b) < U128
  {
    var t := 0x100_0000_0000_0000;
    SumMonotone(b, n); SumMonotone(c, n);
    GapAtMost(b, c, n);
    ProductAtMost(Mass(c), Mass(b), t, t);
    ProductAtMost(Sum(c, n), Mass(b), t, t);
    ProductAtMost(Sum(b, n), Mass(c), t, t);
    if n < 4 {
      SumMonotone(b, n + 1); SumMonotone(c, n + 1);
      ProductAtMost(c[n], Mass(b), t, t);
      ProductAtMost(b[n], Mass(c), t, t);
    }
  }

  lemma {:induction false} SumMonotone(h: Hist, n: nat)
    requires n <= 4
    ensures Sum(h, n) <= Mass(h)
    ensures n > 0 ==> h[n - 1] <= Sum(h, n)
    decreases 4 - n
  {
    if n < 4 { SumMonotone(h, n + 1); }
  }

  lemma {:induction false} GapSymmetric(b: Hist, c: Hist, n: nat)
    requires n <= 4
    ensures Gap(b, c, n) == Gap(c, b, n)
  {
    if n > 0 { GapSymmetric(b, c, n - 1); }
  }

  lemma Symmetric(b: Hist, c: Hist)
    ensures Score(b, c) == Score(c, b)
  {
    GapSymmetric(b, c, 4);
    assert 2 * Mass(c) * Mass(b) == 2 * Mass(b) * Mass(c);
  }

  function Scale(k: nat, h: Hist): Hist { [k * h[0], k * h[1], k * h[2], k * h[3]] }

  lemma ScaleAt(k: nat, h: Hist, i: nat)
    requires i < 4
    ensures Scale(k, h)[i] == k * h[i]
  {}

  lemma {:induction false} SumScale(k: nat, h: Hist, n: nat)
    requires n <= 4
    ensures Sum(Scale(k, h), n) == k * Sum(h, n)
  {
    hide Scale;
    if n > 0 {
      SumScale(k, h, n - 1);
      ScaleAt(k, h, n - 1);
      DistributeSum(k, Sum(h, n - 1), h[n - 1]);
    }
  }

  lemma MassScale(k: nat, h: Hist)
    ensures Mass(Scale(k, h)) == k * Mass(h)
  {
    hide Scale, Sum;
    SumScale(k, h, 4);
  }

  lemma AbsDiffScale(k: nat, x: int, y: int)
    ensures AbsDiff(k * x, k * y) == k * AbsDiff(x, y)
  {
    assert k * x - k * y == k * (x - y) && k * y - k * x == k * (y - x);
    if x < y { assert k * (y - x) >= 0; } else { assert k * (x - y) >= 0; }
  }

  lemma GapScaleStep(k: nat, g: int, x: int, y: int, m: int, l: int)
    ensures k * g + AbsDiff(x * (k * m), (k * y) * l) == k * (g + AbsDiff(x * m, y * l))
  {
    Shuffle(x, k, m);
    Shuffle(l, k, y);
    assert l * y == y * l;
    AbsDiffScale(k, x * m, y * l);
    DistributeSum(k, g, AbsDiff(x * m, y * l));
  }

  lemma {:induction false} GapScale(k: nat, b: Hist, c: Hist, n: nat)
    requires n <= 4
    ensures Gap(Scale(k, b), c, n) == k * Gap(b, c, n)
  {
    hide Scale, Mass, AbsDiff;
    if n > 0 {
      GapScale(k, b, c, n - 1);
      MassScale(k, b);
      ScaleAt(k, b, n - 1);
      GapScaleStep(k, Gap(b, c, n - 1), c[n - 1], b[n - 1], Mass(b), Mass(c));
    }
  }

  lemma DistributeSum(k: int, x: int, y: int)
    ensures k * (x + y) == k * x + k * y
  {}

  /** Scaling either histogram leaves the score alone. */
  lemma ScaleInvariant(k: nat, b: Hist, c: Hist)
    requires k > 0
    ensures Score(Scale(k, b), c) == Score(b, c)
    ensures Score(b, Scale(k, c)) == Score(b, c)
  {
    ScaleLeft(k, b, c);
    ScaleLeft(k, c, b);
    Symmetric(b, c); Symmetric(b, Scale(k, c));
  }

  lemma ScaledQuotient(k: nat, g: nat, mb: nat, mc: nat)
    requires k > 0 && mb > 0 && mc > 0
    ensures 2 * mc * (k * mb) > 0 && 2 * mc * mb > 0 && k * mb > 0
    ensures 10_000 * (k * g) / (2 * mc * (k * mb)) == 10_000 * g / (2 * mc * mb)
  {
    Positive(mc, mb);
    Positive(k, mb);
    Positive(mc, k * mb);
    QuotientScale(k, 10_000 * g, 2 * mc * mb);
    Shuffle(10_000, k, g);
    Shuffle(2 * mc, k, mb);
  }

  lemma ScaleLeft(k: nat, b: Hist, c: Hist)
    requires k > 0
    ensures Score(Scale(k, b), c) == Score(b, c)
  {
    hide Scale, Mass, Gap;
    MassScale(k, b);
    if Mass(b) > 0 && Mass(c) > 0 {
      GapScale(k, b, c, 4);
      ScaledQuotient(k, Gap(b, c, 4), Mass(b), Mass(c));
    } else if Mass(b) == 0 {
      assert k * 0 == 0;
    }
  }

  lemma ZeroQuotient(y: nat)
    requires y > 0
    ensures 10_000 * 0 / y == 0
  {}

  /** Proportional histograms score zero. */
  lemma Proportional(j: nat, k: nat, h: Hist)
    requires j > 0 && k > 0 && Mass(h) > 0
    ensures Score(Scale(j, h), Scale(k, h)) == Some(0)
  {
    hide Scale, Mass, Gap;
    ScaleLeft(j, h, Scale(k, h));
    ScaleInvariant(k, h, h);
    GapSelf(h, 4);
    Positive(Mass(h), Mass(h));
    ZeroQuotient(2 * Mass(h) * Mass(h));
  }

  lemma {:induction false} GapSelf(h: Hist, n: nat)
    requires n <= 4
    ensures Gap(h, h, n) == 0
  {
    if n > 0 { GapSelf(h, n - 1); }
  }

  lemma TriangleStep(A: nat, B: nat, C: nat, g1: int, g2: int, g3: int, d1: int, d2: int, d3: int)
    requires B * g1 <= C * g2 + A * g3 && B * d1 <= C * d2 + A * d3
    ensures B * (g1 + d1) <= C * (g2 + d2) + A * (g3 + d3)
  {
    DistributeSum(B, g1, d1);
    DistributeSum(C, g2, d2);
    DistributeSum(A, g3, d3);
  }

  lemma {:induction false} GapTriangle(a: Hist, b: Hist, c: Hist, n: nat)
    requires n <= 4
    ensures Mass(b) * Gap(a, c, n) <= Mass(c) * Gap(a, b, n) + Mass(a) * Gap(b, c, n)
  {
    hide Mass, AbsDiff;
    var A, B, C := Mass(a), Mass(b), Mass(c);
    if n == 0 {
      NothingGained(A, B, C);
    } else {
      GapTriangle(a, b, c, n - 1);
      var x, y, z := a[n - 1], b[n - 1], c[n - 1];
      BinTriangle(A, B, C, x, y, z);
      TriangleStep(A, B, C, Gap(a, c, n - 1), Gap(a, b, n - 1), Gap(b, c, n - 1), AbsDiff(z * A, x * C),
                   AbsDiff(y * A, x * B),
                   AbsDiff(z * B, y * C));
    }
  }

  lemma NothingGained(A: nat, B: nat, C: nat)
    ensures B * 0 <= C * 0 + A * 0
  {}

  lemma BinTriangle(A: nat, B: nat, C: nat, x: nat, y: nat, z: nat)
    ensures B * AbsDiff(z * A, x * C) <= C * AbsDiff(y * A, x * B) + A * AbsDiff(z * B, y * C)
  {
    AbsDiffScale(B, z * A, x * C);
    AbsDiffScale(C, y * A, x * B);
    AbsDiffScale(A, z * B, y * C);
    Shuffle(B, z, A); Shuffle(A, z, B);
    assert B * (z * A) == A * (z * B);
    Shuffle(B, x, C); Shuffle(C, x, B);
    assert B * (x * C) == C * (x * B);
    Shuffle(C, y, A); Shuffle(A, y, C);
    assert C * (y * A) == A * (y * C);
  }

  /** The triangle inequality holds up to the one basis point that flooring can cost. */
  lemma Triangle(a: Hist, b: Hist, c: Hist)
    requires Mass(a) > 0 && Mass(b) > 0 && Mass(c) > 0
    ensures Score(a, c).value <= Score(a, b).value + Score(b, c).value + 1
  {
    hide Mass, Gap;
    var A, B, C := Mass(a), Mass(b), Mass(c);
    GapTriangle(a, b, c, 4);
    FlooredTriangle(A, B, C, Gap(a, b, 4), Gap(b, c, 4), Gap(a, c, 4));
  }

  lemma FlooredTriangle(A: nat, B: nat, C: nat, ab: nat, bc: nat, ac: nat)
    requires A > 0 && B > 0 && C > 0 && B * ac <= C * ab + A * bc
    ensures 2 * B * A > 0 && 2 * C * B > 0 && 2 * C * A > 0
    ensures 10_000 * ac / (2 * C * A) <= 10_000 * ab / (2 * B * A) + 10_000 * bc / (2 * C * B) + 1
  {
    Positive(B, A); Positive(C, B); Positive(C, A);
    Volume(A, B, C);
    TenThousandfold(A, B, C, ab, bc, ac);
    FlooredSum(A, B, C, 10_000 * ab, 10_000 * bc, 10_000 * ac, 2 * B * A, 2 * C * B, 2 * C * A);
  }

  lemma TenThousandfold(A: nat, B: nat, C: nat, ab: nat, bc: nat, ac: nat)
    requires B * ac <= C * ab + A * bc
    ensures B * (10_000 * ac) <= C * (10_000 * ab) + A * (10_000 * bc)
  {
    Shuffle(B, 10_000, ac);
    Shuffle(C, 10_000, ab);
    Shuffle(A, 10_000, bc);
  }

  /** x3/y3 <= x1/y1 + x2/y2 as fractions gives the same for the floors, plus one. */
  lemma FlooredSum(A: nat, B: nat, C: nat, x1: nat, x2: nat, x3: nat, y1: nat, y2: nat, y3: nat)
    requires A > 0 && B > 0 && C > 0 && y1 > 0 && y2 > 0 && y3 > 0
    requires C * y1 == A * y2 == B * y3
    requires B * x3 <= C * x1 + A * x2
    ensures x3 / y3 <= x1 / y1 + x2 / y2 + 1
  {
    var q1, q2, t := x1 / y1, x2 / y2, C * y1;
    var n := q1 + q2 + 2;
    MulStrict(C, x1, (q1 + 1) * y1) by { assert x1 == q1 * y1 + x1 % y1; }
    MulStrict(A, x2, (q2 + 1) * y2) by { assert x2 == q2 * y2 + x2 % y2; }
    Shuffle(C, q1 + 1, y1); Shuffle(A, q2 + 1, y2); Shuffle(B, n, y3);
    assert B * x3 < (q1 + 1) * t + (q2 + 1) * t;
    assert (q1 + 1) * t + (q2 + 1) * t == n * t;
    CancelLt(B, x3, n * y3);
    QuotientBelow(x3, y3, n);
  }

  lemma Volume(A: nat, B: nat, C: nat)
    ensures C * (2 * B * A) == A * (2 * C * B) == B * (2 * C * A)
  {
    assert C * (2 * B * A) == 2 * (C * (B * A));
    assert A * (2 * C * B) == 2 * (A * (C * B));
    assert B * (2 * C * A) == 2 * (B * (C * A));
    Shuffle(C, B, A); Shuffle(A, C, B);
  }

  // ---- the ends of the scale ----

  /** No bin is used by both. */
  ghost predicate Disjoint(b: Hist, c: Hist, n: nat)
    requires n <= 4
  {
    forall i | 0 <= i < n :: b[i] == 0 || c[i] == 0
  }

  lemma BinGap(x: nat, y: nat, m: nat, k: nat)
    requires m > 0 && k > 0
    ensures x == 0 || y == 0 ==> AbsDiff(x * m, y * k) == x * m + y * k
    ensures x > 0 && y > 0 ==> AbsDiff(x * m, y * k) < x * m + y * k
  {
    if x > 0 && y > 0 {
      Positive(x, m);
      Positive(y, k);
    }
  }

  lemma {:induction false} GapOfDisjoint(b: Hist, c: Hist, n: nat)
    requires n <= 4 && Mass(b) > 0 && Mass(c) > 0
    ensures Disjoint(b, c, n) ==> Gap(b, c, n) == Sum(c, n) * Mass(b) + Sum(b, n) * Mass(c)
    ensures !Disjoint(b, c, n) ==> Gap(b, c, n) < Sum(c, n) * Mass(b) + Sum(b, n) * Mass(c)
  {
    hide Mass;
    if n > 0 {
      GapOfDisjoint(b, c, n - 1);
      GapAtMost(b, c, n - 1);
      AddTerms(Sum(c, n - 1), Sum(b, n - 1), c[n - 1], b[n - 1], Mass(b), Mass(c));
      BinGap(c[n - 1], b[n - 1], Mass(b), Mass(c));
    }
  }

  lemma GapOfAll(b: Hist, c: Hist)
    requires Mass(b) > 0 && Mass(c) > 0
    ensures Gap(b, c, 4) <= 2 * Mass(c) * Mass(b)
    ensures Disjoint(b, c, 4) <==> Gap(b, c, 4) == 2 * Mass(c) * Mass(b)
  {
    hide Gap;
    GapOfDisjoint(b, c, 4);
    GapAtMostMasses(b, c);
    assert 2 * Mass(c) * Mass(b) == Mass(c) * Mass(b) + Mass(b) * Mass(c);
  }

  /** The score is 10000 exactly if no bin is used by both histograms. */
  lemma FullScale(b: Hist, c: Hist)
    requires Mass(b) > 0 && Mass(c) > 0
    ensures Score(b, c) == Some(10_000) <==> Disjoint(b, c, 4)
  {
    hide Gap, Mass, Disjoint;
    GapOfAll(b, c);
    var g, m := Gap(b, c, 4), 2 * Mass(c) * Mass(b);
    Positive(2 * Mass(c), Mass(b));
    if g == m {
      DivisionUnique(10_000 * g, m, 10_000, 0);
    } else {
      QuotientBelow(10_000 * g, m, 10_000);
    }
  }

  // ---- the distance of the two distributions ----

  function Share(h: Hist, i: nat): real
    requires i < 4 && Mass(h) > 0
  {
    h[i] as real / Mass(h) as real
  }

  function Apart(x: real, y: real): real { if x < y then y - x else x - y }

  /** Half the sum of the differences of the shares. */
  function Distance(b: Hist, c: Hist): real
    requires Mass(b) > 0 && Mass(c) > 0
  {
    (Apart(Share(b, 0), Share(c, 0)) + Apart(Share(b, 1), Share(c, 1)) + Apart(Share(b, 2), Share(c, 2))
     + Apart(Share(b, 3), Share(c, 3))) / 2.0
  }

  lemma OverCommon(x: int, y: int, m: int, k: int)
    requires m > 0 && k > 0
    ensures Apart(x as real / m as real, y as real / k as real) * (m as real * k as real)
            == AbsDiff(x * k, y * m) as real
  {
    var p, q, r, s := x as real, y as real, m as real, k as real;
    assert (p / r) * (r * s) == p * s;
    assert (q / s) * (r * s) == q * r;
    assert p * s == (x * k) as real && q * r == (y * m) as real;
    var u, v, w := p / r, q / s, r * s;
    assert w > 0.0;
    if u < v {
      assert (v - u) * w == v * w - u * w && u * w <= v * w;
    } else {
      assert (u - v) * w == u * w - v * w && v * w <= u * w;
    }
  }

  lemma BinApart(b: Hist, c: Hist, i: nat)
    requires i < 4 && Mass(b) > 0 && Mass(c) > 0
    ensures Apart(Share(b, i), Share(c, i)) * (Mass(b) as real * Mass(c) as real)
            == AbsDiff(c[i] * Mass(b), b[i] * Mass(c)) as real
  {
    hide Mass;
    OverCommon(b[i], c[i], Mass(b), Mass(c));
  }

  lemma FourTerms(x: real, y: real, z: real, w: real, k: real)
    ensures (x + y + z + w) / 2.0 * (2.0 * k) == x * k + y * k + z * k + w * k
  {
    var s := x + y + z + w;
    assert s / 2.0 * (2.0 * k) == s * k;
  }

  lemma DistanceTimesMasses(b: Hist, c: Hist)
    requires Mass(b) > 0 && Mass(c) > 0
    ensures Distance(b, c) * (2.0 * (Mass(b) as real * Mass(c) as real)) == Gap(b, c, 4) as real
  {
    hide Mass, Share, Apart, AbsDiff;
    BinApart(b, c, 0);
    BinApart(b, c, 1);
    BinApart(b, c, 2);
    BinApart(b, c, 3);
    FourTerms(Apart(Share(b, 0), Share(c, 0)), Apart(Share(b, 1), Share(c, 1)), Apart(Share(b, 2), Share(c, 2)),
              Apart(Share(b, 3), Share(c, 3)), Mass(b) as real * Mass(c) as real);
    FourGaps(b, c);
  }

  lemma FourGaps(b: Hist, c: Hist)
    ensures Gap(b, c, 4)
            == AbsDiff(c[0] * Mass(b), b[0] * Mass(c)) + AbsDiff(c[1] * Mass(b), b[1] * Mass(c))
               + AbsDiff(c[2] * Mass(b), b[2] * Mass(c)) + AbsDiff(c[3] * Mass(b), b[3] * Mass(c))
  {
    hide Mass, AbsDiff;
    assert Gap(b, c, 1) == AbsDiff(c[0] * Mass(b), b[0] * Mass(c));
    assert Gap(b, c, 2) == Gap(b, c, 1) + AbsDiff(c[1] * Mass(b), b[1] * Mass(c));
    assert Gap(b, c, 3) == Gap(b, c, 2) + AbsDiff(c[2] * Mass(b), b[2] * Mass(c));
  }

  lemma Floored(g: nat, m: nat, d: real)
    requires m > 0 && d * m as real == g as real
    ensures (10_000 * g / m) as real <= 10_000.0 * d < (10_000 * g / m + 1) as real
  {
    var q, w, x := 10_000 * g / m, m as real, 10_000.0 * d;
    assert q * m <= 10_000 * g < q * m + m;
    assert x * w == (10_000 * g) as real;
    assert q as real * w == (q * m) as real;
    assert (q as real + 1.0) * w == q as real * w + w;
    RealCancel(q as real, x, w);
    RealCancel(x, q as real + 1.0, w);
  }

  lemma RealCancel(x: real, y: real, w: real)
    requires w > 0.0
    ensures x * w <= y * w ==> x <= y
    ensures x * w < y * w ==> x < y
  {}

  /** The score is the total variation distance of the two distributions, in basis points, rounded down. */
  lemma ScoreIsDistance(b: Hist, c: Hist)
    requires Mass(b) > 0 && Mass(c) > 0
    ensures Score(b, c).Some?
    ensures Score(b, c).value as real <= 10_000.0 * Distance(b, c) < (Score(b, c).value + 1) as real
  {
    hide Mass, Distance, Gap;
    var m := 2 * Mass(c) * Mass(b);
    Positive(2 * Mass(c), Mass(b));
    DistanceTimesMasses(b, c);
    assert m as real == 2.0 * (Mass(b) as real * Mass(c) as real);
    Floored(Gap(b, c, 4), m, Distance(b, c));
  }
}
