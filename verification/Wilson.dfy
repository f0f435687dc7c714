/** The exact 95% Wilson interval of the audit report (crates/watch/src/auditmath.rs), in millionths:
    center = (1250 num + 2401) / (2 D), half = 49 sqrt(M) / (2 den D), D = 625 den + 2401. */
module Wilson {
  import opened Basics
  import opened Arith
  import W = Wide

  const MILLION: nat := 1_000_000
  /** (49 * 10^6)^2 */
  const K: nat := 2_401_000_000_000_000

  function Sq(x: int): (r: int)
    ensures r >= 0
  {
    x * x
  }

  lemma SqMono(x: int, y: int)
    requires 0 <= x <= y
    ensures Sq(x) <= Sq(y)
    ensures x < y ==> Sq(x) < Sq(y)
  {}

  // ---- the comparison the searches rest on ----

  /** q <= rn/rd - 49*10^6 sqrt(m)/e, without the root. */
  predicate AtMostMinus(rn: int, rd: nat, m: nat, e: nat, q: int) {
    rn - q * rd >= 0 && Sq((rn - q * rd) * e) >= K * m * (rd * rd)
  }

  /** q <= rn/rd + 49*10^6 sqrt(m)/e, without the root. */
  predicate AtMostPlus(rn: int, rd: nat, m: nat, e: nat, q: int) {
    q * rd - rn <= 0 || Sq((q * rd - rn) * e) <= K * m * (rd * rd)
  }

  lemma DiffFalls(rn: int, rd: nat, e: nat, p: int, q: int)
    requires p <= q
    ensures rn - q * rd <= rn - p * rd
    ensures rn - q * rd >= 0 ==> 0 <= (rn - q * rd) * e <= (rn - p * rd) * e
    ensures p * rd - rn >= 0 ==> 0 <= (p * rd - rn) * e <= (q * rd - rn) * e
  {
    MulMono(rd, p, q);
    MulMono(e, rn - q * rd, rn - p * rd);
    if rn - q * rd >= 0 { MulMono(e, 0, rn - q * rd); }
    if p * rd - rn >= 0 { MulMono(e, 0, p * rd - rn); }
  }

  lemma MinusDown(rn: int, rd: nat, m: nat, e: nat, p: int, q: int)
    requires p <= q && AtMostMinus(rn, rd, m, e, q)
    ensures AtMostMinus(rn, rd, m, e, p)
  {
    DiffFalls(rn, rd, e, p, q);
    SqMono((rn - q * rd) * e, (rn - p * rd) * e);
  }

  lemma PlusDown(rn: int, rd: nat, m: nat, e: nat, p: int, q: int)
    requires p <= q && AtMostPlus(rn, rd, m, e, q)
    ensures AtMostPlus(rn, rd, m, e, p)
  {
    DiffFalls(rn, rd, e, p, q);
    if p * rd - rn > 0 { SqMono((p * rd - rn) * e, (q * rd - rn) * e); }
  }

  // ---- the same comparison in 256 bits ----

  const P24: nat := 0x100_0000
  const P35: nat := 0x8_0000_0000
  const P44: nat := 0x1000_0000_0000
  const P48: nat := 0x1_0000_0000_0000
  const P90: nat := 0x400_0000_0000_0000_0000_0000

  /** The magnitudes that a denominator of at most 4096 leads to. */
  predicate Fits(rn: int, rd: nat, m: nat, e: nat) {
    0 <= rn < P44 && 0 < rd < P24 && m < P48 && 0 < e < P35
  }

  datatype Ordering = Less | Equal | Greater

  function Order(x: int, y: int): Ordering { if x < y then Less else if x == y then Equal else Greater }

  function Compare(x: W.U256, y: W.U256): (r: Ordering)
    ensures r == Order(W.Value(x), W.Value(y))
  {
    if W.Less(x, y) then Less else if x == y then Equal else Greater
  }

  /** (diff * e)^2 against 2401*10^12 * m * rd^2, through the 256-bit products the program uses. */
  function CompareSquares(diff: W.U128, rd: W.U128, m: W.U128, e: W.U128): (r: Ordering)
    ensures 0 < rd < P24 && m < P48 && e < P35 && diff < P90 ==> r == Order(Sq(diff * e), K * m * (rd * rd))
  {
    var left := W.MulWide(W.Mul(diff, e), W.SaturatingMul(diff, e));
    var right := W.MulWide(W.Mul(K, m), W.SaturatingMul(rd, rd));
    if rd < P24 && m < P48 && e < P35 && diff < P90 then
      NoneSaturates(diff, rd, m, e);
      Compare(left, right)
    else Compare(left, right)
  }

  lemma NoneSaturates(diff: nat, rd: nat, m: nat, e: nat)
    requires rd < P24 && m < P48 && e < P35 && diff < P90
    ensures diff * e < W.B128 / 2 && rd * rd < W.B128 && diff < W.B128 / 2 && m < W.B128 / 2
    ensures (diff * e) * (diff * e) < W.B256 && K * m * (rd * rd) < W.B256
  {
    ProductAtMost(diff, e, P90, P35);
    ProductAtMost(diff * e, diff * e, P90 * P35, P90 * P35);
    ProductAtMost(rd, rd, P24, P24);
    ProductAtMost(K * m, rd * rd, K * P48, P24 * P24);
  }

  // ---- the searches ----

  /** Where the binary64 estimate may land: anywhere within 2^64 of zero. */
  const RANGE: int := 0x1_0000_0000_0000_0000
  predicate InRange(start: int) { -RANGE <= start <= RANGE }

  lemma DiffFits(rn: int, rd: nat, q: int)
    requires 0 <= rn < P44 && rd < P24 && -RANGE <= q <= RANGE + 1
    ensures rn - q * rd < P90 && q * rd - rn < P90
  {
    var k := if q >= 0 then q else -q;
    ProductAtMost(k, rd, RANGE + 1, P24);
    assert k * rd == if q >= 0 then q * rd else -(q * rd);
  }

  lemma FactorAtMost(q: int, rd: nat, rn: nat)
    requires rd > 0 && q * rd <= rn
    ensures q <= rn
  {
    if q > 0 { MulMono(q, 1, rd); }
  }

  lemma TestMinus(rn: int, rd: nat, m: nat, e: nat, q: int)
    requires Fits(rn, rd, m, e) && -RANGE <= q <= RANGE + 1
    ensures rn - q * rd < 0 ==> !AtMostMinus(rn, rd, m, e, q)
    ensures rn - q * rd >= 0 ==>
              rn - q * rd < W.B128 && (CompareSquares(rn - q * rd, rd, m, e) != Less <==> AtMostMinus(rn, rd, m, e, q))
                  && q < P44
  {
    hide Sq, CompareSquares;
    DiffFits(rn, rd, q);
    if rn - q * rd >= 0 { FactorAtMost(q, rd, rn); }
  }

  lemma TestPlus(rn: int, rd: nat, m: nat, e: nat, q: int)
    requires Fits(rn, rd, m, e) && -RANGE <= q <= RANGE + 1
    ensures q * rd - rn <= 0 ==> AtMostPlus(rn, rd, m, e, q)
    ensures q * rd - rn > 0 ==>
              q * rd - rn < W.B128 && q > 0
              && (CompareSquares(q * rd - rn, rd, m, e) != Greater <==> AtMostPlus(rn, rd, m, e, q))
  {
    hide Sq, CompareSquares;
    DiffFits(rn, rd, q);
    if q <= 0 { MulMono(rd, q, 0); }
  }

  /** The largest q at or below rn/rd - U, from any starting estimate: the loops repair it. */
  method FloorMinus(rn: int, rd: nat, m: nat, e: nat, start: int) returns (q: int)
    requires Fits(rn, rd, m, e) && InRange(start)
    requires AtMostMinus(rn, rd, m, e, 0)
    ensures AtMostMinus(rn, rd, m, e, q) && !AtMostMinus(rn, rd, m, e, q + 1)
  {
    hide Sq, CompareSquares, AtMostMinus;
    q := start;
    while true
      invariant -RANGE <= q <= RANGE
      decreases RANGE - q
    {
      TestMinus(rn, rd, m, e, q + 1);
      var diff := rn - (q + 1) * rd;
      if diff < 0 || CompareSquares(diff, rd, m, e) == Less { break; }
      q := q + 1;
    }
    TestMinus(rn, rd, m, e, q + 1);
    while true
      invariant -RANGE <= q <= RANGE && !AtMostMinus(rn, rd, m, e, q + 1)
      decreases if q > 0 then q else 0
    {
      TestMinus(rn, rd, m, e, q);
      var diff := rn - q * rd;
      if diff >= 0 && CompareSquares(diff, rd, m, e) != Less { break; }
      NotBelowZero(rn, rd, m, e, q);
      q := q - 1;
    }
  }

  lemma NotBelowZero(rn: int, rd: nat, m: nat, e: nat, q: int)
    requires AtMostMinus(rn, rd, m, e, 0) && !AtMostMinus(rn, rd, m, e, q)
    ensures q > 0
  {
    hide AtMostMinus;
    if q <= 0 { MinusDown(rn, rd, m, e, q, 0); }
  }

  lemma NotAboveMillion(rn: int, rd: nat, m: nat, e: nat, q: int)
    requires !AtMostPlus(rn, rd, m, e, MILLION + 1) && AtMostPlus(rn, rd, m, e, q)
    ensures q <= MILLION
  {
    hide AtMostPlus;
    if q > MILLION { PlusDown(rn, rd, m, e, MILLION + 1, q); }
  }

  /** The largest q at or below rn/rd + U. */
  method FloorPlus(rn: int, rd: nat, m: nat, e: nat, start: int) returns (q: int)
    requires Fits(rn, rd, m, e) && InRange(start)
    requires !AtMostPlus(rn, rd, m, e, MILLION + 1)
    ensures AtMostPlus(rn, rd, m, e, q) && !AtMostPlus(rn, rd, m, e, q + 1)
  {
    hide Sq, CompareSquares, AtMostPlus;
    q := start;
    while true
      invariant -RANGE <= q <= RANGE
      decreases RANGE - q
    {
      TestPlus(rn, rd, m, e, q + 1);
      var diff := (q + 1) * rd - rn;
      if diff > 0 && CompareSquares(diff, rd, m, e) == Greater { break; }
      NotAboveMillion(rn, rd, m, e, q + 1);
      q := q + 1;
    }
    TestPlus(rn, rd, m, e, q + 1);
    while true
      invariant -RANGE <= q <= RANGE && !AtMostPlus(rn, rd, m, e, q + 1)
      decreases if q > 0 then q else 0
    {
      TestPlus(rn, rd, m, e, q);
      var diff := q * rd - rn;
      if diff <= 0 || CompareSquares(diff, rd, m, e) != Greater { break; }
      q := q - 1;
    }
  }
}
