/** The few facts about products and quotients that the exact arithmetic rests on. */
module Arith {
  lemma MulMono(k: nat, x: int, y: int)
    requires x <= y
    ensures k * x <= k * y
  {}

  lemma MulStrict(k: int, x: int, y: int)
    requires k > 0 && x < y
    ensures k * x < k * y
  {}

  lemma Positive(x: int, y: int)
    requires x > 0 && y > 0
    ensures x * y > 0
  {}

  lemma CancelLt(k: int, x: int, y: int)
    requires k >= 0 && k * x < k * y
    ensures x < y
  {
    if x >= y { MulMono(k, y, x); }
  }

  lemma CancelLe(k: int, x: int, y: int)
    requires k > 0 && k * x <= k * y
    ensures x <= y
  {
    if x > y { MulStrict(k, y, x); }
  }

  lemma ProductAtMost(x: nat, y: nat, m: nat, n: nat)
    requires x <= m && y <= n
    ensures x * y <= m * n
  {
    MulMono(x, y, n);
    MulMono(n, x, m);
  }

  lemma Shuffle(x: int, k: int, y: int)
    ensures x * (k * y) == k * (x * y) == (k * y) * x == (k * x) * y == y * (k * x)
  {}

  lemma QuotientAtMost(x: nat, y: nat, q: nat)
    requires y > 0 && x <= q * y
    ensures x / y <= q
  {
    assert x == y * (x / y) + x % y;
    assert y * (q + 1) == q * y + y;
    CancelLt(y, x / y, q + 1);
  }

  lemma QuotientBelow(x: nat, y: nat, q: nat)
    requires y > 0 && x < q * y
    ensures x / y < q
  {
    assert x == y * (x / y) + x % y;
    CancelLt(y, x / y, q);
  }

  lemma DivisionUnique(x: nat, y: nat, q: nat, r: nat)
    requires y > 0 && x == q * y + r && r < y
    ensures x / y == q && x % y == r
  {
    var q', r' := x / y, x % y;
    assert x == y * q' + r';
    assert y * (q + 1) == q * y + y && y * (q' + 1) == y * q' + y;
    CancelLt(y, q', q + 1);
    CancelLt(y, q, q' + 1);
  }

  lemma QuotientScale(k: nat, x: nat, y: nat)
    requires k > 0 && y > 0
    ensures k * y > 0 && (k * x) / (k * y) == x / y
  {
    var q, r := x / y, x % y;
    Positive(k, y);
    assert x == q * y + r;
    assert k * x == k * (q * y) + k * r;
    Shuffle(k, q, y);
    MulStrict(k, r, y);
    MulMono(k, 0, r);
    DivisionUnique(k * x, k * y, q, k * r);
  }
}
