/** The 256-bit integers of the audit arithmetic (crates/watch/src/auditmath.rs): two 128-bit limbs, multiplied through
    64-bit halves with wrapping additions. */
module Wide {
  import opened Arith

  const B64: nat := 0x1_0000_0000_0000_0000
  const B128: nat := 0x1_0000_0000_0000_0000_0000_0000_0000_0000
  const B256: nat := B128 * B128

  type U64 = n: nat | n < B64
  type U128 = n: nat | n < B128

  datatype U256 = U256(hi: U128, lo: U128)

  function Value(x: U256): nat { x.hi * B128 + x.lo }

  function WrappingAdd(a: U128, b: U128): U128 { if a + b >= B128 then a + b - B128 else a + b }
  function SaturatingMul(a: U128, b: U128): U128 { if a * b >= B128 then B128 - 1 else a * b }

  lemma HalvesFit(a: U64, b: U64)
    ensures a * b <= (B64 - 1) * (B64 - 1) < B128 - B64
  {
    ProductAtMost(a, b, B64 - 1, B64 - 1);
  }

  lemma Expand(al: int, ah: int, bl: int, bh: int)
    ensures (ah * B64 + al) * (bh * B64 + bl) == (ah * bh) * B128 + (al * bh + ah * bl) * B64 + al * bl
  {
    calc {
      (ah * B64 + al) * (bh * B64 + bl);
      (ah * B64) * (bh * B64) + (ah * B64) * bl + al * (bh * B64) + al * bl;
      { assert (ah * B64) * (bh * B64) == (ah * bh) * (B64 * B64); assert B64 * B64 == B128; }
      (ah * bh) * B128 + (ah * bl) * B64 + (al * bh) * B64 + al * bl;
    }
  }

  lemma HighLimbFits(hi: nat, lo: nat, a: U128, b: U128)
    requires hi * B128 + lo == a * b
    ensures hi < B128
  {
    ProductAtMost(a, b, B128 - 1, B128 - 1);
    CancelLt(B128, hi, B128);
  }

  /** The full product of two 128-bit numbers, for every pair of them. */
  function Mul(a: U128, b: U128): (r: U256)
    ensures Value(r) == a * b
  {
    var al: U64, ah: U64, bl: U64, bh: U64 := a % B64, a / B64, b % B64, b / B64;
    HalvesFit(al, bl);
    HalvesFit(al, bh);
    HalvesFit(ah, bl);
    HalvesFit(ah, bh);
    var ll: U128, lh: U128, hl: U128, hh: U128 := al * bl, al * bh, ah * bl, ah * bh;
    var mid := WrappingAdd(lh, hl);
    var carry := if mid < lh then B64 else 0;
    var lo := WrappingAdd(ll, (mid % B64) * B64);
    var loCarry := if lo < ll then 1 else 0;
    var hi := hh + mid / B64 + carry + loCarry;
    Expand(al, ah, bl, bh);
    assert hi * B128 + lo == hh * B128 + (lh + hl) * B64 + ll;
    HighLimbFits(hi, lo, a, b);
    U256(hi, lo)
  }

  /** The sum of the middle products needs no wrap as long as both factors are under 2^127. */
  lemma MiddleFits(a: U128, b: U128)
    requires a < B128 / 2 && b < B128 / 2
    ensures (a % B64) * (b / B64) + (a / B64) * (b % B64) < B128
  {
    ProductAtMost(a % B64, b / B64, B64 - 1, B64 / 2 - 1);
    ProductAtMost(a / B64, b % B64, B64 / 2 - 1, B64 - 1);
  }

  /** Product with a 128-bit number, modulo 2^256. */
  function MulWide(x: U256, y: U128): (r: U256)
    ensures Value(r) == (Value(x) * y) % B256
    ensures Value(x) * y < B256 ==> Value(r) == Value(x) * y
  {
    var lo, hi := Mul(x.lo, y), Mul(x.hi, y);
    var r := U256(WrappingAdd(lo.hi, hi.lo), lo.lo);
    WideProduct(x, y, lo, hi, r);
    r
  }

  lemma WideProduct(x: U256, y: U128, lo: U256, hi: U256, r: U256)
    requires Value(lo) == x.lo * y && Value(hi) == x.hi * y
    requires r == U256(WrappingAdd(lo.hi, hi.lo), lo.lo)
    ensures Value(r) == (Value(x) * y) % B256
    ensures Value(x) * y < B256 ==> Value(r) == Value(x) * y
  {
    var over := if lo.hi + hi.lo >= B128 then 1 else 0;
    assert Value(x) * y == (x.hi * y) * B128 + x.lo * y;
    assert Value(x) * y == (hi.hi + over) * B256 + Value(r);
    Remainder(Value(x) * y, hi.hi + over, Value(r));
  }

  lemma Remainder(n: nat, k: nat, r: nat)
    requires n == k * B256 + r && r < B256
    ensures n % B256 == r && (n < B256 ==> n == r)
  {
  }

  /** Comparing limb by limb compares the numbers. */
  predicate Less(x: U256, y: U256)
    ensures Less(x, y) <==> Value(x) < Value(y)
  {
    x.hi < y.hi || (x.hi == y.hi && x.lo < y.lo)
  }
}
