/** The number profile of signed documents (crates/watch/src/json.rs, `int_profile_bounded`): one spelling per value. */
module Profile {
  import opened Basics
  import opened Arith

  ghost predicate AllDigits(s: string) { forall i | 0 <= i < |s| :: Digit(s[i]) }

  /** The number a string of digits reads as. */
  function Reading(s: string): nat
    requires AllDigits(s)
  {
    if s == "" then 0 else Reading(s[..|s| - 1]) * 10 + (s[|s| - 1] as int - '0' as int)
  }

  /** How a counter is written. */
  function Decimal(n: nat): (s: string)
    ensures s != "" && AllDigits(s)
    ensures s[0] == '0' ==> n == 0 && |s| == 1
  {
    if n < 10 then [(n + '0' as int) as char] else Decimal(n / 10) + [(n % 10 + '0' as int) as char]
  }

  lemma {:induction false} DecimalReads(n: nat)
    ensures Reading(Decimal(n)) == n
  {
    if n < 10 {
      assert Decimal(n)[..0] == "";
    } else {
      DecimalReads(n / 10);
      assert Decimal(n)[..|Decimal(n)| - 1] == Decimal(n / 10);
    }
  }

  lemma {:induction false} ReadingWritten(s: string)
    requires AllDigits(s) && s != "" && s[0] != '0'
    ensures Reading(s) > 0 && Decimal(Reading(s)) == s
  {
    var pre, d := s[..|s| - 1], s[|s| - 1] as int - '0' as int;
    if pre != "" {
      ReadingWritten(pre);
      assert Reading(s) / 10 == Reading(pre) && Reading(s) % 10 == d;
      assert s == pre + [s[|s| - 1]];
    } else {
      assert Reading(s) == d;
      assert s == [s[0]];
    }
  }

  /** `0` or a digit string without leading zeros, no greater than `max`; everything else is refused. Parsing stops at
      64 bits, which the bound never exceeds. */
  method IntProfile(raw: string, max: nat) returns (r: Option<nat>)
    requires max <= U64_MAX
    ensures forall n: nat :: r == Some(n) <==> n <= max && raw == Decimal(n)
  {
    if raw == "" { return None; }
    if raw[0] == '0' {
      if |raw| != 1 { return None; }
      assert Decimal(0) == "0";
      assert raw == Decimal(0);
      forall n: nat | raw == Decimal(n) ensures n == 0 { DecimalReads(n); DecimalReads(0); }
      return Some(0);
    }
    var i := 0;
    while i < |raw|
      invariant i <= |raw| && forall k | 0 <= k < i :: Digit(raw[k])
    {
      if !Digit(raw[i]) {
        forall n: nat ensures raw != Decimal(n) { assert AllDigits(Decimal(n)); }
        return None;
      }
      i := i + 1;
    }
    ReadingWritten(raw);
    forall n: nat | raw == Decimal(n) ensures n == Reading(raw) { DecimalReads(n); }
    var v := ParseDigits(raw);
    if v.None? || v.value > max { return None; }
    return v;
  }

  /** The number, unless it overflows 64 bits. */
  method ParseDigits(raw: string) returns (v: Option<nat>)
    requires AllDigits(raw)
    ensures v == if Reading(raw) <= U64_MAX then Some(Reading(raw)) else None
  {
    var total, i := 0, 0;
    while i < |raw|
      invariant i <= |raw| && total == Reading(raw[..i])
    {
      assert raw[..i + 1][..i] == raw[..i];
      total := total * 10 + (raw[i] as int - '0' as int);
      i := i + 1;
    }
    assert raw[..i] == raw;
    return if total <= U64_MAX then Some(total) else None;
  }
}
