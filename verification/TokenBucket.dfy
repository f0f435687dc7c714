/** The per-principal token bucket (crates/watch/src/daemon.rs, `rate_ok`), in thousandths of a token. */
module TokenBucket {
  import opened Arith

  const RATE: nat := 100
  const FULL: nat := 100_000

  datatype Bucket = Bucket(milli: nat, lastMs: nat)

  function Cap(x: nat): nat { if x < FULL then x else FULL }

  /** The lazy refill: all the milliseconds since the last call at once. */
  function Refill(b: Bucket, now: nat): Bucket {
    var elapsed := if now < b.lastMs then 0 else now - b.lastMs;
    Bucket(Cap(b.milli + elapsed * RATE), now)
  }

  predicate Admits(b: Bucket, now: nat) { Refill(b, now).milli >= 1000 }

  function After(b: Bucket, now: nat): Bucket {
    var r := Refill(b, now);
    if r.milli >= 1000 then r.(milli := r.milli - 1000) else r
  }

  // ---- lazy refill against refilling every millisecond ----

  function EveryMs(milli: nat, ms: nat): nat {
    if ms == 0 then milli else Cap(EveryMs(milli, ms - 1) + RATE)
  }

  lemma {:induction false} LazyIsEveryMs(milli: nat, ms: nat)
    requires milli <= FULL
    ensures EveryMs(milli, ms) == Cap(milli + ms * RATE)
  {
    if ms > 0 { LazyIsEveryMs(milli, ms - 1); }
  }

  /** So a refill can be split at any instant in between. */
  lemma RefillSplits(b: Bucket, mid: nat, now: nat)
    requires b.milli <= FULL && b.lastMs <= mid <= now
    ensures Refill(Refill(b, mid), now) == Refill(b, now)
    ensures Refill(b, now).milli == EveryMs(b.milli, now - b.lastMs)
  {
    LazyIsEveryMs(b.milli, now - b.lastMs);
  }

  // ---- over whole call sequences ----

  ghost predicate Nondecreasing(ts: seq<nat>) { forall i, j | 0 <= i <= j < |ts| :: ts[i] <= ts[j] }

  function Played(b: Bucket, ts: seq<nat>): Bucket {
    if ts == [] then b else After(Played(b, ts[..|ts| - 1]), ts[|ts| - 1])
  }

  function Admitted(b: Bucket, ts: seq<nat>): nat {
    if ts == [] then 0
    else Admitted(b, ts[..|ts| - 1]) + if Admits(Played(b, ts[..|ts| - 1]), ts[|ts| - 1]) then 1 else 0
  }

  /** What was admitted and what is left never exceed what was there and what flowed in. */
  lemma {:induction false} Conservation(b: Bucket, ts: seq<nat>)
    requires b.milli <= FULL && Nondecreasing(ts) && (ts != [] ==> b.lastMs <= ts[0])
    ensures Played(b, ts).milli <= FULL
    ensures Played(b, ts).lastMs == if ts == [] then b.lastMs else ts[|ts| - 1]
    ensures 1000 * Admitted(b, ts) + Played(b, ts).milli <= b.milli + RATE * (Played(b, ts).lastMs - b.lastMs)
  {
    if ts != [] {
      var pre := ts[..|ts| - 1];
      Conservation(b, pre);
    }
  }

  /** Over any calls at nondecreasing times, at most a burst of 100 plus one call per 10 ms is admitted. */
  lemma RateBound(b: Bucket, ts: seq<nat>)
    requires b.milli <= 100_000 && Nondecreasing(ts) && ts != [] && b.lastMs <= ts[0]
    ensures 10 * Admitted(b, ts) <= 1000 + ts[|ts| - 1] - b.lastMs
  {
    Conservation(b, ts);
  }

  /** Of any number of calls at one instant on a fresh bucket exactly the first 100 are admitted. */
  lemma {:induction false} BurstIsHundred(start: nat, at: nat, n: nat)
    requires start <= at
    ensures var ts := seq(n, i => at);
            && Admitted(Bucket(FULL, start), ts) == (if n < 100 then n else 100)
            && Played(Bucket(FULL, start), ts)
               == if n == 0 then Bucket(FULL, start) else Bucket(100_000 - (if n < 100 then n else 100) * 1000, at)
  {
    if n > 0 {
      BurstIsHundred(start, at, n - 1);
      assert seq(n, i => at)[..n - 1] == seq(n - 1, i => at);
    }
  }

  /** Calls at least 10 ms apart on a fresh bucket are never refused. */
  lemma {:induction false} SpacedNeverRefused(start: nat, ts: seq<nat>)
    requires forall i | 0 <= i < |ts| - 1 :: ts[i] + 10 <= ts[i + 1]
    requires ts != [] ==> start <= ts[0]
    ensures Admitted(Bucket(FULL, start), ts) == |ts|
    ensures ts != [] ==> Played(Bucket(FULL, start), ts) == Bucket(FULL - 1000, ts[|ts| - 1])
  {
    if ts != [] {
      var pre := ts[..|ts| - 1];
      SpacedNeverRefused(start, pre);
      if pre != [] { assert pre[|pre| - 1] + 10 <= ts[|ts| - 1]; }
    }
  }
}
