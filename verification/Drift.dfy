/** The drift reducer (crates/watch/src/drift.rs): a state machine over trailing windows,
    proved equal to a reference that only counts consecutive windows of one class. */
module DriftReducer {
  import opened Basics
  import opened Records

  datatype Input = NoWindow | Supplied(samples: nat, score: nat)
  datatype Slot = Slot(start: nat, input: Input)
  datatype Class = High | Low | Middle

  function Classify(score: nat, p: Policy): Class {
    if score >= p.driftHighBp then High else if score < p.driftLowBp then Low else Middle
  }

  predicate Replayed(d: Drift, start: nat) { d.lastWindowMs.Some? && start <= d.lastWindowMs.value }

  /** The class a slot counts as after `last`, or None when it is missing, gapped or too small. */
  function ClassAfter(last: Option<nat>, w: Slot, p: Policy): Option<Class> {
    match w.input
    case NoWindow => None
    case Supplied(samples, score) =>
      if last.Some? && w.start > last.value + WINDOW_MS then None
      else if samples < p.minWindowSamples then None
      else Some(Classify(score, p))
  }

  function DataAfter(last: Option<nat>, w: Slot, p: Policy): WindowData {
    if w.input.NoWindow? || (last.Some? && w.start > last.value + WINDOW_MS) then DataMissing
    else if w.input.samples < p.minWindowSamples then DataInsufficient else DataComplete
  }

  /** One slot's transition. */
  function Next(d: Drift, w: Slot, p: Policy): Drift {
    if Replayed(d, w.start) then d else
    var d1 := d.(lastWindowMs := Some(w.start), data := DataAfter(d.lastWindowMs, w, p));
    match ClassAfter(d.lastWindowMs, w, p)
    case None =>
      d1.(state := if d.state == Drifting then Drifting else Warmup, highStreak := 0, lowStreak := 0, scoreBp := None)
    case Some(c) =>
      var d2 := d1.(scoreBp := Some(w.input.score));
      if d.state == Drifting then
        if c != Low then d2.(highStreak := 0, lowStreak := 0)
        else if d.lowStreak + 1 >= p.lowWindows then d2.(state := Stable, highStreak := 0, lowStreak := 0)
        else d2.(highStreak := 0, lowStreak := d.lowStreak + 1)
      else if c != High then d2.(state := Stable, highStreak := 0, lowStreak := 0)
      else if d.state != Suspect then d2.(state := Suspect, highStreak := 1, lowStreak := 0)
      else if d.highStreak + 1 >= p.highWindows then d2.(state := Drifting, highStreak := p.highWindows, lowStreak := 0)
      else d2.(highStreak := d.highStreak + 1, lowStreak := 0)
  }

  /** `step`: copies the prior state and assigns its fields. */
  method Step(prior: Drift, w: Slot, p: Policy) returns (next: Drift)
    ensures next == Next(prior, w, p)
  {
    next := prior;
    if prior.lastWindowMs.Some? && w.start <= prior.lastWindowMs.value { return; }
    var gapped := prior.lastWindowMs.Some? && w.start > prior.lastWindowMs.value + WINDOW_MS;
    var kind: Option<Class>, data := None, DataMissing;
    if w.input.Supplied? && !gapped {
      if w.input.samples < p.minWindowSamples {
        data := DataInsufficient;
      } else {
        kind, data := Some(Classify(w.input.score, p)), DataComplete;
      }
    }
    next := next.(lastWindowMs := Some(w.start), data := data);
    if kind.None? {
      next := next.(highStreak := 0, lowStreak := 0, scoreBp := None);
      if next.state != Drifting { next := next.(state := Warmup); }
      return;
    }
    next := next.(scoreBp := Some(w.input.score));
    match (prior.state, kind.value) {
      case (Suspect, High) =>
        var h := prior.highStreak + 1;
        if h >= p.highWindows {
          next := next.(state := Drifting, highStreak := p.highWindows, lowStreak := 0);
        } else {
          next := next.(state := Suspect, highStreak := h, lowStreak := 0);
        }
      case (Drifting, Low) =>
        var l := prior.lowStreak + 1;
        if l >= p.lowWindows {
          next := next.(state := Stable, highStreak := 0, lowStreak := 0);
        } else {
          next := next.(state := Drifting, highStreak := 0, lowStreak := l);
        }
      case (Drifting, _) => next := next.(state := Drifting, highStreak := 0, lowStreak := 0);
      case (_, High) => next := next.(state := Suspect, highStreak := 1, lowStreak := 0);
      case (_, _) => next := next.(state := Stable, highStreak := 0, lowStreak := 0);
    }
  }

  /** The state after a whole history of slots. */
  function After(d: Drift, ws: seq<Slot>, p: Policy): Drift {
    if ws == [] then d else Next(After(d, ws[..|ws| - 1], p), ws[|ws| - 1], p)
  }

  /** `fold` over an ordered list of complete windows. */
  method Fold(prior: Drift, ws: seq<(nat, nat, nat)>, p: Policy) returns (d: Drift)
    ensures d == After(prior, seq(|ws|, i requires 0 <= i < |ws| => Slot(ws[i].0, Supplied(ws[i].1, ws[i].2))), p)
  {
    d := prior;
    ghost var slots := seq(|ws|, i requires 0 <= i < |ws| => Slot(ws[i].0, Supplied(ws[i].1, ws[i].2)));
    for i := 0 to |ws|
      invariant d == After(prior, slots[..i], p)
    {
      assert slots[..i + 1][..i] == slots[..i];
      d := Step(d, Slot(ws[i].0, Supplied(ws[i].1, ws[i].2)), p);
    }
    assert slots[..|ws|] == slots;
  }

  // ---- replays ----

  /** The history without replayed or stale starts. */
  function Fresh(ws: seq<Slot>): (r: seq<Slot>)
    ensures forall i, j | 0 <= i < j < |r| :: r[i].start < r[j].start
    ensures |r| <= |ws|
  {
    if ws == [] then [] else
      var r, w := Fresh(ws[..|ws| - 1]), ws[|ws| - 1];
      if r != [] && w.start <= r[|r| - 1].start then r else r + [w]
  }

  lemma {:induction false} ReplaysChangeNothing(ws: seq<Slot>, p: Policy)
    ensures After(FRESH, Fresh(ws), p) == After(FRESH, ws, p)
  {
    if ws != [] {
      var pre, r := ws[..|ws| - 1], Fresh(ws[..|ws| - 1]);
      ReplaysChangeNothing(pre, p);
      LastStart(r, p);
      if !(r != [] && ws[|ws| - 1].start <= r[|r| - 1].start) {
        assert Fresh(ws)[..|r|] == r;
      }
    }
  }

  lemma {:induction false} LastStart(ws: seq<Slot>, p: Policy)
    requires forall i, j | 0 <= i < j < |ws| :: ws[i].start < ws[j].start
    ensures After(FRESH, ws, p).lastWindowMs == if ws == [] then None else Some(ws[|ws| - 1].start)
  {
    if ws != [] {
      LastStart(ws[..|ws| - 1], p);
    }
  }

  // ---- the reference: consecutive windows, counted since the last switch ----

  /** The class slot i counts as in a history of increasing starts. */
  function ClassAt(ws: seq<Slot>, i: nat, p: Policy): Option<Class>
    requires i < |ws|
  {
    match ws[i].input
    case NoWindow => None
    case Supplied(samples, score) =>
      if samples < p.minWindowSamples || (i > 0 && ws[i].start > ws[i - 1].start + 10_000) then None
      else if score >= p.driftHighBp then Some(High)
      else if score < p.driftLowBp then Some(Low)
      else Some(Middle)
  }

  /** What is known of the latest slot: nothing if it is missing or follows a gap, not enough, or all. */
  function KnownOf(ws: seq<Slot>, p: Policy): WindowData {
    if ws == [] then DataMissing else
      var n, w := |ws| - 1, ws[|ws| - 1];
      if w.input.NoWindow? || (n > 0 && w.start > ws[n - 1].start + 10_000) then DataMissing
      else if w.input.samples < p.minWindowSamples then DataInsufficient else DataComplete
  }

  lemma ScoredIsSupplied(ws: seq<Slot>, p: Policy)
    requires ws != [] && ClassAt(ws, |ws| - 1, p).Some?
    ensures ws[|ws| - 1].input.Supplied?
  {}

  /** How many of the latest slots, none before `since`, are all of class c. */
  function Consecutive(ws: seq<Slot>, since: nat, c: Class, p: Policy): (n: nat)
    requires since <= |ws|
    ensures n <= |ws| - since
  {
    if |ws| == since || ClassAt(ws, |ws| - 1, p) != Some(c) then 0
    else Consecutive(ws[..|ws| - 1], since, c, p) + 1
  }

  /** It is the longest such run. */
  lemma {:induction false} ConsecutiveIsLongest(ws: seq<Slot>, since: nat, c: Class, p: Policy)
    requires since <= |ws|
    ensures var n := Consecutive(ws, since, c, p);
            && (forall i | |ws| - n <= i < |ws| :: ClassAt(ws, i, p) == Some(c))
            && (n < |ws| - since ==> ClassAt(ws, |ws| - n - 1, p) != Some(c))
  {
    if |ws| > since && ClassAt(ws, |ws| - 1, p) == Some(c) {
      var pre := ws[..|ws| - 1];
      ConsecutiveIsLongest(pre, since, c, p);
      assert forall i | 0 <= i < |pre| :: ClassAt(pre, i, p) == ClassAt(ws, i, p);
    }
  }

  function HighNeeded(p: Policy): nat { if p.highWindows < 2 then 2 else p.highWindows }
  function LowNeeded(p: Policy): nat { if p.lowWindows < 1 then 1 else p.lowWindows }

  datatype Verdict = Verdict(drifting: bool, since: nat)

  /** Drift by counting alone: enter after enough consecutive high windows, leave after enough low ones. */
  function Reference(ws: seq<Slot>, p: Policy): (v: Verdict)
    ensures v.since <= |ws|
  {
    if ws == [] then Verdict(false, 0) else
      var v := Reference(ws[..|ws| - 1], p);
      if !v.drifting && Consecutive(ws, v.since, High, p) >= HighNeeded(p) then Verdict(true, |ws|)
      else if v.drifting && Consecutive(ws, v.since, Low, p) >= LowNeeded(p) then Verdict(false, |ws|)
      else v
  }

  /** The streak counters and states of the reducer are exactly the reference's counts. */
  lemma {:induction false} ReducerMeetsReference(ws: seq<Slot>, p: Policy)
    requires forall i, j | 0 <= i < j < |ws| :: ws[i].start < ws[j].start
    ensures var d, v := After(FRESH, ws, p), Reference(ws, p);
            && (d.state == Drifting <==> v.drifting)
            && (d.state == Suspect <==> !v.drifting && Consecutive(ws, v.since, High, p) > 0)
            && (!v.drifting ==> d.highStreak == Consecutive(ws, v.since, High, p) < HighNeeded(p))
            && (v.drifting ==> d.lowStreak == Consecutive(ws, v.since, Low, p) < LowNeeded(p))
  {
    if ws != [] {
      hide Consecutive, ClassAt, Next, HighNeeded, LowNeeded;
      var n := |ws| - 1;
      var pre := ws[..n];
      ReducerMeetsReference(pre, p);
      var v := Reference(pre, p);
      ClassOfLast(ws, p);
      ConsecutiveGrows(ws, v.since, High, p);
      ConsecutiveGrows(ws, v.since, Low, p);
      NextCounts(After(FRESH, pre, p), ws[n], p, ClassAt(ws, n, p));
      FreshCount(ws, p);
    } else {
      FreshCount(ws, p);
    }
  }

  /** The latest slot shows: outside drift the state is WARMUP exactly if it counts for nothing, the score is its score
      if it counts, and what is known is what it brought. */
  lemma LatestShows(ws: seq<Slot>, p: Policy)
    requires ws != [] && forall i, j | 0 <= i < j < |ws| :: ws[i].start < ws[j].start
    ensures var d, c, w := After(FRESH, ws, p), ClassAt(ws, |ws| - 1, p), ws[|ws| - 1];
            && (d.state == Warmup <==> d.state != Drifting && c == None)
            && (c == None ==> d.scoreBp == None)
            && (c != None ==> w.input.Supplied? && d.scoreBp == Some(w.input.score))
            && d.data == KnownOf(ws, p) && d.lastWindowMs == Some(w.start)
  {
    hide ClassAt, ClassAfter, DataAfter, KnownOf, After;
    ClassOfLast(ws, p);
    AfterIsNext(ws, p);
    LastStart(ws, p);
    if ClassAt(ws, |ws| - 1, p).Some? { ScoredIsSupplied(ws, p); }
  }

  lemma ClassOfLast(ws: seq<Slot>, p: Policy)
    requires ws != [] && forall i, j | 0 <= i < j < |ws| :: ws[i].start < ws[j].start
    ensures var d := After(FRESH, ws[..|ws| - 1], p);
            && ClassAfter(d.lastWindowMs, ws[|ws| - 1], p) == ClassAt(ws, |ws| - 1, p)
            && DataAfter(d.lastWindowMs, ws[|ws| - 1], p) == KnownOf(ws, p) && !Replayed(d, ws[|ws| - 1].start)
  {
    hide Next;
    LastStart(ws[..|ws| - 1], p);
  }

  lemma ConsecutiveGrows(ws: seq<Slot>, since: nat, c: Class, p: Policy)
    requires ws != [] && since <= |ws| - 1
    ensures Consecutive(ws, since, c, p)
            == if ClassAt(ws, |ws| - 1, p) == Some(c) then Consecutive(ws[..|ws| - 1], since, c, p) + 1 else 0
  {
    hide ClassAt;
  }

  lemma FreshCount(ws: seq<Slot>, p: Policy)
    ensures HighNeeded(p) > 0 && LowNeeded(p) > 0
    ensures Consecutive(ws, |ws|, High, p) == 0 == Consecutive(ws, |ws|, Low, p)
  {}

  /** What one slot that is not a replay does to the state and the streaks, by its class alone. */
  lemma NextCounts(d: Drift, w: Slot, p: Policy, c: Option<Class>)
    requires !Replayed(d, w.start) && c == ClassAfter(d.lastWindowMs, w, p)
    requires d.state != Suspect && d.state != Drifting ==> d.highStreak == 0
    requires d.state == Suspect ==> 1 <= d.highStreak
    ensures var n := Next(d, w, p);
            && (d.state != Drifting && c == Some(High) ==>
                  n.state == (if d.highStreak + 1 >= HighNeeded(p) then Drifting else Suspect)
                  && (n.state == Suspect ==> n.highStreak == d.highStreak + 1)
                  && (n.state == Drifting ==> n.lowStreak == 0))
            && (d.state != Drifting && c != Some(High) ==> n.state in {Warmup, Stable} && n.highStreak == 0)
            && (d.state == Drifting && c == Some(Low) ==>
                  n.state == (if d.lowStreak + 1 >= LowNeeded(p) then Stable else Drifting)
                  && (n.state == Drifting ==> n.lowStreak == d.lowStreak + 1)
                  && (n.state == Stable ==> n.highStreak == 0))
            && (d.state == Drifting && c != Some(Low) ==> n.state == Drifting && n.lowStreak == 0)
  {
    hide ClassAfter, DataAfter;
  }

  lemma LeavingIsStable(d: Drift, w: Slot, p: Policy)
    ensures d.state == Drifting && Next(d, w, p).state != Drifting ==> Next(d, w, p).state == Stable
  {}

  /** DRIFT is entered only on the last of HighNeeded consecutive ungapped, sufficient, high windows, and left
      only on the last of LowNeeded consecutive low ones. */
  lemma {:induction false} SwitchesNeedRuns(ws: seq<Slot>, w: Slot, p: Policy)
    requires forall i, j | 0 <= i < j < |ws + [w]| :: (ws + [w])[i].start < (ws + [w])[j].start
    ensures var all, before, now := ws + [w], After(FRESH, ws, p).state, After(FRESH, ws + [w], p).state;
            && (before != Drifting && now == Drifting ==>
                  |all| >= HighNeeded(p) &&
                  forall i | |all| - HighNeeded(p) <= i < |all| :: ClassAt(all, i, p) == Some(High))
            && (before == Drifting && now != Drifting ==>
                  now == Stable && |all| >= LowNeeded(p) &&
                  forall i | |all| - LowNeeded(p) <= i < |all| :: ClassAt(all, i, p) == Some(Low))
  {
    hide ClassAt, Consecutive, Next;
    var all := ws + [w];
    LeavingIsStable(After(FRESH, ws, p), w, p);
    assert all[..|ws|] == ws;
    assert forall i, j | 0 <= i < j < |ws| :: all[i].start < all[j].start;
    ReducerMeetsReference(ws, p);
    ReducerMeetsReference(all, p);
    var v := Reference(ws, p);
    ConsecutiveIsLongest(all, v.since, High, p);
    ConsecutiveIsLongest(all, v.since, Low, p);
  }

  // ---- how often drift can be entered ----

  function Entries(ws: seq<Slot>, p: Policy): nat {
    if ws == [] then 0 else
      var pre := ws[..|ws| - 1];
      Entries(pre, p) +
      if After(FRESH, pre, p).state != Drifting && After(FRESH, ws, p).state == Drifting then 1 else 0
  }

  /** The windows that k full rounds of entering and leaving take. */
  function Rounds(k: int, p: Policy): int { k * (HighNeeded(p) + LowNeeded(p)) }

  lemma OneMoreRound(k: int, p: Policy)
    ensures Rounds(k + 1, p) == Rounds(k, p) + HighNeeded(p) + LowNeeded(p)
    ensures Rounds(0, p) == 0
  {}

  /** Every entry pays for its own run of high windows and for the run of low ones that ended the one before. */
  lemma {:induction false} EntryBudget(ws: seq<Slot>, p: Policy)
    ensures var k, d := Entries(ws, p), After(FRESH, ws, p);
            if d.state == Drifting
            then k >= 1 && Rounds(k - 1, p) + HighNeeded(p) + d.lowStreak <= |ws| && d.lowStreak < LowNeeded(p)
            else
              && Rounds(k, p) + d.highStreak <= |ws|
              && (if d.state == Suspect then 1 <= d.highStreak < HighNeeded(p) else d.highStreak == 0)
  {
    OneMoreRound(0, p);
    if ws != [] {
      hide HighNeeded, LowNeeded, After, Rounds, Next;
      var pre := ws[..|ws| - 1];
      EntryBudget(pre, p);
      OneMoreRound(Entries(pre, p) - 1, p);
      StepBudget(After(FRESH, pre, p), ws[|ws| - 1], p);
      AfterIsNext(ws, p);
    }
  }

  lemma AfterIsNext(ws: seq<Slot>, p: Policy)
    requires ws != []
    ensures After(FRESH, ws, p) == Next(After(FRESH, ws[..|ws| - 1], p), ws[|ws| - 1], p)
  {
    hide Next;
  }

  /** A slot moves the streaks by at most one, and a switch needs a full streak. */
  lemma StepBudget(d: Drift, w: Slot, p: Policy)
    requires if d.state == Drifting then d.lowStreak < LowNeeded(p)
             else if d.state == Suspect then 1 <= d.highStreak < HighNeeded(p) else d.highStreak == 0
    ensures var n := Next(d, w, p);
            && (d.state == Drifting && n.state == Drifting ==>
                  n.lowStreak <= d.lowStreak + 1 && n.lowStreak < LowNeeded(p))
            && (d.state == Drifting && n.state != Drifting ==>
                  d.lowStreak + 1 >= LowNeeded(p) && n.highStreak == 0 && n.state != Suspect)
            && (d.state != Drifting && n.state == Drifting ==> d.highStreak + 1 >= HighNeeded(p) && n.lowStreak == 0)
            && (d.state != Drifting && n.state != Drifting ==>
                  n.highStreak <= d.highStreak + 1
                  && if n.state == Suspect then 1 <= n.highStreak < HighNeeded(p) else n.highStreak == 0)
            && LowNeeded(p) > 0
  {}

  lemma EntriesAreRare(ws: seq<Slot>, p: Policy)
    requires Entries(ws, p) > 0
    ensures Entries(ws, p) * HighNeeded(p) + (Entries(ws, p) - 1) * LowNeeded(p) <= |ws|
  {
    hide After, Next;
    EntryBudget(ws, p);
    Distribute(Entries(ws, p), HighNeeded(p), LowNeeded(p));
  }

  lemma Distribute(k: int, h: nat, l: nat)
    ensures k * h + (k - 1) * l == (k - 1) * (h + l) + h
    ensures k * h + (k - 1) * l == k * (h + l) - l
  {}
}
