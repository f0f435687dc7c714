/** What the verifier's verdicts mean, and that it accepts exactly what the daemon exports. */
module Proofs {
  import opened Basics
  import opened Ids
  import opened Records
  import opened Store
  import opened Protocol
  import opened Safety
  import opened Invariants
  import opened Bundle

  // ---- what a clean verdict means ----

  predicate Clean(n: Note) { !n.bad && !n.missing }

  /** The pin may be used: the right key, live and not compromised, for this tag, this subject and this epoch. */
  predicate Allows(k: Pin, tag: Tag, subject: Id, keyId: Id, keyEpoch: nat) {
    && k.id == keyId && k.live && !k.compromised && tag in k.tags && subject in k.subjects
    && k.fromEpoch <= keyEpoch && (k.throughEpoch == None || keyEpoch <= k.throughEpoch.value)
  }

  /** It is the first pin that may be used. */
  predicate Decides<T>(t: Trust, tag: Tag, subject: Id, e: Envelope<T>, i: nat)
    requires e.Envelope? && i < |t.pins|
  {
    && Allows(t.pins[i], tag, subject, e.keyId, e.keyEpoch)
    && forall j | 0 <= j < i :: !Allows(t.pins[j], tag, subject, e.keyId, e.keyEpoch)
  }

  /** The envelope is signed by the key that decides, over the body it carries. */
  ghost predicate Trusted<T>(t: Trust, tag: Tag, subject: Id, e: Envelope<T>)
    requires e.Envelope?
  {
    exists i | 0 <= i < |t.pins| ::
      Decides(t, tag, subject, e, i) && e.signer == Some(t.pins[i].key) && e.digest == Of(e.body)
  }

  /** A key decides, and the signature or the digest is wrong under it. */
  ghost predicate Refuted<T>(t: Trust, tag: Tag, subject: Id, e: Envelope<T>)
    requires e.Envelope?
  {
    exists i | 0 <= i < |t.pins| ::
      Decides(t, tag, subject, e, i) && !(e.signer == Some(t.pins[i].key) && e.digest == Of(e.body))
  }

  lemma {:induction false} FirstPin(pins: seq<Pin>, tag: Tag, subject: Id, keyId: Id, keyEpoch: Counter)
    ensures var k := FindPin(pins, tag, subject, keyId, keyEpoch);
            if k.None? then forall i | 0 <= i < |pins| :: !Allows(pins[i], tag, subject, keyId, keyEpoch)
            else exists i | 0 <= i < |pins| ::
              pins[i] == k.value && Allows(pins[i], tag, subject, keyId, keyEpoch)
              && forall j | 0 <= j < i :: !Allows(pins[j], tag, subject, keyId, keyEpoch)
  {
    if pins != [] && !Covering(pins[0], tag, subject, keyId, keyEpoch) {
      FirstPin(pins[1..], tag, subject, keyId, keyEpoch);
      var k := FindPin(pins[1..], tag, subject, keyId, keyEpoch);
      assert forall i | 0 < i < |pins| :: pins[i] == pins[1..][i - 1];
      if k.Some? {
        var i :| 0 <= i < |pins[1..]| && pins[1..][i] == k.value
                 && Allows(pins[1..][i], tag, subject, keyId, keyEpoch)
                 && forall j | 0 <= j < i :: !Allows(pins[1..][j], tag, subject, keyId, keyEpoch);
        assert pins[i + 1] == k.value;
      }
    }
  }

  /** What the verifier notes of a signature. */
  lemma SignatureMeans<T>(t: Trust, tag: Tag, subject: Id, e: Envelope<T>)
    requires e.Envelope?
    ensures Clean(SignatureNote(t, tag, subject, e)) <==> Trusted(t, tag, subject, e)
    ensures SignatureNote(t, tag, subject, e).bad <==> Refuted(t, tag, subject, e)
  {
    hide Covering, Allows;
    FirstPin(t.pins, tag, subject, e.keyId, e.keyEpoch);
    var k := FindPin(t.pins, tag, subject, e.keyId, e.keyEpoch);
    if k.Some? {
      var i :| 0 <= i < |t.pins| && t.pins[i] == k.value && Allows(t.pins[i], tag, subject, e.keyId, e.keyEpoch)
               && forall j | 0 <= j < i :: !Allows(t.pins[j], tag, subject, e.keyId, e.keyEpoch);
      assert Decides(t, tag, subject, e, i);
      forall j | 0 <= j < |t.pins| && Decides(t, tag, subject, e, j) ensures j == i {}
    }
  }

  /** Event i is the i-th of an unbroken chain, is the one the manifest lists, and is signed by a trusted key. */
  ghost predicate SoundEvent(t: Trust, hashes: seq<Envelope<Body>>, events: seq<Envelope<Body>>, i: nat)
    requires i < |events|
  {
    && events[i].Envelope? && events[i].body.Parsed?
    && i < |hashes| && hashes[i] == events[i]
    && events[i].body.value.pos == i + 1
    && (if i == 0 then events[i].body.value.prev == Unknown(0)
        else events[i - 1].Envelope? && events[i].body.value.prev == events[i - 1].digest)
    && Trusted(t, ForAudit, events[i].body.value.tenant, events[i])
  }

  ghost predicate SoundChain(t: Trust, hashes: seq<Envelope<Body>>, events: seq<Envelope<Body>>) {
    forall i | 0 <= i < |events| :: SoundEvent(t, hashes, events, i)
  }

  lemma SoundPrefix(t: Trust, hashes: seq<Envelope<Body>>, events: seq<Envelope<Body>>, n: nat)
    requires |events| == n + 1
    ensures SoundChain(t, hashes, events) <==> SoundChain(t, hashes, events[..n]) && SoundEvent(t, hashes, events, n)
  {
    hide Trusted;
    forall i | 0 <= i < n ensures SoundEvent(t, hashes, events, i) == SoundEvent(t, hashes, events[..n], i) {}
    if SoundChain(t, hashes, events) {
      forall i | 0 <= i < n ensures SoundEvent(t, hashes, events[..n], i) { assert SoundEvent(t, hashes, events, i); }
    }
    if SoundChain(t, hashes, events[..n]) && SoundEvent(t, hashes, events, n) {
      forall i | 0 <= i <= n ensures SoundEvent(t, hashes, events, i) {
        if i < n { assert SoundEvent(t, hashes, events[..n], i); }
      }
    }
  }

  lemma {:induction false} WalkMeans(t: Trust, hashes: seq<Envelope<Body>>, events: seq<Envelope<Body>>)
    ensures Clean(Walked(t, hashes, events).note) <==> SoundChain(t, hashes, events)
    ensures var w := Walked(t, hashes, events);
            SoundChain(t, hashes, events) ==>
              w == Walk(w.note, if events == [] then Unknown(0) else LastDigest(events), |events| + 1,
                        if events == [] then START else (|events|, LastDigest(events)), false)
  {
    hide SoundChain;
    if events == [] {
      NothingIsSound(t, hashes);
    } else {
      var n := |events| - 1;
      WalkMeans(t, hashes, events[..n]);
      SoundPrefix(t, hashes, events, n);
      if n > 0 { assert events[..n][n - 1] == events[n - 1]; }
      StepMeans(t, hashes, Walked(t, hashes, events[..n]), events[n], n);
      if SoundChain(t, hashes, events[..n]) && n > 0 { LastIsEnvelope(t, hashes, events[..n]); }
    }
  }

  lemma NothingIsSound(t: Trust, hashes: seq<Envelope<Body>>)
    ensures SoundChain(t, hashes, [])
  {}

  lemma LastIsEnvelope(t: Trust, hashes: seq<Envelope<Body>>, events: seq<Envelope<Body>>)
    requires SoundChain(t, hashes, events) && events != []
    ensures events[|events| - 1].Envelope?
  {
    assert SoundEvent(t, hashes, events, |events| - 1);
  }

  /** One step stays clean exactly if the event is sound where it stands. */
  lemma StepMeans(t: Trust, hashes: seq<Envelope<Body>>, w: Walk, e: Envelope<Body>, i: nat)
    ensures var n := WalkStep(t, hashes, w, e, i);
            && (Clean(n.note) ==> Clean(w.note))
            && (Clean(w.note) && !w.stopped ==>
                  (Clean(n.note) <==>
                     && e.Envelope? && e.body.Parsed? && i < |hashes| && hashes[i] == e
                     && e.body.value.pos == w.expected && e.body.value.prev == w.prev
                     && Trusted(t, ForAudit, e.body.value.tenant, e))
                  && (Clean(n.note) ==> n == Walk(n.note, e.digest, w.expected + 1, (w.expected, e.digest), false)))
  {
    hide SignatureNote, Trusted, Refuted;
    if e.Envelope? && e.body.Parsed? { SignatureMeans(t, ForAudit, e.body.value.tenant, e); }
  }

  ghost predicate Distinct(items: seq<Item>) { forall i, j | 0 <= i < j < |items| :: items[i].of != items[j].of }

  lemma {:induction false} InventoryMeans(items: seq<Item>)
    ensures Clean(InventoryNote(items)) <==> Distinct(items)
  {
    if items != [] {
      var n := |items| - 1;
      InventoryMeans(items[..n]);
      assert Distinct(items) ==> Distinct(items[..n]);
    }
  }

  ghost predicate SoundPolicy(t: Trust, e: Envelope<Policy>) {
    e.Envelope? && e.body.Parsed? && e.digest == Of(e.body) && Trusted(t, ForPolicy, e.body.value.tenant, e)
  }

  lemma {:induction false} PoliciesMean(t: Trust, es: seq<Envelope<Policy>>)
    ensures Clean(PoliciesNote(t, es)) <==> forall i | 0 <= i < |es| :: SoundPolicy(t, es[i])
  {
    if es != [] {
      var n := |es| - 1;
      PoliciesMean(t, es[..n]);
      assert Clean(PolicyNote(t, es[n])) <==> SoundPolicy(t, es[n]) by {
        hide SignatureNote, Trusted, Refuted;
        if es[n].Envelope? && es[n].body.Parsed? { SignatureMeans(t, ForPolicy, es[n].body.value.tenant, es[n]); }
      }
      hide PolicyNote, SoundPolicy;
      assert forall i | 0 <= i < n :: es[..n][i] == es[i];
    }
  }

  ghost predicate SoundItem<T>(t: Trust, tag: Tag, subject: T -> Id, e: Envelope<T>) {
    e.Envelope? && Trusted(t, tag, if e.body.Parsed? then subject(e.body.value) else "", e)
  }

  ghost predicate SoundList<T>(t: Trust, tag: Tag, subject: T -> Id, es: seq<Envelope<T>>) {
    forall i | 0 <= i < |es| :: SoundItem(t, tag, subject, es[i])
  }

  lemma SignedMeans<T>(t: Trust, tag: Tag, subject: T -> Id, e: Envelope<T>)
    ensures Clean(SignedNote(t, tag, subject, e)) <==> SoundItem(t, tag, subject, e)
  {
    hide SignatureNote, Trusted, Refuted;
    if e.Envelope? { SignatureMeans(t, tag, if e.body.Parsed? then subject(e.body.value) else "", e); }
  }

  lemma {:induction false} ListMeans<T>(t: Trust, tag: Tag, subject: T -> Id, es: seq<Envelope<T>>)
    ensures Clean(ListNote(t, tag, subject, es)) <==> SoundList(t, tag, subject, es)
  {
    hide SignedNote, SoundItem;
    if es != [] {
      var n := |es| - 1;
      ListMeans(t, tag, subject, es[..n]);
      SignedMeans(t, tag, subject, es[n]);
      assert forall i | 0 <= i < n :: es[..n][i] == es[i];
    }
  }

  /** Every observation and effect inventoried is in the bundle, and it has as many of them. */
  ghost predicate Disclosed(items: seq<Item>, observations: nat, effects: nat) {
    && (forall i | 0 <= i < |items| && (items[i].of.ToObservation? || items[i].of.ToEffect?) :: items[i].present)
    && |set i | 0 <= i < |items| && items[i].of.ToObservation?| == observations
    && |set i | 0 <= i < |items| && items[i].of.ToEffect?| == effects
  }

  function Marked(items: seq<Item>, tag: Tag): set<int> { set i | 0 <= i < |items| && IsFor(items[i].of, tag) }

  lemma MarkedGrows(items: seq<Item>, tag: Tag)
    requires items != []
    ensures var n := |items| - 1;
            Marked(items, tag) == Marked(items[..n], tag) + (if IsFor(items[n].of, tag) then {n} else {})
    ensures |items| - 1 !in Marked(items[..|items| - 1], tag)
  {
    hide IsFor;
  }

  lemma {:induction false} InventoriedAre(items: seq<Item>, tag: Tag)
    ensures |Inventoried(items, tag)| == |Marked(items, tag)|
    ensures Present(Inventoried(items, tag))
            <==> forall i | 0 <= i < |items| && IsFor(items[i].of, tag) :: items[i].present
  {
    hide IsFor, Present, Marked;
    if items == [] {
      NoneMarked(tag);
    } else {
      var n := |items| - 1;
      InventoriedAre(items[..n], tag);
      MarkedGrows(items, tag);
      PresentSnoc(Inventoried(items[..n], tag), items[n]);
      assert Inventoried(items[..n], tag) + [] == Inventoried(items[..n], tag);
    }
  }

  lemma NoneMarked(tag: Tag)
    ensures Marked([], tag) == {} && Present([])
  {}

  lemma PresentSnoc(items: seq<Item>, x: Item)
    ensures Present(items + [x]) <==> Present(items) && x.present
  {
    if Present(items + [x]) {
      assert x in items + [x];
      forall y | y in items ensures y.present { assert y in items + [x]; }
    }
  }

  lemma PresenceMeans(m: Manifest, observations: nat, effects: nat)
    ensures !PresenceNote(m, observations, effects).missing
    ensures PresenceNote(m, observations, effects).bad <==> !(m.full ==> Disclosed(m.inventory, observations, effects))
  {
    hide Inventoried, Present;
    InventoriedAre(m.inventory, ForObservation);
    InventoriedAre(m.inventory, ForEffect);
    var items := m.inventory;
    assert Marked(items, ForObservation) == set i | 0 <= i < |items| && items[i].of.ToObservation?;
    assert Marked(items, ForEffect) == set i | 0 <= i < |items| && items[i].of.ToEffect?;
  }

  /** Everything a bundle must be for the verifier to find no fault in it. */
  ghost predicate Faultless(t: Trust, b: Bundle) {
    && ManifestParses(b.manifest)
    && var m := b.manifest.body.value;
       && m.tenant == t.tenant && b.events != []
       && Trusted(t, ForBundle, m.tenant, b.manifest)
       && SoundChain(t, m.hashes, b.events)
       && m.through == (|b.events|, LastDigest(b.events))
       && Distinct(m.inventory)
       && (forall i | 0 <= i < |b.policies| :: SoundPolicy(t, b.policies[i]))
       && (m.full ==> Disclosed(m.inventory, |b.observations|, |b.effects|))
       && SoundList(t, ForObservation, SourceOf, b.observations) && SoundList(t, ForEffect, RuntimeOf, b.effects)
       && |b.events| >= t.minimumPos
  }

  function LastDigest(events: seq<Envelope<Body>>): Mark<Body>
    requires events != []
  {
    if events[|events| - 1].Envelope? then events[|events| - 1].digest else Unknown(0)
  }

  /** FULL_REPLAY and INTEGRITY_ONLY are given to exactly the faultless bundles, the former to the full ones. */
  lemma VerdictMeans(t: Trust, b: Bundle)
    ensures Verified(t, b).status in {FullReplay, IntegrityOnly} <==> Faultless(t, b)
    ensures Verified(t, b).status == FullReplay <==> Faultless(t, b) && b.manifest.body.value.full
  {
    hide Walked, InventoryNote, PoliciesNote, PresenceNote, ListNote, SoundChain, Distinct, SoundPolicy, SoundList,
         Disclosed, Trusted;
    if ManifestParses(b.manifest) && b.events != [] {
      var m := b.manifest.body.value;
      var w := Walked(t, m.hashes, b.events);
      WalkMeans(t, m.hashes, b.events);
      InventoryMeans(m.inventory);
      PoliciesMean(t, b.policies);
      ListMeans(t, ForObservation, SourceOf, b.observations);
      ListMeans(t, ForEffect, RuntimeOf, b.effects);
      if SoundChain(t, m.hashes, b.events) { LastIsEnvelope(t, m.hashes, b.events); }
      PresenceMeans(m, |b.observations|, |b.effects|);
      WholeMeans(t, b, m, w);
    }
  }

  lemma WholeMeans(t: Trust, b: Bundle, m: Manifest, w: Walk)
    requires b.manifest.Envelope? && b.manifest.body.Parsed?
    ensures Clean(WholeNote(t, b, m, w)) <==>
              && Trusted(t, ForBundle, b.manifest.body.value.tenant, b.manifest)
              && Clean(w.note) && m.through == w.last && Clean(InventoryNote(m.inventory))
              && Clean(PoliciesNote(t, b.policies)) && Clean(PresenceNote(m, |b.observations|, |b.effects|))
              && Clean(ListNote(t, ForObservation, SourceOf, b.observations))
              && Clean(ListNote(t, ForEffect, RuntimeOf, b.effects)) && w.last.0 >= t.minimumPos
  {
    hide InventoryNote, PoliciesNote, PresenceNote, ListNote, SignatureNote, Trusted, Refuted;
    SignatureMeans(t, ForBundle, b.manifest.body.value.tenant, b.manifest);
  }

  // ---- what INVALID means ----

  /** Event i contradicts nothing: it parses, is the one the manifest lists, links to the one before, and its signature
      is not refuted. A gap in the positions or an unknown key leave the history incomplete, no more. */
  ghost predicate UnbrokenEvent(t: Trust, hashes: seq<Envelope<Body>>, events: seq<Envelope<Body>>, i: nat)
    requires i < |events|
  {
    && events[i].Envelope? && events[i].body.Parsed?
    && i < |hashes| && hashes[i] == events[i]
    && (if i == 0 then events[i].body.value.prev == Unknown(0)
        else events[i - 1].Envelope? && events[i].body.value.prev == events[i - 1].digest)
    && !Refuted(t, ForAudit, events[i].body.value.tenant, events[i])
  }

  ghost predicate UnbrokenChain(t: Trust, hashes: seq<Envelope<Body>>, events: seq<Envelope<Body>>) {
    forall i | 0 <= i < |events| :: UnbrokenEvent(t, hashes, events, i)
  }

  lemma UnbrokenPrefix(t: Trust, hashes: seq<Envelope<Body>>, events: seq<Envelope<Body>>, n: nat)
    requires |events| == n + 1
    ensures UnbrokenChain(t, hashes, events)
            <==> UnbrokenChain(t, hashes, events[..n]) && UnbrokenEvent(t, hashes, events, n)
  {
    hide Refuted;
    forall i | 0 <= i < n ensures UnbrokenEvent(t, hashes, events, i) == UnbrokenEvent(t, hashes, events[..n], i) {}
    if UnbrokenChain(t, hashes, events) {
      forall i | 0 <= i < n ensures UnbrokenEvent(t, hashes, events[..n], i) {
        assert UnbrokenEvent(t, hashes, events, i);
      }
    }
    if UnbrokenChain(t, hashes, events[..n]) && UnbrokenEvent(t, hashes, events, n) {
      forall i | 0 <= i <= n ensures UnbrokenEvent(t, hashes, events, i) {
        if i < n { assert UnbrokenEvent(t, hashes, events[..n], i); }
      }
    }
  }

  lemma StepBreaks(t: Trust, hashes: seq<Envelope<Body>>, w: Walk, e: Envelope<Body>, i: nat)
    ensures var n := WalkStep(t, hashes, w, e, i);
            && (w.note.bad ==> n.note.bad)
            && (!w.note.bad && !w.stopped ==>
                  (!n.note.bad <==>
                     && e.Envelope? && e.body.Parsed? && i < |hashes| && hashes[i] == e && e.body.value.prev == w.prev
                     && !Refuted(t, ForAudit, e.body.value.tenant, e))
                  && (!n.note.bad ==>
                        n == Walk(n.note, e.digest, w.expected + 1, (e.body.value.pos, e.digest), false)))
  {
    hide SignatureNote, Trusted, Refuted;
    if e.Envelope? && e.body.Parsed? { SignatureMeans(t, ForAudit, e.body.value.tenant, e); }
  }

  /** The position and digest the last event claims. */
  function Claimed(events: seq<Envelope<Body>>): Position
    requires events != []
  {
    var e := events[|events| - 1];
    if e.Envelope? && e.body.Parsed? then (e.body.value.pos, e.digest) else START
  }

  lemma {:induction false} WalkBreaks(t: Trust, hashes: seq<Envelope<Body>>, events: seq<Envelope<Body>>)
    ensures !Walked(t, hashes, events).note.bad <==> UnbrokenChain(t, hashes, events)
    ensures var w := Walked(t, hashes, events);
            UnbrokenChain(t, hashes, events) ==>
              w == Walk(w.note, if events == [] then Unknown(0) else LastDigest(events), |events| + 1,
                        if events == [] then START else Claimed(events), false)
  {
    hide UnbrokenChain, Refuted;
    if events == [] {
      NothingIsBroken(t, hashes);
    } else {
      var n := |events| - 1;
      WalkBreaks(t, hashes, events[..n]);
      UnbrokenPrefix(t, hashes, events, n);
      if n > 0 { assert events[..n][n - 1] == events[n - 1]; }
      StepBreaks(t, hashes, Walked(t, hashes, events[..n]), events[n], n);
      if UnbrokenChain(t, hashes, events[..n]) && n > 0 { UnbrokenIsEnvelope(t, hashes, events[..n]); }
    }
  }

  lemma NothingIsBroken(t: Trust, hashes: seq<Envelope<Body>>)
    ensures UnbrokenChain(t, hashes, [])
  {}

  lemma UnbrokenIsEnvelope(t: Trust, hashes: seq<Envelope<Body>>, events: seq<Envelope<Body>>)
    requires UnbrokenChain(t, hashes, events) && events != []
    ensures events[|events| - 1].Envelope?
  {
    assert UnbrokenEvent(t, hashes, events, |events| - 1);
  }

  ghost predicate UnbrokenPolicy(t: Trust, e: Envelope<Policy>) {
    e.Envelope? && e.body.Parsed? && e.digest == Of(e.body) && !Refuted(t, ForPolicy, e.body.value.tenant, e)
  }

  lemma {:induction false} PoliciesBreak(t: Trust, es: seq<Envelope<Policy>>)
    ensures !PoliciesNote(t, es).bad <==> forall i | 0 <= i < |es| :: UnbrokenPolicy(t, es[i])
  {
    if es != [] {
      var n := |es| - 1;
      PoliciesBreak(t, es[..n]);
      assert !PolicyNote(t, es[n]).bad <==> UnbrokenPolicy(t, es[n]) by {
        hide SignatureNote, Trusted, Refuted;
        if es[n].Envelope? && es[n].body.Parsed? { SignatureMeans(t, ForPolicy, es[n].body.value.tenant, es[n]); }
      }
      hide PolicyNote, UnbrokenPolicy;
      assert forall i | 0 <= i < n :: es[..n][i] == es[i];
    }
  }

  ghost predicate UnbrokenItem<T>(t: Trust, tag: Tag, subject: T -> Id, e: Envelope<T>) {
    e.Envelope? && !Refuted(t, tag, if e.body.Parsed? then subject(e.body.value) else "", e)
  }

  ghost predicate UnbrokenList<T>(t: Trust, tag: Tag, subject: T -> Id, es: seq<Envelope<T>>) {
    forall i | 0 <= i < |es| :: UnbrokenItem(t, tag, subject, es[i])
  }

  lemma SignedBreaks<T>(t: Trust, tag: Tag, subject: T -> Id, e: Envelope<T>)
    ensures !SignedNote(t, tag, subject, e).bad <==> UnbrokenItem(t, tag, subject, e)
  {
    hide SignatureNote, Trusted, Refuted;
    if e.Envelope? { SignatureMeans(t, tag, if e.body.Parsed? then subject(e.body.value) else "", e); }
  }

  lemma {:induction false} ListBreaks<T>(t: Trust, tag: Tag, subject: T -> Id, es: seq<Envelope<T>>)
    ensures !ListNote(t, tag, subject, es).bad <==> UnbrokenList(t, tag, subject, es)
  {
    hide SignedNote, UnbrokenItem;
    if es != [] {
      var n := |es| - 1;
      ListBreaks(t, tag, subject, es[..n]);
      SignedBreaks(t, tag, subject, es[n]);
      assert forall i | 0 <= i < n :: es[..n][i] == es[i];
    }
  }

  lemma {:induction false} InventoryBreaks(items: seq<Item>)
    ensures !InventoryNote(items).missing && (!InventoryNote(items).bad <==> Distinct(items))
  {
    InventoryMeans(items);
    if items != [] { InventoryBreaks(items[..|items| - 1]); }
  }

  /** Nothing in the bundle contradicts anything else in it, or a pinned key. */
  ghost predicate Consistent(t: Trust, b: Bundle) {
    && ManifestParses(b.manifest)
    && var m := b.manifest.body.value;
       && m.tenant == t.tenant
       && (b.events != [] ==>
             && !Refuted(t, ForBundle, m.tenant, b.manifest)
             && UnbrokenChain(t, m.hashes, b.events) && m.through == Claimed(b.events)
             && Distinct(m.inventory)
             && (forall i | 0 <= i < |b.policies| :: UnbrokenPolicy(t, b.policies[i]))
             && (m.full ==> Disclosed(m.inventory, |b.observations|, |b.effects|))
             && UnbrokenList(t, ForObservation, SourceOf, b.observations)
             && UnbrokenList(t, ForEffect, RuntimeOf, b.effects))
  }

  /** INVALID is given to exactly the bundles that contradict themselves or a pinned key, INCOMPLETE to exactly those
      that do not, but are not faultless either: a key is unknown, a position is missing, or the history is empty or
      too short. */
  lemma InvalidMeans(t: Trust, b: Bundle)
    ensures Verified(t, b).status == Invalid <==> !Consistent(t, b)
    ensures Verified(t, b).status == Incomplete <==> Consistent(t, b) && !Faultless(t, b)
  {
    hide Walked, InventoryNote, PoliciesNote, PresenceNote, ListNote, UnbrokenChain, Distinct, UnbrokenPolicy,
         UnbrokenList, Disclosed, Refuted, Faultless;
    VerdictMeans(t, b);
    if ManifestParses(b.manifest) && b.events != [] {
      var m := b.manifest.body.value;
      WalkBreaks(t, m.hashes, b.events);
      InventoryBreaks(m.inventory);
      PoliciesBreak(t, b.policies);
      PresenceMeans(m, |b.observations|, |b.effects|);
      ListBreaks(t, ForObservation, SourceOf, b.observations);
      ListBreaks(t, ForEffect, RuntimeOf, b.effects);
      WholeBreaks(t, b, m, Walked(t, m.hashes, b.events));
    }
  }

  // ---- the reasons ----

  /** A note gives a reason exactly if something is wrong or missing, and none of them is that bytes were withheld. */
  predicate Told(n: Note) { (n.bad || n.missing <==> n.reasons != {}) && OmittedBytes !in n.reasons }

  lemma JoinIsTold(a: Note, b: Note)
    requires Told(a) && Told(b)
    ensures Told(Join(a, b))
  {
    assert a.reasons != {} ==> exists r :: r in a.reasons && r in a.reasons + b.reasons;
    assert b.reasons != {} ==> exists r :: r in b.reasons && r in a.reasons + b.reasons;
  }

  lemma StepIsTold(t: Trust, hashes: seq<Envelope<Body>>, w: Walk, e: Envelope<Body>, i: nat)
    requires Told(w.note)
    ensures Told(WalkStep(t, hashes, w, e, i).note)
  {
    hide Told, Join;
    EachIsTold();
    forall a, b | Told(a) && Told(b) ensures Told(Join(a, b)) { JoinIsTold(a, b); }
    if e.Envelope? && e.body.Parsed? { SignatureIsTold(t, ForAudit, e.body.value.tenant, e); }
  }

  lemma EachIsTold()
    ensures Told(CLEAN)
    ensures forall r | r != OmittedBytes :: Told(Bad(r)) && Told(Missing(r))
  {}

  lemma SignatureIsTold<T>(t: Trust, tag: Tag, subject: Id, e: Envelope<T>)
    requires e.Envelope?
    ensures Told(SignatureNote(t, tag, subject, e))
  {
    hide FindPin, SignatureHolds;
  }

  lemma {:induction false} WalkIsTold(t: Trust, hashes: seq<Envelope<Body>>, events: seq<Envelope<Body>>)
    ensures Told(Walked(t, hashes, events).note)
    decreases |events|
  {
    hide WalkStep;
    if events != [] {
      var n := |events| - 1;
      WalkIsTold(t, hashes, events[..n]);
      StepIsTold(t, hashes, Walked(t, hashes, events[..n]), events[n], n);
    }
  }

  lemma {:induction false} InventoryIsTold(items: seq<Item>)
    ensures Told(InventoryNote(items))
    decreases |items|
  {
    if items != [] { InventoryIsTold(items[..|items| - 1]); }
  }

  lemma {:induction false} PoliciesAreTold(t: Trust, es: seq<Envelope<Policy>>)
    ensures Told(PoliciesNote(t, es))
    decreases |es|
  {
    hide Told, SignatureNote, Join;
    EachIsTold();
    if es != [] {
      var e := es[|es| - 1];
      forall a, b | Told(a) && Told(b) ensures Told(Join(a, b)) { JoinIsTold(a, b); }
      PoliciesAreTold(t, es[..|es| - 1]);
      if e.Envelope? && e.body.Parsed? { SignatureIsTold(t, ForPolicy, e.body.value.tenant, e); }
    }
  }

  lemma {:induction false} ListIsTold<T>(t: Trust, tag: Tag, subject: T -> Id, es: seq<Envelope<T>>)
    ensures Told(ListNote(t, tag, subject, es))
    decreases |es|
  {
    hide Told, SignatureNote, Join;
    EachIsTold();
    if es != [] {
      var e := es[|es| - 1];
      ListIsTold(t, tag, subject, es[..|es| - 1]);
      if e.Envelope? { SignatureIsTold(t, tag, if e.body.Parsed? then subject(e.body.value) else "", e); }
      JoinIsTold(ListNote(t, tag, subject, es[..|es| - 1]), SignedNote(t, tag, subject, e));
    }
  }

  /** ... or the only other one is that bytes were withheld. */
  predicate Withheld(n: Note) {
    (n.bad || n.missing <==> exists r :: r in n.reasons && r != OmittedBytes) && OmittedBytes in n.reasons
  }

  predicate Fits(n: Note, full: bool) { if full then Told(n) else Withheld(n) }

  lemma JoinFits(a: Note, b: Note, full: bool)
    ensures Told(a) && Fits(b, full) ==> Fits(Join(a, b), full)
    ensures Fits(a, full) && Told(b) ==> Fits(Join(a, b), full)
  {
    if Told(a) && Told(b) { JoinIsTold(a, b); }
  }

  lemma WholeFits(t: Trust, b: Bundle, m: Manifest, w: Walk)
    requires b.manifest.Envelope? && b.manifest.body.Parsed? && Told(w.note)
    ensures Fits(WholeNote(t, b, m, w), m.full)
  {
    hide Told, Fits, Withheld, Join, InventoryNote, PoliciesNote, ListNote, SignatureNote, PresenceNote;
    EachIsTold();
    InventoryIsTold(m.inventory);
    PoliciesAreTold(t, b.policies);
    ListIsTold(t, ForObservation, SourceOf, b.observations);
    ListIsTold(t, ForEffect, RuntimeOf, b.effects);
    SignatureIsTold(t, ForBundle, b.manifest.body.value.tenant, b.manifest);
    PresenceFits(m, |b.observations|, |b.effects|);
    forall x, y | Told(x) && Told(y) ensures Told(Join(x, y)) { JoinIsTold(x, y); }
    forall x, y
      ensures Told(x) && Fits(y, m.full) ==> Fits(Join(x, y), m.full)
      ensures Fits(x, m.full) && Told(y) ==> Fits(Join(x, y), m.full)
    {
      JoinFits(x, y, m.full);
    }
  }

  lemma PresenceFits(m: Manifest, observations: nat, effects: nat)
    ensures Fits(PresenceNote(m, observations, effects), m.full)
  {
    hide Inventoried, Present;
  }

  /** The verdict and its reasons agree: a full replay gives none, an integrity verdict only that bytes were withheld,
      and any other verdict some other reason. */
  lemma ReasonsMean(t: Trust, b: Bundle)
    ensures var v := Verified(t, b);
            && (v.status == FullReplay ==> v.reasons == {})
            && (v.status == IntegrityOnly ==> v.reasons == {OmittedBytes})
            && (v.status in {Invalid, Incomplete} ==> exists r :: r in v.reasons && r != OmittedBytes)
            && (OmittedBytes in v.reasons ==> !b.manifest.body.value.full)
  {
    hide Walked, WholeNote;
    if ManifestParses(b.manifest) && b.manifest.body.value.tenant == t.tenant && b.events != [] {
      var m := b.manifest.body.value;
      WalkIsTold(t, m.hashes, b.events);
      WholeFits(t, b, m, Walked(t, m.hashes, b.events));
    }
  }

  lemma WholeBreaks(t: Trust, b: Bundle, m: Manifest, w: Walk)
    requires b.manifest.Envelope? && b.manifest.body.Parsed?
    ensures !WholeNote(t, b, m, w).bad <==>
              && !Refuted(t, ForBundle, b.manifest.body.value.tenant, b.manifest)
              && !w.note.bad && m.through == w.last && !InventoryNote(m.inventory).bad
              && !PoliciesNote(t, b.policies).bad && !PresenceNote(m, |b.observations|, |b.effects|).bad
              && !ListNote(t, ForObservation, SourceOf, b.observations).bad
              && !ListNote(t, ForEffect, RuntimeOf, b.effects).bad
  {
    hide InventoryNote, PoliciesNote, PresenceNote, ListNote, SignatureNote, Trusted, Refuted;
    SignatureMeans(t, ForBundle, b.manifest.body.value.tenant, b.manifest);
  }

  // ---- what FULL_REPLAY promises ----

  /** FULL_REPLAY implies a contiguous linked chain from position 1 that ends at the stated head. */
  lemma FullReplayIsChain(t: Trust, b: Bundle)
    requires Verified(t, b).status == FullReplay
    ensures b.manifest.Envelope? && b.manifest.body.Parsed? && |b.events| > 0
    ensures forall i | 0 <= i < |b.events| ::
              && b.events[i].Envelope? && b.events[i].body.Parsed?
              && b.events[i].body.value.pos == i + 1
              && (if i == 0 then b.events[i].body.value.prev == Unknown(0)
                  else b.events[i - 1].Envelope? && b.events[i - 1].body.Parsed?
                       && b.events[i].body.value.prev == Of(b.events[i - 1].body))
    ensures b.manifest.body.value.through == (|b.events|, Of(b.events[|b.events| - 1].body))
    ensures Verified(t, b).through == b.manifest.body.value.through
  {
    hide Walked, WholeNote, SoundPolicy, SoundList, Disclosed, Distinct;
    VerdictMeans(t, b);
    var m := b.manifest.body.value;
    forall i | 0 <= i < |b.events|
      ensures b.events[i].Envelope? && b.events[i].body.Parsed? && b.events[i].digest == Of(b.events[i].body)
    {
      assert SoundEvent(t, m.hashes, b.events, i);
    }
    forall i | 0 <= i < |b.events|
      ensures && b.events[i].body.value.pos == i + 1
              && (if i == 0 then b.events[i].body.value.prev == Unknown(0)
                  else b.events[i - 1].Envelope? && b.events[i - 1].body.Parsed?
                       && b.events[i].body.value.prev == Of(b.events[i - 1].body))
    {
      assert SoundEvent(t, m.hashes, b.events, i);
      if i > 0 { assert b.events[i - 1].digest == Of(b.events[i - 1].body); }
    }
    WalkMeans(t, m.hashes, b.events);
  }

  /** Two bundles that verify in full with the same head tell the same history, whoever verified them. */
  lemma SameHeadSameHistory(t: Trust, b: Bundle, u: Trust, c: Bundle)
    requires Verified(t, b).status == FullReplay && Verified(u, c).status == FullReplay
    requires Verified(t, b).through == Verified(u, c).through
    ensures |b.events| == |c.events|
    ensures forall i | 0 <= i < |b.events| ::
              b.events[i].Envelope? && c.events[i].Envelope? && b.events[i].body == c.events[i].body
  {
    hide Verified;
    FullReplayIsChain(t, b);
    FullReplayIsChain(u, c);
    var i := |b.events| - 1;
    while i > 0
      invariant 0 <= i < |b.events|
      invariant forall k | i <= k < |b.events| :: b.events[k].body == c.events[k].body
    {
      assert b.events[i].body.value.prev == c.events[i].body.value.prev;
      i := i - 1;
    }
  }

  // ---- the verifier accepts what the daemon exports ----

  ghost predicate Pinned(t: Trust, tag: Tag, subject: Id, s: Signer) {
    var k := FindPin(t.pins, tag, subject, s.keyId, s.keyEpoch);
    k.Some? && k.value.key == s.key
  }

  /** Every signature in the bundle is under a key that the verifier pins live for its use. */
  ghost predicate PinsCover(t: Trust, db: Db, a: Annex, keys: Signers, cut: nat)
    requires Complete(db, a, keys) && cut <= |db.audit|
  {
    && Pinned(t, ForBundle, keys.tenant, keys.manifest)
    && (forall i | 0 <= i < cut :: Pinned(t, ForAudit, keys.tenant, keys.events[i]))
    && (forall i | 0 <= i < |db.policies| :: Pinned(t, ForPolicy, db.policies[i].tenant, keys.policies[i]))
    && (forall i | 0 <= i < |a.effects| :: Pinned(t, ForEffect, a.effects[i].runtime, keys.effects[i]))
    && (forall run | run in db.observations :: RunPinned(t, db.observations[run], keys.sources[run]))
  }

  ghost predicate RunPinned(t: Trust, os: seq<Observation>, signers: seq<Signer>)
    requires |os| <= |signers|
  {
    forall i | 0 <= i < |os| :: Pinned(t, ForObservation, os[i].source, signers[i])
  }

  lemma SignedIsTrusted<T>(t: Trust, tag: Tag, subject: Id, body: T, s: Signer)
    requires Pinned(t, tag, subject, s)
    ensures Trusted(t, tag, subject, Sign(body, s))
  {
    hide Trusted, Refuted;
    SignatureMeans(t, tag, subject, Sign(body, s));
  }

  lemma ExportedEvents(t: Trust, db: Db, a: Annex, keys: Signers, cut: nat)
    requires Complete(db, a, keys) && cut <= |db.audit| && Store.Chained(db.audit)
    requires forall i | 0 <= i < cut :: Pinned(t, ForAudit, keys.tenant, keys.events[i])
    ensures var events := SealedEvents(keys.tenant, db.audit[..cut], keys.events); SoundChain(t, events, events)
  {
    hide Trusted, Pinned;
    var events := SealedEvents(keys.tenant, db.audit[..cut], keys.events);
    forall i | 0 <= i < cut ensures SoundEvent(t, events, events, i) {
      SignedIsTrusted(t, ForAudit, keys.tenant, SealedBody(keys.tenant, db.audit[i]), keys.events[i]);
      assert LinkedAt(db.audit, i);
      assert events[i] == Sign(SealedBody(keys.tenant, db.audit[i]), keys.events[i]);
      assert events[i].body.value.prev == MarkOf(keys.tenant, HeadLink(db.audit[..i]));
      if i > 0 { assert events[i - 1] == Sign(SealedBody(keys.tenant, db.audit[i - 1]), keys.events[i - 1]); }
    }
  }

  /** What is known of one exported observation. */
  ghost predicate FromStream(t: Trust, streams: Streams, run: Id, e: Envelope<Observation>) {
    && e.Envelope? && e.body.Parsed? && e.digest == Of(e.body) && e.body.value.run == run
    && run in streams && 1 <= e.body.value.pos <= |streams[run]| && streams[run][e.body.value.pos - 1] == e.body.value
    && Trusted(t, ForObservation, e.body.value.source, e)
  }

  lemma StreamsAreOwn(runs: map<Id, Run>, streams: Streams, run: Id, i: nat)
    requires StreamsOk(runs, streams) && run in streams && i < |streams[run]|
    requires forall id | id in runs :: runs[id].id == id
    ensures streams[run][i].run == run && streams[run][i].pos == i + 1
  {
    assert StreamOk(runs[run], StreamIn(streams, run));
    assert LinkOk(runs[run], streams[run], i);
  }

  ghost predicate OwnStreams(streams: Streams) {
    forall run, i | run in streams && 0 <= i < |streams[run]| ::
      streams[run][i].run == run && streams[run][i].pos == i + 1
  }

  ghost predicate FromRuns(t: Trust, streams: Streams, runs: seq<Id>, es: seq<Envelope<Observation>>) {
    forall i | 0 <= i < |es| ::
      es[i].Envelope? && es[i].body.Parsed? && es[i].body.value.run in runs
          && FromStream(t, streams, es[i].body.value.run, es[i])
  }

  ghost predicate DistinctDigests<T>(es: seq<Envelope<T>>) {
    && (forall i | 0 <= i < |es| :: es[i].Envelope?)
    && forall i, j | 0 <= i < j < |es| :: es[i].digest != es[j].digest
  }

  /** The exported observations, and which run and position each comes from: no two from the same. */
  lemma {:induction false} ExportedObservations(t: Trust, streams: Streams, sources: map<Id, seq<Signer>>,
                                                runs: seq<Id>)
    requires Signable(streams, sources, runs) && OwnStreams(streams)
    requires forall i | 0 <= i < |runs| :: RunPinned(t, streams[runs[i]], sources[runs[i]])
    requires forall i, j | 0 <= i < j < |runs| :: runs[i] != runs[j]
    ensures FromRuns(t, streams, runs, SealedObservations(streams, sources, runs))
    ensures DistinctDigests(SealedObservations(streams, sources, runs))
  {
    hide Trusted, Pinned;
    if runs != [] {
      var n := |runs| - 1;
      var run := runs[n];
      ExportedObservations(t, streams, sources, runs[..n]);
      var before, mine := SealedObservations(streams, sources, runs[..n]), SealedRun(streams[run], sources[run]);
      forall i | 0 <= i < |mine| ensures FromStream(t, streams, run, mine[i]) {
        SignedIsTrusted(t, ForObservation, streams[run][i].source, streams[run][i], sources[run][i]);
      }
      assert runs == runs[..n] + [run];
      OtherRuns(t, streams, run, runs[..n], before, mine);
    }
  }

  lemma OtherRuns(t: Trust, streams: Streams, run: Id, runs: seq<Id>, before: seq<Envelope<Observation>>,
                  mine: seq<Envelope<Observation>>)
    requires run !in runs && FromRuns(t, streams, runs, before) && DistinctDigests(before)
    requires forall i | 0 <= i < |mine| :: FromStream(t, streams, run, mine[i]) && mine[i].body.value.pos == i + 1
    ensures FromRuns(t, streams, runs + [run], before + mine) && DistinctDigests(before + mine)
  {
    hide Trusted;
  }

  lemma AllOwnStreams(db: Db)
    requires Kept(db) && StreamsOk(db.runs, db.observations)
    ensures OwnStreams(db.observations)
  {
    Keyed(db);
    forall run, i | run in db.observations && 0 <= i < |db.observations[run]|
      ensures db.observations[run][i].run == run && db.observations[run][i].pos == i + 1
    {
      StreamsAreOwn(db.runs, db.observations, run, i);
    }
  }

  lemma ItemsDistinct(ps: seq<Envelope<Policy>>, os: seq<Envelope<Observation>>, es: seq<Envelope<Effect>>, a: Annex,
                      full: bool)
    requires DistinctDigests(ps) && DistinctDigests(os) && DistinctDigests(es) && Rows(a)
    ensures Distinct(Listed(ps, os, es, a.evaluations, full))
  {
    var p, o, e, v := PolicyItems(ps), ObservationItems(os, full), EffectItems(es, full),
        EvaluationItems(a.evaluations, full);
    forall i, j | 0 <= i < j < |v| ensures v[i].of != v[j].of {
      assert a.evaluations[i].input != a.evaluations[j].input;
    }
    BothDistinct(p, o);
    BothDistinct(p + o, e);
    BothDistinct(p + o + e, v);
  }

  lemma BothDistinct(a: seq<Item>, b: seq<Item>)
    requires Distinct(a) && Distinct(b)
    requires forall i, j | 0 <= i < |a| && 0 <= j < |b| :: a[i].of != b[j].of
    ensures Distinct(a + b)
  {}

  lemma ExportedPolicies(t: Trust, db: Db, keys: Signers)
    requires PoliciesOk(db.policies) && |db.policies| <= |keys.policies|
    requires forall i | 0 <= i < |db.policies| :: Pinned(t, ForPolicy, db.policies[i].tenant, keys.policies[i])
    ensures var ps := SealedPolicies(db.policies, keys.policies);
            (forall i | 0 <= i < |ps| :: SoundPolicy(t, ps[i])) && DistinctDigests(ps)
  {
    hide PolicyConstraints, Trusted, Pinned;
    var ps := SealedPolicies(db.policies, keys.policies);
    forall i | 0 <= i < |ps| ensures SoundPolicy(t, ps[i]) {
      SignedIsTrusted(t, ForPolicy, db.policies[i].tenant, db.policies[i], keys.policies[i]);
    }
    forall i, j | 0 <= i < j < |ps| ensures ps[i].digest != ps[j].digest {
      assert db.policies[i].generation != db.policies[j].generation;
    }
  }

  lemma ExportedEffects(t: Trust, a: Annex, signers: seq<Signer>)
    requires Rows(a) && |a.effects| == |signers|
    requires forall i | 0 <= i < |a.effects| :: Pinned(t, ForEffect, a.effects[i].runtime, signers[i])
    ensures var es := SealedEffects(a.effects, signers); SoundList(t, ForEffect, RuntimeOf, es) && DistinctDigests(es)
  {
    hide Trusted, Pinned;
    var es := SealedEffects(a.effects, signers);
    forall i | 0 <= i < |es| ensures SoundItem(t, ForEffect, RuntimeOf, es[i]) {
      SignedIsTrusted(t, ForEffect, a.effects[i].runtime, a.effects[i], signers[i]);
    }
  }

  lemma {:induction false} InventoriedSplits(a: seq<Item>, b: seq<Item>, tag: Tag)
    ensures Inventoried(a + b, tag) == Inventoried(a, tag) + Inventoried(b, tag)
  {
    if b == [] {
      assert a + b == a;
    } else {
      InventoriedSplits(a, b[..|b| - 1], tag);
      assert (a + b)[..|a + b| - 1] == a + b[..|b| - 1];
    }
  }

  lemma {:induction false} InventoriedOne(items: seq<Item>, tag: Tag, all: bool)
    requires forall i | 0 <= i < |items| :: IsFor(items[i].of, tag) == all
    ensures Inventoried(items, tag) == if all then items else []
  {
    if items != [] {
      InventoriedOne(items[..|items| - 1], tag, all);
      assert items == items[..|items| - 1] + [items[|items| - 1]];
    }
  }

  lemma ListedFor(ps: seq<Envelope<Policy>>, os: seq<Envelope<Observation>>, es: seq<Envelope<Effect>>,
                  vs: seq<Evaluation>, full: bool, tag: Tag)
    requires DistinctDigests(ps) && DistinctDigests(os) && DistinctDigests(es) && tag in {ForObservation, ForEffect}
    ensures Inventoried(Listed(ps, os, es, vs, full), tag)
            == if tag == ForObservation then ObservationItems(os, full) else EffectItems(es, full)
  {
    hide Inventoried;
    var p, o, e, v := PolicyItems(ps), ObservationItems(os, full), EffectItems(es, full), EvaluationItems(vs, full);
    InventoriedSplits(p + o + e, v, tag);
    InventoriedSplits(p + o, e, tag);
    InventoriedSplits(p, o, tag);
    InventoriedOne(p, tag, false);
    InventoriedOne(o, tag, tag == ForObservation);
    InventoriedOne(e, tag, tag == ForEffect);
    InventoriedOne(v, tag, false);
  }

  lemma PresenceHolds(m: Manifest, ps: seq<Envelope<Policy>>, os: seq<Envelope<Observation>>,
                      es: seq<Envelope<Effect>>, vs: seq<Evaluation>)
    requires DistinctDigests(ps) && DistinctDigests(os) && DistinctDigests(es)
    requires m.inventory == Listed(ps, os, es, vs, m.full)
    ensures Clean(PresenceNote(m, if m.full then |os| else 0, if m.full then |es| else 0))
  {
    hide Inventoried, Listed;
    ListedFor(ps, os, es, vs, m.full, ForObservation);
    ListedFor(ps, os, es, vs, m.full, ForEffect);
  }

  /** The exported observations are all signed by pinned keys, and no two are the same. */
  lemma ExportedStreams(t: Trust, db: Db, a: Annex, keys: Signers, cut: nat)
    requires Inv(db) && Complete(db, a, keys) && cut <= |db.audit| && PinsCover(t, db, a, keys, cut)
    ensures var os := SealedObservations(db.observations, keys.sources, RunIds(db));
            SoundList(t, ForObservation, SourceOf, os) && DistinctDigests(os)
  {
    hide Kept, RunsOk, ChecksOk, ReviewsOk, ClearsOk, StreamsOk, PoliciesOk, Pinned, SealedObservations, FromStream,
         SoundItem;
    AllOwnStreams(db);
    ExportedObservations(t, db.observations, keys.sources, RunIds(db));
    var os := SealedObservations(db.observations, keys.sources, RunIds(db));
    forall i | 0 <= i < |os| ensures SoundItem(t, ForObservation, SourceOf, os[i]) {
      StreamIsSound(t, db.observations, os[i]);
    }
  }

  lemma StreamIsSound(t: Trust, streams: Streams, e: Envelope<Observation>)
    requires e.Envelope? && e.body.Parsed? && FromStream(t, streams, e.body.value.run, e)
    ensures SoundItem(t, ForObservation, SourceOf, e)
  {
    hide Trusted;
  }

  lemma ExportIsFaultless(t: Trust, db: Db, a: Annex, keys: Signers, cut: nat, full: bool)
    requires Inv(db) && Rows(a) && Complete(db, a, keys) && 0 < cut <= |db.audit| && cut <= ARRAY_MAX
    requires PinsCover(t, db, a, keys, cut) && t.tenant == keys.tenant && t.minimumPos <= cut
    ensures Faultless(t, Exported(db, a, keys, cut, full))
  {
    hide RunsOk, ChecksOk, ReviewsOk, ClearsOk, Lawful, Trusted, Pinned, SoundChain, Distinct, SoundPolicy, SoundList,
         PresenceNote, Disclosed, StreamsOk, PoliciesOk, SealedObservations, Listed;
    var b := Exported(db, a, keys, cut, full);
    var m := b.manifest.body.value;
    ExportedEvents(t, db, a, keys, cut);
    ExportedPolicies(t, db, keys);
    ExportedEffects(t, a, keys.effects);
    ExportedStreams(t, db, a, keys, cut);
    var ps := SealedPolicies(db.policies, keys.policies);
    var os := SealedObservations(db.observations, keys.sources, RunIds(db));
    var es := SealedEffects(a.effects, keys.effects);
    ItemsDistinct(ps, os, es, a, full);
    PresenceHolds(m, ps, os, es, a.evaluations);
    PresenceMeans(m, |b.observations|, |b.effects|);
    SignedIsTrusted(t, ForBundle, keys.tenant, m, keys.manifest);
    assert !full ==> SoundList(t, ForObservation, SourceOf, []) && SoundList(t, ForEffect, RuntimeOf, []) by {
      NothingListed(t);
    }
  }

  lemma NothingListed(t: Trust)
    ensures SoundList(t, ForObservation, SourceOf, []) && SoundList(t, ForEffect, RuntimeOf, [])
  {}

  /** The bundle exported at any cut of a reachable store, when every signature in it is under a live pinned key: a
      FULL one verifies as FULL_REPLAY and a COMMITMENTS one as INTEGRITY_ONLY if and only if the cut is at most 4096
      events, the longest list of event hashes a manifest may carry; a longer one is INVALID. */
  lemma ExportVerifies(t: Trust, db: Db, a: Annex, keys: Signers, cut: nat, full: bool)
    requires Inv(db) && Rows(a) && Complete(db, a, keys) && 0 < cut <= |db.audit| && Exportable(a, cut, full)
    requires PinsCover(t, db, a, keys, cut) && t.tenant == keys.tenant && t.minimumPos <= cut
    ensures var v := Verified(t, Exported(db, a, keys, cut, full));
            && (v.status == (if full then FullReplay else IntegrityOnly) <==> cut <= 4096)
            && (cut > 4096 ==> v.status == Invalid)
  {
    hide Inv, Rows, PinsCover, Faultless, Walked, WholeNote, SealedObservations, Listed;
    VerdictMeans(t, Exported(db, a, keys, cut, full));
    if cut <= ARRAY_MAX { ExportIsFaultless(t, db, a, keys, cut, full); }
  }

  // ---- what the request hands out ----

  /** How many observations there are of the runs listed. */
  function Count(streams: Streams, runs: seq<Id>): nat
    requires forall i | 0 <= i < |runs| :: runs[i] in streams
  {
    if runs == [] then 0 else Count(streams, runs[..|runs| - 1]) + |streams[runs[|runs| - 1]]|
  }

  lemma {:induction false} SealedCount(streams: Streams, sources: map<Id, seq<Signer>>, runs: seq<Id>)
    requires Signable(streams, sources, runs)
    ensures |SealedObservations(streams, sources, runs)| == Count(streams, runs)
  {
    if runs != [] { SealedCount(streams, sources, runs[..|runs| - 1]); }
  }

  /** Everything the inventory of an export lists, by number. */
  function Entries(db: Db, a: Annex): nat {
    |db.policies| + Count(db.observations, RunIds(db)) + |a.effects| + |a.evaluations|
  }

  /** A bundle is handed out exactly if its cut is in the log, no evaluation's input is missing from a full one, it
      fits into a reply, and neither its events nor its inventory is over 4096 entries. */
  lemma DeliveryMeans(db: Db, a: Annex, keys: Signers, through: Option<Position>, full: bool, size: Bundle -> nat)
    requires Complete(db, a, keys)
    ensures Requested(db, a, keys, through, full, size).Delivered? <==>
              var cut := CutOf(db, keys.tenant, through);
              && cut.Some? && Exportable(a, cut.value, full)
              && size(Exported(db, a, keys, cut.value, full)) <= 8 * 1024 * 1024
              && cut.value <= 4096 && (cut.value > 0 ==> Entries(db, a) <= 4096)
  {
    hide Exported, ArraysFit, Count;
    var cut := CutOf(db, keys.tenant, through);
    if cut.Some? { ExportFits(db, a, keys, cut.value, full); }
  }

  lemma ExportFits(db: Db, a: Annex, keys: Signers, cut: nat, full: bool)
    requires Complete(db, a, keys) && cut <= |db.audit|
    ensures ArraysFit(Exported(db, a, keys, cut, full))
            <==> cut <= ARRAY_MAX && (cut > 0 ==> Entries(db, a) <= ARRAY_MAX)
  {
    hide SealedObservations, Count;
    SealedCount(db.observations, keys.sources, RunIds(db));
  }

  /** Every bundle the request hands out is read back by the tool and verifies, when every signature in it is under a
      live pinned key; only that of an empty cut is INCOMPLETE. */
  lemma DeliveredVerifies(t: Trust, db: Db, a: Annex, keys: Signers, through: Option<Position>, full: bool,
                          size: Bundle -> nat)
    requires Inv(db) && Rows(a) && Complete(db, a, keys) && Requested(db, a, keys, through, full, size).Delivered?
    requires var cut := CutOf(db, keys.tenant, through).value;
             PinsCover(t, db, a, keys, cut) && t.tenant == keys.tenant && t.minimumPos <= cut
    ensures var v := Judged(t, Requested(db, a, keys, through, full, size).bundle, size);
            && v.Some?
            && v.value.status == if CutOf(db, keys.tenant, through).value == 0 then Incomplete
                                 else if full then FullReplay else IntegrityOnly
  {
    hide Inv, Rows, PinsCover, Verified, Listed, SealedObservations;
    DeliveryMeans(db, a, keys, through, full, size);
    var cut := CutOf(db, keys.tenant, through).value;
    if cut == 0 {
      EmptyIsIncomplete(t, db, a, keys, full);
    } else {
      ExportVerifies(t, db, a, keys, cut, full);
    }
  }

  lemma EmptyIsIncomplete(t: Trust, db: Db, a: Annex, keys: Signers, full: bool)
    requires Complete(db, a, keys) && t.tenant == keys.tenant
    ensures Verified(t, Exported(db, a, keys, 0, full)).status == Incomplete
  {}

  // ---- what an export contains ----

  ghost predicate AcceptedBy(streams: Streams, runs: seq<Id>, o: Observation) {
    exists k | 0 <= k < |runs| :: runs[k] in streams && o in streams[runs[k]]
  }

  ghost predicate Carried(os: seq<Envelope<Observation>>, o: Observation) {
    exists i | 0 <= i < |os| :: os[i].Envelope? && os[i].body == Parsed(o) && os[i].digest == Of(Parsed(o))
  }

  lemma CarriedBoth(a: seq<Envelope<Observation>>, b: seq<Envelope<Observation>>, o: Observation)
    ensures Carried(a + b, o) <==> Carried(a, o) || Carried(b, o)
  {
    if Carried(a, o) {
      var i :| 0 <= i < |a| && a[i].Envelope? && a[i].body == Parsed(o) && a[i].digest == Of(Parsed(o));
      assert (a + b)[i] == a[i];
    }
    if Carried(b, o) {
      var i :| 0 <= i < |b| && b[i].Envelope? && b[i].body == Parsed(o) && b[i].digest == Of(Parsed(o));
      assert (a + b)[|a| + i] == b[i];
    }
  }

  lemma RunCarried(os: seq<Observation>, signers: seq<Signer>, o: Observation)
    requires |os| <= |signers|
    ensures Carried(SealedRun(os, signers), o) <==> o in os
  {
    if o in os {
      var i :| 0 <= i < |os| && os[i] == o;
      assert SealedRun(os, signers)[i] == Sign(o, signers[i]);
    }
  }

  lemma {:induction false} SealedCarry(streams: Streams, sources: map<Id, seq<Signer>>, runs: seq<Id>, o: Observation)
    requires Signable(streams, sources, runs)
    ensures Carried(SealedObservations(streams, sources, runs), o) <==> AcceptedBy(streams, runs, o)
  {
    hide Carried;
    if runs == [] {
      NoneCarried(o);
    } else {
      var n := |runs| - 1;
      var pre, run := runs[..n], runs[n];
      SealedCarry(streams, sources, pre, o);
      CarriedBoth(SealedObservations(streams, sources, pre), SealedRun(streams[run], sources[run]), o);
      RunCarried(streams[run], sources[run], o);
      if AcceptedBy(streams, pre, o) {
        var k :| 0 <= k < n && pre[k] in streams && o in streams[pre[k]];
        assert runs[k] == pre[k];
      }
      if AcceptedBy(streams, runs, o) && o !in streams[run] {
        var k :| 0 <= k < |runs| && runs[k] in streams && o in streams[runs[k]];
        assert pre[k] == runs[k];
      }
    }
  }

  lemma NoneCarried(o: Observation)
    ensures !Carried([], o)
  {}

  /** Some run has accepted the observation. */
  ghost predicate OnRecord(db: Db, o: Observation) { exists run :: run in db.observations && o in db.observations[run] }

  lemma ObservationsCarried(db: Db, sources: map<Id, seq<Signer>>, o: Observation)
    requires Signable(db.observations, sources, RunIds(db))
    ensures Carried(SealedObservations(db.observations, sources, RunIds(db)), o) <==> OnRecord(db, o)
  {
    hide Carried;
    SealedCarry(db.observations, sources, RunIds(db), o);
    if OnRecord(db, o) {
      var run :| run in db.observations && o in db.observations[run];
      assert run in RunIds(db);
      var k :| 0 <= k < |RunIds(db)| && RunIds(db)[k] == run;
    }
  }

  /** The inventory lists it. */
  predicate Lists(m: Manifest, c: Commitment, present: bool) { Item(c, present) in m.inventory }

  /** A bundle of a nonempty cut contains every event up to it and every policy; a full one every accepted observation,
      every effect and every evaluation, and nothing else, the other kind none of them; and the inventory lists them
      all. */
  lemma ExportTellsAll(db: Db, a: Annex, keys: Signers, cut: nat, full: bool)
    requires Complete(db, a, keys) && 0 < cut <= |db.audit|
    ensures var b := Exported(db, a, keys, cut, full);
            && b.manifest.Envelope? && b.manifest.body.Parsed? && b.manifest.body.value.tenant == keys.tenant
            && b.manifest.body.value.full == full
            && |b.events| == cut
            && (forall i | 0 <= i < cut ::
                  b.events[i].Envelope? && b.events[i].body.Parsed?
                  && b.events[i].body.value.(prev := Unknown(0))
                     == Body(keys.tenant, db.audit[i].pos, Unknown(0), db.audit[i].atMs, db.audit[i].kind,
                             db.audit[i].value))
            && |b.policies| == |db.policies|
            && (forall i | 0 <= i < |b.policies| ::
                  b.policies[i].Envelope? && b.policies[i].body == Parsed(db.policies[i]))
            && (full ==>
                  && (forall o :: Carried(b.observations, o) <==> OnRecord(db, o))
                  && |b.effects| == |a.effects|
                  && (forall i | 0 <= i < |a.effects| ::
                        b.effects[i].Envelope? && b.effects[i].body == Parsed(a.effects[i]))
                  && b.evaluations == a.evaluations)
            && (!full ==> b.observations == [] && b.effects == [] && b.evaluations == [])
  {
    hide SealedObservations, Carried, OnRecord, Listed;
    forall o ensures Carried(SealedObservations(db.observations, keys.sources, RunIds(db)), o) <==> OnRecord(db, o) {
      ObservationsCarried(db, keys.sources, o);
    }
  }

  /** ... and the inventory of such a bundle lists every one of them, present or withheld. */
  lemma InventoryListsAll(db: Db, a: Annex, keys: Signers, cut: nat, full: bool)
    requires Complete(db, a, keys) && 0 < cut <= |db.audit|
    ensures var m := Exported(db, a, keys, cut, full).manifest.body.value;
            && (forall p | p in db.policies :: Lists(m, ToPolicy(Of(Parsed(p))), true))
            && (forall o | OnRecord(db, o) :: Lists(m, ToObservation(Of(Parsed(o))), full))
            && (forall e | e in a.effects :: Lists(m, ToEffect(Of(Parsed(e))), full))
            && (forall v | v in a.evaluations :: Lists(m, if full then ToEvaluation(v) else ToInput(v.input), full))
  {
    hide SealedObservations, OnRecord;
    var ps := SealedPolicies(db.policies, keys.policies);
    var os := SealedObservations(db.observations, keys.sources, RunIds(db));
    var es := SealedEffects(a.effects, keys.effects);
    var p, q, r, s := PolicyItems(ps), ObservationItems(os, full), EffectItems(es, full),
                      EvaluationItems(a.evaluations, full);
    forall x | x in db.policies ensures Item(ToPolicy(Of(Parsed(x))), true) in p {
      var i :| 0 <= i < |db.policies| && db.policies[i] == x;
      assert p[i] == Item(ToPolicy(ps[i].digest), true);
    }
    forall x | OnRecord(db, x) ensures Item(ToObservation(Of(Parsed(x))), full) in q {
      ObservationsCarried(db, keys.sources, x);
      var i :| 0 <= i < |os| && os[i].Envelope? && os[i].body == Parsed(x) && os[i].digest == Of(Parsed(x));
      assert q[i] == Item(ToObservation(os[i].digest), full);
    }
    forall x | x in a.effects ensures Item(ToEffect(Of(Parsed(x))), full) in r {
      var i :| 0 <= i < |a.effects| && a.effects[i] == x;
      assert r[i] == Item(ToEffect(es[i].digest), full);
    }
    forall x | x in a.evaluations ensures Item(if full then ToEvaluation(x) else ToInput(x.input), full) in s {
      var i :| 0 <= i < |a.evaluations| && a.evaluations[i] == x;
      assert s[i] == EvaluationItem(x, full);
    }
  }
}
