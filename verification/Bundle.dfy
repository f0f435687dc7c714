/** Proof bundles: what the daemon exports (crates/watch/src/bundle.rs) and what the offline verifier accepts
    (crates/watch/src/verify.rs). */
module Bundle {
  import opened Basics
  import opened Ids
  import opened Records
  import opened Store
  import opened Protocol
  import opened Safety
  import opened Invariants

  const ARRAY_MAX: nat := 4096

  // ---- envelopes, keys and trust ----

  type Key = string

  /** What an envelope carries: a body that parses, or some other document. */
  datatype Content<T> = Parsed(value: T) | Opaque(document: nat)

  /** A digest field: that of some content, or anything else. The all-zero digest is `Unknown(0)`. */
  datatype Mark<T> = Unknown(n: nat) | Of(content: Content<T>)

  /** `signer` is the public key the signature verifies under, if any. */
  datatype Envelope<T> =
    | Malformed
    | Envelope(body: Content<T>, digest: Mark<T>, keyId: Id, keyEpoch: Counter, signer: Option<Key>)

  datatype Signer = Signer(keyId: Id, keyEpoch: Counter, key: Key)

  function Sign<T>(body: T, s: Signer): Envelope<T> {
    Envelope(Parsed(body), Of(Parsed(body)), s.keyId, s.keyEpoch, Some(s.key))
  }

  datatype Tag = ForBundle | ForAudit | ForPolicy | ForObservation | ForEffect
  datatype Pin = Pin(id: Id, key: Key, tags: set<Tag>, subjects: set<Id>, fromEpoch: Counter,
                     throughEpoch: Option<Counter>, live: bool, compromised: bool)
  datatype Trust = Trust(tenant: Id, pins: seq<Pin>, minimumPos: nat)

  predicate Covering(k: Pin, tag: Tag, subject: Id, keyId: Id, keyEpoch: Counter) {
    && k.id == keyId && k.live && !k.compromised && tag in k.tags && subject in k.subjects
    && keyEpoch >= k.fromEpoch && (k.throughEpoch.Some? ==> keyEpoch <= k.throughEpoch.value)
  }

  /** The first live pin for a key, a tag and a subject. */
  function FindPin(pins: seq<Pin>, tag: Tag, subject: Id, keyId: Id, keyEpoch: Counter): (r: Option<Pin>)
    ensures r.Some? ==> r.value in pins && Covering(r.value, tag, subject, keyId, keyEpoch)
    ensures r.None? ==> forall k | k in pins :: !Covering(k, tag, subject, keyId, keyEpoch)
  {
    if pins == [] then None
    else if Covering(pins[0], tag, subject, keyId, keyEpoch) then Some(pins[0])
    else FindPin(pins[1..], tag, subject, keyId, keyEpoch)
  }

  predicate SignatureHolds<T(==)>(e: Envelope<T>, key: Key)
    requires e.Envelope?
  {
    e.signer == Some(key) && e.digest == Of(e.body)
  }

  // ---- bundles ----

  datatype Body = Body(tenant: Id, pos: nat, prev: Mark<Body>, atMs: nat, kind: Kind, value: Subject)
  type Position = (nat, Mark<Body>)
  const START: Position := (0, Unknown(0))

  /** What a runtime declared of an effect, and what an audit evaluation computed from its input. */
  datatype Effect = Effect(run: Id, action: Id, runtime: Id, details: string)
  datatype Evaluation = Evaluation(input: string, output: string)

  /** An inventory entry's tag and digest; an evaluation that is withheld is listed by its input alone. */
  datatype Commitment =
    | ToPolicy(policy: Mark<Policy>)
    | ToObservation(observation: Mark<Observation>)
    | ToEffect(effect: Mark<Effect>)
    | ToEvaluation(evaluation: Evaluation)
    | ToInput(input: string)
  datatype Item = Item(of: Commitment, present: bool)

  /** An event hash covers the whole envelope, so it is modelled by the envelope. */
  datatype Manifest = Manifest(tenant: Id, through: Position, full: bool, inventory: seq<Item>,
                               hashes: seq<Envelope<Body>>, limitations: seq<string>)

  datatype Bundle = Bundle(manifest: Envelope<Manifest>, events: seq<Envelope<Body>>, policies: seq<Envelope<Policy>>,
                           observations: seq<Envelope<Observation>>, effects: seq<Envelope<Effect>>,
                           evaluations: seq<Evaluation>)

  // ---- verdicts ----

  datatype Reason = Schema | TrustTenant | BadSignature | UntrustedKey | EmptyHistory | AuditHash | AuditGap
                  | AuditChain | ThroughMismatch | InventoryDup | InventoryMismatch | OmittedBytes | MinimumHead
  datatype Status = Invalid | Incomplete | IntegrityOnly | FullReplay
  datatype Verification = Verification(status: Status, reasons: set<Reason>, through: Position)

  /** What one part of the bundle adds to the verdict. */
  datatype Note = Note(bad: bool, missing: bool, reasons: set<Reason>)
  const CLEAN := Note(false, false, {})

  function Bad(r: Reason): Note { Note(true, false, {r}) }
  function Missing(r: Reason): Note { Note(false, true, {r}) }
  function Join(a: Note, b: Note): Note { Note(a.bad || b.bad, a.missing || b.missing, a.reasons + b.reasons) }

  function SignatureNote<T(==)>(t: Trust, tag: Tag, subject: Id, e: Envelope<T>): Note
    requires e.Envelope?
  {
    var k := FindPin(t.pins, tag, subject, e.keyId, e.keyEpoch);
    if k.None? then Missing(UntrustedKey) else if SignatureHolds(e, k.value.key) then CLEAN else Bad(BadSignature)
  }

  /** The state of the walk along the events. */
  datatype Walk = Walk(note: Note, prev: Mark<Body>, expected: nat, last: Position, stopped: bool)

  function HashNote(e: Envelope<Body>, i: nat, hashes: seq<Envelope<Body>>): Note {
    if i < |hashes| && hashes[i] == e then CLEAN else Bad(AuditHash)
  }

  function WalkStep(t: Trust, hashes: seq<Envelope<Body>>, w: Walk, e: Envelope<Body>, i: nat): Walk {
    if w.stopped then w
    else if e.Malformed? then w.(note := Join(w.note, Bad(Schema)), stopped := true)
    else
      var n := Join(w.note, HashNote(e, i, hashes));
      if e.body.Opaque? then w.(note := Join(n, Bad(Schema)))
      else
        var b := e.body.value;
        var n1 := Join(n, if b.pos == w.expected then CLEAN else Missing(AuditGap));
        var n2 := Join(n1, if b.prev == w.prev then CLEAN else Bad(AuditChain));
        Walk(Join(n2, SignatureNote(t, ForAudit, b.tenant, e)), e.digest, w.expected + 1, (b.pos, e.digest), false)
  }

  function Walked(t: Trust, hashes: seq<Envelope<Body>>, events: seq<Envelope<Body>>): Walk {
    if events == [] then Walk(CLEAN, Unknown(0), 1, START, false)
    else WalkStep(t, hashes, Walked(t, hashes, events[..|events| - 1]), events[|events| - 1], |events| - 1)
  }

  function InventoryNote(items: seq<Item>): Note {
    if items == [] then CLEAN else
      Join(InventoryNote(items[..|items| - 1]),
           if exists k | 0 <= k < |items| - 1 :: items[k].of == items[|items| - 1].of then Bad(InventoryDup) else CLEAN)
  }

  function PolicyNote(t: Trust, e: Envelope<Policy>): Note {
    if e.Malformed? then Bad(Schema)
    else Join(if e.digest == Of(e.body) then CLEAN else Bad(InventoryMismatch),
              if e.body.Opaque? then Bad(Schema) else SignatureNote(t, ForPolicy, e.body.value.tenant, e))
  }

  function PoliciesNote(t: Trust, es: seq<Envelope<Policy>>): Note {
    if es == [] then CLEAN else Join(PoliciesNote(t, es[..|es| - 1]), PolicyNote(t, es[|es| - 1]))
  }

  /** What a signature on an observation or an effect must be pinned for. */
  function SourceOf(o: Observation): Id { o.source }
  function RuntimeOf(e: Effect): Id { e.runtime }

  function SignedNote<T(==)>(t: Trust, tag: Tag, subject: T -> Id, e: Envelope<T>): Note {
    if e.Malformed? then Bad(Schema)
    else SignatureNote(t, tag, if e.body.Parsed? then subject(e.body.value) else "", e)
  }

  function ListNote<T(==)>(t: Trust, tag: Tag, subject: T -> Id, es: seq<Envelope<T>>): Note {
    if es == [] then CLEAN
    else Join(ListNote(t, tag, subject, es[..|es| - 1]), SignedNote(t, tag, subject, es[|es| - 1]))
  }

  predicate IsFor(c: Commitment, tag: Tag) {
    match tag
    case ForObservation => c.ToObservation?
    case ForEffect => c.ToEffect?
    case _ => false
  }

  function Inventoried(items: seq<Item>, tag: Tag): seq<Item> {
    if items == [] then [] else
      Inventoried(items[..|items| - 1], tag) + if IsFor(items[|items| - 1].of, tag) then [items[|items| - 1]] else []
  }

  predicate Present(items: seq<Item>) { forall x | x in items :: x.present }

  /** A full disclosure must contain every observation and effect it inventories; the other kind withholds them by
      design. */
  function PresenceNote(m: Manifest, observations: nat, effects: nat): Note {
    var inv, eff := Inventoried(m.inventory, ForObservation), Inventoried(m.inventory, ForEffect);
    if !m.full then Note(false, false, {OmittedBytes})
    else Join(if Present(inv) && Present(eff) then CLEAN else Bad(InventoryMismatch),
              if |inv| == observations && |eff| == effects then CLEAN else Bad(InventoryMismatch))
  }

  function ManifestNote(t: Trust, e: Envelope<Manifest>): Note
    requires e.Envelope? && e.body.Parsed?
  {
    SignatureNote(t, ForBundle, e.body.value.tenant, e)
  }

  function WholeNote(t: Trust, b: Bundle, m: Manifest, w: Walk): Note
    requires b.manifest.Envelope? && b.manifest.body.Parsed?
  {
    var n1 := Join(ManifestNote(t, b.manifest), w.note);
    var n2 := Join(n1, if m.through == w.last then CLEAN else Bad(ThroughMismatch));
    var n3 := Join(n2, InventoryNote(m.inventory));
    var n4 := Join(n3, PoliciesNote(t, b.policies));
    var n5 := Join(n4, PresenceNote(m, |b.observations|, |b.effects|));
    var n6 := Join(n5, ListNote(t, ForObservation, SourceOf, b.observations));
    var n7 := Join(n6, ListNote(t, ForEffect, RuntimeOf, b.effects));
    Join(n7, if w.last.0 < t.minimumPos then Missing(MinimumHead) else CLEAN)
  }

  /** A manifest whose hash list is over the array bound does not parse. */
  predicate ManifestParses(e: Envelope<Manifest>) {
    e.Envelope? && e.body.Parsed? && |e.body.value.hashes| <= ARRAY_MAX
  }

  function Verified(t: Trust, b: Bundle): Verification {
    if !ManifestParses(b.manifest) then Verification(Invalid, {Schema}, START)
    else
      var m := b.manifest.body.value;
      if m.tenant != t.tenant then Verification(Invalid, {TrustTenant}, START)
      else if b.events == [] then Verification(Incomplete, {EmptyHistory}, m.through)
      else
        var w := Walked(t, m.hashes, b.events);
        var n := WholeNote(t, b, m, w);
        Verification(if n.bad then Invalid else if n.missing then Incomplete else if !m.full then IntegrityOnly
                     else FullReplay,
                     n.reasons, if w.last.0 > 0 then w.last else m.through)
  }

  lemma {:induction false} StoppedStays(t: Trust, hashes: seq<Envelope<Body>>, events: seq<Envelope<Body>>, i: nat)
    requires i <= |events| && Walked(t, hashes, events[..i]).stopped
    ensures Walked(t, hashes, events) == Walked(t, hashes, events[..i])
    decreases |events|
  {
    if i < |events| {
      assert events[..|events| - 1][..i] == events[..i];
      StoppedStays(t, hashes, events[..|events| - 1], i);
    } else {
      assert events[..i] == events;
    }
  }

  /** The walk along the events: contiguous positions, links, listed hashes, signatures. */
  method WalkEvents(t: Trust, hashes: seq<Envelope<Body>>, events: seq<Envelope<Body>>)
    returns (note: Note, last: Position)
    ensures note == Walked(t, hashes, events).note && last == Walked(t, hashes, events).last
  {
    var prev, expected := Unknown(0), 1;
    note, last := CLEAN, START;
    var i := 0;
    while i < |events|
      invariant i <= |events|
      invariant Walked(t, hashes, events[..i]) == Walk(note, prev, expected, last, false)
    {
      assert events[..i + 1][..i] == events[..i];
      var e := events[i];
      if e.Malformed? {
        note := Join(note, Bad(Schema));
        StoppedStays(t, hashes, events, i + 1);
        return;
      }
      note := Join(note, HashNote(e, i, hashes));
      if e.body.Parsed? {
        var b := e.body.value;
        note := Join(note, if b.pos == expected then CLEAN else Missing(AuditGap));
        note := Join(note, if b.prev == prev then CLEAN else Bad(AuditChain));
        prev, last, expected := e.digest, (b.pos, e.digest), expected + 1;
        note := Join(note, SignatureNote(t, ForAudit, b.tenant, e));
      } else {
        note := Join(note, Bad(Schema));
      }
      i := i + 1;
    }
    assert events[..i] == events;
  }

  method CheckInventory(items: seq<Item>) returns (note: Note)
    ensures note == InventoryNote(items)
  {
    var seen: set<Commitment> := {};
    note := CLEAN;
    var i := 0;
    while i < |items|
      invariant i <= |items| && note == InventoryNote(items[..i])
      invariant seen == set k | 0 <= k < i :: items[k].of
    {
      assert items[..i + 1][..i] == items[..i];
      note := Join(note, if items[i].of in seen then Bad(InventoryDup) else CLEAN);
      seen := seen + {items[i].of};
      i := i + 1;
    }
    assert items[..i] == items;
  }

  method CheckPolicies(t: Trust, es: seq<Envelope<Policy>>) returns (note: Note)
    ensures note == PoliciesNote(t, es)
  {
    note := CLEAN;
    var i := 0;
    while i < |es|
      invariant i <= |es| && note == PoliciesNote(t, es[..i])
    {
      assert es[..i + 1][..i] == es[..i];
      note := Join(note, PolicyNote(t, es[i]));
      i := i + 1;
    }
    assert es[..i] == es;
  }

  method CheckList<T(==)>(t: Trust, tag: Tag, subject: T -> Id, es: seq<Envelope<T>>) returns (note: Note)
    ensures note == ListNote(t, tag, subject, es)
  {
    note := CLEAN;
    var i := 0;
    while i < |es|
      invariant i <= |es| && note == ListNote(t, tag, subject, es[..i])
    {
      assert es[..i + 1][..i] == es[..i];
      note := Join(note, SignedNote(t, tag, subject, es[i]));
      i := i + 1;
    }
    assert es[..i] == es;
  }

  method Verify(t: Trust, b: Bundle) returns (v: Verification)
    ensures v == Verified(t, b)
  {
    if !ManifestParses(b.manifest) { return Verification(Invalid, {Schema}, START); }
    var m := b.manifest.body.value;
    if m.tenant != t.tenant { return Verification(Invalid, {TrustTenant}, START); }
    var note := ManifestNote(t, b.manifest);
    if b.events == [] { return Verification(Incomplete, {EmptyHistory}, m.through); }
    var walk, last := WalkEvents(t, m.hashes, b.events);
    note := Join(note, walk);
    note := Join(note, if m.through == last then CLEAN else Bad(ThroughMismatch));
    var more := CheckInventory(m.inventory);
    note := Join(note, more);
    more := CheckPolicies(t, b.policies);
    note := Join(note, more);
    note := Join(note, PresenceNote(m, |b.observations|, |b.effects|));
    more := CheckList(t, ForObservation, SourceOf, b.observations);
    note := Join(note, more);
    more := CheckList(t, ForEffect, RuntimeOf, b.effects);
    note := Join(note, more);
    note := Join(note, if last.0 < t.minimumPos then Missing(MinimumHead) else CLEAN);
    var status := if note.bad then Invalid else if note.missing then Incomplete else if !m.full then IntegrityOnly
                  else FullReplay;
    return Verification(status, note.reasons, if last.0 > 0 then last else m.through);
  }

  // ---- export ----

  function SealedBody(tenant: Id, e: Event): Body {
    Body(tenant, e.pos, MarkOf(tenant, e.prev), e.atMs, e.kind, e.value)
  }

  function MarkOf(tenant: Id, l: Link): Mark<Body> {
    match l
    case Genesis => Unknown(0)
    case Hash(e) => Of(Parsed(SealedBody(tenant, e)))
  }

  /** Who signed what the store holds: the daemon its events and this manifest, operators and sources the rest. */
  datatype Signers = Signers(tenant: Id, manifest: Signer, events: seq<Signer>, policies: seq<Signer>,
                             sources: map<Id, seq<Signer>>, effects: seq<Signer>)

  /** The tables a bundle is made of besides `Db`, and the evaluation inputs the object store still holds. */
  datatype Annex = Annex(effects: seq<Effect>, evaluations: seq<Evaluation>, objects: set<string>)

  /** The effects' primary key is their digest, and an evaluation's input is unique. */
  ghost predicate Rows(a: Annex) {
    && (forall i, j | 0 <= i < j < |a.effects| :: a.effects[i] != a.effects[j])
    && (forall i, j | 0 <= i < j < |a.evaluations| :: a.evaluations[i].input != a.evaluations[j].input)
  }

  ghost predicate Complete(db: Db, a: Annex, keys: Signers) {
    && |keys.effects| == |a.effects|
    && |keys.events| == |db.audit| && |keys.policies| == |db.policies|
    && forall run | run in db.observations :: run in keys.sources && |keys.sources[run]| == |db.observations[run]|
  }

  function SealedEvents(tenant: Id, audit: seq<Event>, signers: seq<Signer>): (r: seq<Envelope<Body>>)
    requires |audit| <= |signers|
    ensures |r| == |audit| && forall i | 0 <= i < |r| :: r[i] == Sign(SealedBody(tenant, audit[i]), signers[i])
  {
    seq(|audit|, i requires 0 <= i < |audit| => Sign(SealedBody(tenant, audit[i]), signers[i]))
  }

  function SealedPolicies(ps: seq<Policy>, signers: seq<Signer>): (r: seq<Envelope<Policy>>)
    requires |ps| <= |signers|
    ensures |r| == |ps| && forall i | 0 <= i < |r| :: r[i] == Sign(ps[i], signers[i])
  {
    seq(|ps|, i requires 0 <= i < |ps| => Sign(ps[i], signers[i]))
  }

  function SealedRun(os: seq<Observation>, signers: seq<Signer>): (r: seq<Envelope<Observation>>)
    requires |os| <= |signers|
    ensures |r| == |os| && forall i | 0 <= i < |r| :: r[i] == Sign(os[i], signers[i])
  {
    seq(|os|, i requires 0 <= i < |os| => Sign(os[i], signers[i]))
  }

  ghost predicate Signable(streams: Streams, sources: map<Id, seq<Signer>>, runs: seq<Id>) {
    forall i | 0 <= i < |runs| :: runs[i] in streams && runs[i] in sources && |streams[runs[i]]| <= |sources[runs[i]]|
  }

  /** The observations of every run, run by run in id order. */
  function SealedObservations(streams: Streams, sources: map<Id, seq<Signer>>,
                              runs: seq<Id>): (r: seq<Envelope<Observation>>)
    requires Signable(streams, sources, runs)
    ensures forall i | 0 <= i < |r| :: r[i].Envelope?
  {
    if runs == [] then [] else
      var run := runs[|runs| - 1];
      SealedObservations(streams, sources, runs[..|runs| - 1]) + SealedRun(streams[run], sources[run])
  }

  function PolicyItems(ps: seq<Envelope<Policy>>): (r: seq<Item>)
    requires forall i | 0 <= i < |ps| :: ps[i].Envelope?
    ensures |r| == |ps| && forall i | 0 <= i < |ps| :: r[i] == Item(ToPolicy(ps[i].digest), true)
  {
    seq(|ps|, i requires 0 <= i < |ps| => Item(ToPolicy(ps[i].digest), true))
  }

  function ObservationItems(os: seq<Envelope<Observation>>, full: bool): (r: seq<Item>)
    requires forall i | 0 <= i < |os| :: os[i].Envelope?
    ensures |r| == |os| && forall i | 0 <= i < |os| :: r[i] == Item(ToObservation(os[i].digest), full)
  {
    seq(|os|, i requires 0 <= i < |os| => Item(ToObservation(os[i].digest), full))
  }

  function SealedEffects(es: seq<Effect>, signers: seq<Signer>): (r: seq<Envelope<Effect>>)
    requires |es| <= |signers|
    ensures |r| == |es| && forall i | 0 <= i < |r| :: r[i] == Sign(es[i], signers[i])
  {
    seq(|es|, i requires 0 <= i < |es| => Sign(es[i], signers[i]))
  }

  function EffectItems(es: seq<Envelope<Effect>>, full: bool): (r: seq<Item>)
    requires forall i | 0 <= i < |es| :: es[i].Envelope?
    ensures |r| == |es| && forall i | 0 <= i < |es| :: r[i] == Item(ToEffect(es[i].digest), full)
  {
    seq(|es|, i requires 0 <= i < |es| => Item(ToEffect(es[i].digest), full))
  }

  function EvaluationItem(e: Evaluation, full: bool): Item {
    Item(if full then ToEvaluation(e) else ToInput(e.input), full)
  }

  function EvaluationItems(es: seq<Evaluation>, full: bool): (r: seq<Item>)
    ensures |r| == |es| && forall i | 0 <= i < |es| :: r[i] == EvaluationItem(es[i], full)
  {
    seq(|es|, i requires 0 <= i < |es| => EvaluationItem(es[i], full))
  }

  function HeadAt(tenant: Id, audit: seq<Event>, cut: nat): Position
    requires cut <= |audit|
  {
    if cut == 0 then START else (cut, Of(Parsed(SealedBody(tenant, audit[cut - 1]))))
  }

  function RunIds(db: Db): (r: seq<Id>)
    ensures forall i | 0 <= i < |r| :: r[i] in db.observations
    ensures forall run | run in db.observations :: run in r
    ensures forall i, j | 0 <= i < j < |r| :: r[i] != r[j]
  {
    var r := Ascending(db.observations.Keys);
    assert forall i | 0 <= i < |r| :: r[i] in r;
    r
  }

  /** Everything a bundle's inventory lists. */
  function Listed(ps: seq<Envelope<Policy>>, os: seq<Envelope<Observation>>, es: seq<Envelope<Effect>>,
                  vs: seq<Evaluation>, full: bool): seq<Item>
    requires forall i | 0 <= i < |ps| :: ps[i].Envelope?
    requires forall i | 0 <= i < |os| :: os[i].Envelope?
    requires forall i | 0 <= i < |es| :: es[i].Envelope?
  {
    PolicyItems(ps) + ObservationItems(os, full) + EffectItems(es, full) + EvaluationItems(vs, full)
  }

  /** A full export needs every evaluation's input. */
  predicate Exportable(a: Annex, cut: nat, full: bool) {
    cut == 0 || !full || forall i | 0 <= i < |a.evaluations| :: a.evaluations[i].input in a.objects
  }

  function Limitations(cut: nat, full: bool): seq<string> {
    if cut == 0 then ["EMPTY_HISTORY"]
    else if full then [] else ["observations/effects/evaluations omitted; commitments only"]
  }

  /** The bundle of a store at a cut: the events up to it, and every policy, observation, effect and evaluation there
      is. */
  function Exported(db: Db, a: Annex, keys: Signers, cut: nat, full: bool): Bundle
    requires Complete(db, a, keys) && cut <= |db.audit|
  {
    if cut == 0 then
      Bundle(Sign(Manifest(keys.tenant, START, full, [], [], Limitations(0, full)), keys.manifest), [], [], [], [], [])
    else
      var events := SealedEvents(keys.tenant, db.audit[..cut], keys.events);
      var ps := SealedPolicies(db.policies, keys.policies);
      var os := SealedObservations(db.observations, keys.sources, RunIds(db));
      var es := SealedEffects(a.effects, keys.effects);
      Bundle(Sign(Manifest(keys.tenant, HeadAt(keys.tenant, db.audit, cut), full,
                           Listed(ps, os, es, a.evaluations, full),
                           events, Limitations(cut, full)), keys.manifest),
             events, ps, if full then os else [], if full then es else [], if full then a.evaluations else [])
  }

  method Export(db: Db, a: Annex, keys: Signers, cut: nat, full: bool) returns (r: Option<Bundle>)
    requires Complete(db, a, keys) && cut <= |db.audit|
    ensures r == if Exportable(a, cut, full) then Some(Exported(db, a, keys, cut, full)) else None
  {
    var events: seq<Envelope<Body>>, policies: seq<Envelope<Policy>>, inventory: seq<Item> := [], [], [];
    var i := 0;
    while i < cut
      invariant i <= cut && events == SealedEvents(keys.tenant, db.audit[..i], keys.events)
    {
      events := events + [Sign(SealedBody(keys.tenant, db.audit[i]), keys.events[i])];
      i := i + 1;
    }
    if cut == 0 {
      return Some(Bundle(Sign(Manifest(keys.tenant, START, full, [], [], Limitations(0, full)), keys.manifest), [], [],
                         [], [], []));
    }
    i := 0;
    while i < |db.policies|
      invariant i <= |db.policies| && policies == SealedPolicies(db.policies[..i], keys.policies)
      invariant inventory == PolicyItems(policies)
    {
      var e := Sign(db.policies[i], keys.policies[i]);
      policies, inventory := policies + [e], inventory + [Item(ToPolicy(e.digest), true)];
      i := i + 1;
    }
    assert db.policies[..i] == db.policies;
    var observations, items := GatherObservations(db.observations, keys.sources, RunIds(db), full);
    var effects, more := GatherEffects(a.effects, keys.effects, full);
    var rest := GatherEvaluations(a, full);
    if rest.None? { return None; }
    inventory := inventory + items + more + rest.value;
    return Some(Bundle(Sign(Manifest(keys.tenant, HeadAt(keys.tenant, db.audit, cut), full, inventory, events,
                                     Limitations(cut, full)),
                            keys.manifest),
                       events, policies, if full then observations else [], if full then effects else [],
                       if full then a.evaluations else []));
  }

  method GatherEffects(rows: seq<Effect>, signers: seq<Signer>, full: bool)
    returns (effects: seq<Envelope<Effect>>, items: seq<Item>)
    requires |rows| <= |signers|
    ensures effects == SealedEffects(rows, signers) && items == EffectItems(effects, full)
  {
    effects, items := [], [];
    var i := 0;
    while i < |rows|
      invariant i <= |rows| && effects == SealedEffects(rows[..i], signers) && items == EffectItems(effects, full)
    {
      var e := Sign(rows[i], signers[i]);
      effects, items := effects + [e], items + [Item(ToEffect(e.digest), full)];
      i := i + 1;
    }
    assert rows[..i] == rows;
  }

  method GatherEvaluations(a: Annex, full: bool) returns (items: Option<seq<Item>>)
    ensures items == if Exportable(a, 1, full) then Some(EvaluationItems(a.evaluations, full)) else None
  {
    var rows: seq<Item>, i := [], 0;
    while i < |a.evaluations|
      invariant i <= |a.evaluations| && rows == EvaluationItems(a.evaluations[..i], full)
      invariant full ==> forall k | 0 <= k < i :: a.evaluations[k].input in a.objects
    {
      if full && a.evaluations[i].input !in a.objects { return None; }
      rows := rows + [EvaluationItem(a.evaluations[i], full)];
      i := i + 1;
    }
    assert a.evaluations[..i] == a.evaluations;
    return Some(rows);
  }

  method GatherObservations(streams: Streams, sources: map<Id, seq<Signer>>, runs: seq<Id>, full: bool)
    returns (observations: seq<Envelope<Observation>>, items: seq<Item>)
    requires Signable(streams, sources, runs)
    ensures observations == SealedObservations(streams, sources, runs) && items == ObservationItems(observations, full)
  {
    observations, items := [], [];
    var k := 0;
    while k < |runs|
      invariant k <= |runs| && observations == SealedObservations(streams, sources, runs[..k])
      invariant items == ObservationItems(observations, full)
    {
      assert runs[..k + 1][..k] == runs[..k];
      var os, signers, i := streams[runs[k]], sources[runs[k]], 0;
      ghost var before := observations;
      while i < |os|
        invariant i <= |os| && observations == before + SealedRun(os[..i], signers)
        invariant items == ObservationItems(observations, full)
      {
        var e := Sign(os[i], signers[i]);
        observations, items := observations + [e], items + [Item(ToObservation(e.digest), full)];
        i := i + 1;
      }
      assert os[..i] == os;
      k := k + 1;
    }
    assert runs[..k] == runs;
  }

  // ---- the request, and the tool that reads a bundle back ----

  const REPLY_MAX: nat := 8_388_608

  /** No array of the bundle is over the parser's bound; what an entry holds inside was admitted under the same
      bound. */
  predicate ArraysFit(b: Bundle) {
    && |b.events| <= ARRAY_MAX && |b.policies| <= ARRAY_MAX && |b.observations| <= ARRAY_MAX
    && |b.effects| <= ARRAY_MAX && |b.evaluations| <= ARRAY_MAX
    && (b.manifest.Envelope? && b.manifest.body.Parsed? ==>
          |b.manifest.body.value.inventory| <= ARRAY_MAX && |b.manifest.body.value.hashes| <= ARRAY_MAX
          && |b.manifest.body.value.limitations| <= ARRAY_MAX)
  }

  /** The cut a client names: the head by default, or a position whose hash the log has. */
  function CutOf(db: Db, tenant: Id, through: Option<Position>): Option<nat> {
    match through
    case None => Some(|db.audit|)
    case Some((pos, hash)) =>
      if pos <= |db.audit| && HeadAt(tenant, db.audit, pos).1 == hash then Some(pos) else None
  }

  datatype Delivery = Delivered(bundle: Bundle) | Undelivered(code: Code)

  /** `bundle.export`: the cut, the evaluations' inputs, the bytes of the reply, and the reply read back under the
      strict parser's limits. `size` is the length of a bundle's canonical text. */
  function Requested(db: Db, a: Annex, keys: Signers, through: Option<Position>, full: bool,
                     size: Bundle -> nat): Delivery
    requires Complete(db, a, keys)
  {
    var cut := CutOf(db, keys.tenant, through);
    if cut.None? then Undelivered(NotFound)
    else if !Exportable(a, cut.value, full) then Undelivered(ArtifactUnavailable)
    else
      var b := Exported(db, a, keys, cut.value, full);
      if size(b) > REPLY_MAX then Undelivered(BundleLimit)
      else if !ArraysFit(b) then Undelivered(AuditUnavailable)
      else Delivered(b)
  }

  method BundleExport(db: Db, a: Annex, keys: Signers, through: Option<Position>, full: bool, size: Bundle -> nat)
    returns (r: Delivery)
    requires Complete(db, a, keys)
    ensures r == Requested(db, a, keys, through, full, size)
  {
    var cut := CutOf(db, keys.tenant, through);
    if cut.None? { return Undelivered(NotFound); }
    var b := Export(db, a, keys, cut.value, full);
    if b.None? { return Undelivered(ArtifactUnavailable); }
    if size(b.value) > REPLY_MAX { return Undelivered(BundleLimit); }
    return if ArraysFit(b.value) then Delivered(b.value) else Undelivered(AuditUnavailable);
  }

  /** `watchctl verify`: the file is read under the limits of a reply, then judged. */
  function Judged(t: Trust, b: Bundle, size: Bundle -> nat): Option<Verification> {
    if size(b) > REPLY_MAX || !ArraysFit(b) then None else Some(Verified(t, b))
  }
}
