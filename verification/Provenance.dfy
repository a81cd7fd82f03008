/** The provenance registry: content-addressed records, their lineage, and a hash-chained journal of additions. */
module Provenance {
  import opened Common
  import L = Lifecycle

  // ----- identities: a content id is the identity it was computed from -----

  datatype Id =
    | SourceId(source: SourceIdentity)
    | ReceiptId(receipt: ReceiptIdentity)
    | ClaimId(claim: ClaimIdentity)
    | Text(text: string)  // an id that is the digest of nothing

  datatype SourceIdentity = SourceIdentity(sourceType: string, locator: string, digest: string)

  datatype ReceiptIdentity = ReceiptIdentity(
    sources: set<Id>, validator: string, technique: string, verdict: string, inputDigest: string)

  datatype ClaimIdentity = ClaimIdentity(
    words: seq<string>, status: string, evidence: string,
    sources: set<Id>, receipts: set<Id>, lineage: set<Id>, gates: set<string>)

  // ----- records; `captured` is when a record was captured or validated, `rest` every field that is never read -----

  datatype DigestField = NotAnObject | DigestField(algorithm: string, value: string)

  datatype Source = Source(
    id: Id, sourceType: string, locator: string, digest: DigestField,
    trustZone: string, taintState: string, captured: Option<Stamp>, rest: string)

  datatype Receipt = Receipt(
    id: Id, sources: seq<Id>, validator: string, technique: string, verdict: string, inputDigest: string,
      captured: Option<Stamp>, rest: string)

  datatype Claim = Claim(
    id: Id, words: seq<string>, status: string, confidence: Option<real>, evidence: string,
    sources: seq<Id>, receipts: seq<Id>, lineage: seq<Id>, gateTrace: Option<seq<string>>,
    supersedes: Option<Id>, captured: Option<Stamp>, rest: string)

  datatype Record = OfSource(source: Source) | OfReceipt(receipt: Receipt) | OfClaim(claim: Claim)

  // ----- journal -----

  type Stamp = L.Timestamp

  datatype Digest = NoDigest | Hashed(id: EventId, body: Body)

  datatype EventId = EventId(body: Body) | OtherEventId(text: string)

  datatype Body = Body(kind: string, record: Id, action: string, actor: string, at: Stamp, previous: Digest)

  datatype Event = Event(id: EventId, body: Body, hash: Digest)

  const SOURCE := "source"
  const RECEIPT := "validation_receipt"
  const CLAIM := "claim"

  datatype State = State(
    sources: map<Id, Source>, receipts: map<Id, Receipt>, claims: map<Id, Claim>, journal: seq<Event>)

  const EMPTY := State(map[], map[], map[], [])

  datatype Problem =
    | TaintLost | DigestNotObject | DigestAlgorithm | DigestInvalid | EmptyLocator
    | ReceiptWithoutSource | ReceiptWithoutMethod | ReceiptResult | ReceiptDigest
    | BadGateTrace | UnknownWithConfidence | ConfidenceRange | VerifiedWithoutSource | EmptyText
    | UnknownSource | UnknownReceipt | UnknownClaim | UnknownLineage | SelfLineage | LineageCycle
    | IdMismatch | Mutation | BlankActor | JournalInvalid | RootMismatch

  // ----- the checks of one record -----

  predicate HexChar(c: char) { '0' <= c <= '9' || 'a' <= c <= 'f' || 'A' <= c <= 'F' }

  predicate HexDigest(text: string) { |text| == 64 && forall i :: 0 <= i < |text| ==> HexChar(text[i]) }

  function LowerChar(c: char): char {
    if 'A' <= c <= 'Z' then (c as int + 32) as char else c
  }

  function LowerCase(text: string): string { seq(|text|, i requires 0 <= i < |text| => LowerChar(text[i])) }

  predicate GateName(text: string) {
    |text| >= 4 && text[..3] == "HG-" && forall i :: 3 <= i < |text| ==> 'A' <= text[i] <= 'Z' || '0' <= text[i] <= '9'
  }

  function SourceIdOf(r: Source): Id {
    SourceId(SourceIdentity(r.sourceType, r.locator, if r.digest.DigestField? then LowerCase(r.digest.value) else ""))
  }

  function ReceiptIdOf(r: Receipt): Id {
    ReceiptId(ReceiptIdentity(Members(r.sources), r.validator, r.technique, r.verdict, r.inputDigest))
  }

  function ClaimIdOf(r: Claim): Id {
    ClaimId(ClaimIdentity(r.words, r.status, r.evidence, Members(r.sources), Members(r.receipts), Members(r.lineage),
                          if r.gateTrace.Some? then Members(r.gateTrace.value) else {}))
  }

  function SourceProblem(r: Source): Option<Problem> {
    if r.trustZone in {"artifact_content", "model_output", "external_data"} && r.taintState != "tainted"
    then Some(TaintLost)
    else if r.digest.NotAnObject? then Some(DigestNotObject)
    else if r.digest.algorithm != "sha256" then Some(DigestAlgorithm)
    else if !HexDigest(r.digest.value) then Some(DigestInvalid)
    else if L.Blank(r.locator) then Some(EmptyLocator)
    else None
  }

  function ReceiptProblem(s: State, r: Receipt): Option<Problem> {
    if r.sources == [] then Some(ReceiptWithoutSource)
    else if L.Blank(r.validator) || L.Blank(r.technique) then Some(ReceiptWithoutMethod)
    else if r.verdict !in {"validated", "rejected"} then Some(ReceiptResult)
    else if r.inputDigest != "" && !HexDigest(r.inputDigest) then Some(ReceiptDigest)
    else if !(Members(r.sources) <= s.sources.Keys) then Some(UnknownSource)
    else None
  }

  predicate GateTraceOk(trace: Option<seq<string>>) {
    trace.Some? ==> Unique(trace.value) && trace.value != [] && forall g :: g in trace.value ==> GateName(g)
  }

  /** The checks before the lineage, in the order they are made. */
  function ClaimProblem(s: State, r: Claim): Option<Problem> {
    if !GateTraceOk(r.gateTrace) then Some(BadGateTrace)
    else if r.status == "unknown" && r.confidence.Some? then Some(UnknownWithConfidence)
    else if r.confidence.Some? && !(0.0 <= r.confidence.value <= 1.0) then Some(ConfidenceRange)
    else if r.status == "verified" && r.sources == [] then Some(VerifiedWithoutSource)
    else if !(Members(r.sources) <= s.sources.Keys) then Some(UnknownSource)
    else if r.supersedes.Some? && r.supersedes.value !in s.claims then Some(UnknownClaim)
    else if !(Members(r.receipts) <= s.receipts.Keys) then Some(UnknownReceipt)
    else if r.words == [] then Some(EmptyText)
    else LineageProblem(s, ClaimIdOf(r), Members(r.lineage))
  }

  function Known(s: State): set<Id> { s.sources.Keys + s.receipts.Keys + s.claims.Keys }

  /** What the lineage check reports; that the search for a cycle adds nothing is proved of the method below. */
  function LineageProblem(s: State, id: Id, lineage: set<Id>): Option<Problem> {
    if !(lineage <= Known(s)) then Some(UnknownLineage)
    else if id in lineage then Some(SelfLineage)
    else None
  }

  // ----- adding a record -----

  function IdOf(r: Record): Id {
    match r
    case OfSource(x) => SourceIdOf(x)
    case OfReceipt(x) => ReceiptIdOf(x)
    case OfClaim(x) => ClaimIdOf(x)
  }

  function Supplied(r: Record): Id {
    match r case OfSource(x) => x.id case OfReceipt(x) => x.id case OfClaim(x) => x.id
  }

  function KindOf(r: Record): string {
    match r case OfSource(_) => SOURCE case OfReceipt(_) => RECEIPT case OfClaim(_) => CLAIM
  }

  function Refusal(s: State, r: Record): Option<Problem> {
    match r
    case OfSource(x) => SourceProblem(x)
    case OfReceipt(x) => ReceiptProblem(s, x)
    case OfClaim(x) => ClaimProblem(s, x)
  }

  /** The record held under the id of `r`, among the records of its kind. */
  function Held(s: State, r: Record): Option<Record> {
    var id := IdOf(r);
    match r
    case OfSource(_) => if id in s.sources then Some(OfSource(s.sources[id])) else None
    case OfReceipt(_) => if id in s.receipts then Some(OfReceipt(s.receipts[id])) else None
    case OfClaim(_) => if id in s.claims then Some(OfClaim(s.claims[id])) else None
  }

  function Filed(s: State, r: Record): State {
    match r
    case OfSource(x) => s.(sources := s.sources[SourceIdOf(x) := x])
    case OfReceipt(x) => s.(receipts := s.receipts[ReceiptIdOf(x) := x])
    case OfClaim(x) => s.(claims := s.claims[ClaimIdOf(x) := x])
  }

  function Head(journal: seq<Event>): Digest {
    if journal == [] then NoDigest else journal[|journal| - 1].hash
  }

  function Sealed(body: Body): Event { Event(EventId(body), body, Hashed(EventId(body), body)) }

  function MakeEvent(kind: string, id: Id, actor: string, at: Stamp, previous: Digest): Event {
    Sealed(Body(kind, id, "add", actor, at, previous))
  }

  /** Why a record is turned away before anything is stored. */
  function Objection(s: State, r: Record): Option<Problem> {
    var refusal := Refusal(s, r);
    if refusal.Some? then refusal
    else if Supplied(r) != IdOf(r) then Some(IdMismatch)
    else if Held(s, r).Some? && Held(s, r).value != r then Some(Mutation)
    else None
  }

  /**
   * One addition: a new record is filed first and entered in the journal afterwards, so a blank actor leaves it
   * unentered.
   */
  function Add(s: State, r: Record, actor: string, at: Stamp, loading: bool): (State, Result<Record, Problem>) {
    var objection := Objection(s, r);
    if objection.Some? then (s, Err(objection.value))
    else if Held(s, r).Some? || loading then (Filed(s, r), Ok(r))
    else if L.Blank(actor) then (Filed(s, r), Err(BlankActor))
    else (Entered(Filed(s, r), r, actor, at), Ok(r))
  }

  function Entered(s: State, r: Record, actor: string, at: Stamp): State {
    s.(journal := s.journal + [MakeEvent(KindOf(r), IdOf(r), actor, at, Head(s.journal))])
  }

  // ----- what a registry keeps -----

  /** Every record stands under the id of its own content. */
  ghost predicate Addressed(s: State) {
    && (forall id :: id in s.sources ==> id == s.sources[id].id == SourceIdOf(s.sources[id]))
    && (forall id :: id in s.receipts ==> id == s.receipts[id].id == ReceiptIdOf(s.receipts[id]))
    && (forall id :: id in s.claims ==> id == s.claims[id].id == ClaimIdOf(s.claims[id]))
  }

  /** Every record would still pass the checks it passed when it was added. */
  ghost predicate Admitted(s: State) {
    && (forall id :: id in s.sources ==> SourceProblem(s.sources[id]).None?)
    && (forall id :: id in s.receipts ==> ReceiptProblem(s, s.receipts[id]).None?)
    && (forall id :: id in s.claims ==> ClaimProblem(s, s.claims[id]).None?)
  }

  /** The claims another claim descends from. */
  function Parents(lineage: set<Id>): set<Id> { set p | p in lineage && p.ClaimId? }

  /** An order of all claims in which parents, and the claim superseded, come first: so the lineage has no cycle. */
  ghost predicate Ordered(s: State, order: seq<Id>) {
    && Unique(order) && Members(order) == s.claims.Keys
    && forall i :: 0 <= i < |order| ==> order[i] in s.claims && Rests(s.claims[order[i]], order[..i])
  }

  ghost predicate Rests(c: Claim, earlier: seq<Id>) {
    && (forall p :: p in Parents(Members(c.lineage)) ==> p in earlier)
    && (c.supersedes.Some? ==> c.supersedes.value in earlier)
  }

  ghost predicate Intact(s: State, order: seq<Id>) { Addressed(s) && Admitted(s) && Ordered(s, order) }

  // ----- journal validation -----

  function RecordsOf(s: State, kind: string): set<Id> {
    if kind == SOURCE then s.sources.Keys
    else if kind == CLAIM then s.claims.Keys
    else if kind == RECEIPT then s.receipts.Keys
    else {}
  }

  predicate Fits(s: State, e: Event, previous: Digest) {
    && e.body.action == "add" && !L.Blank(e.body.actor) && e.body.at.Instant?
    && e.body.previous == previous && e == Sealed(e.body)
    && e.body.record in RecordsOf(s, e.body.kind)
  }

  function Subjects(journal: seq<Event>): set<Id> { set e | e in journal :: e.body.record }

  ghost predicate AllFit(s: State, journal: seq<Event>) {
    forall i :: 0 <= i < |journal| ==> Fits(s, journal[i], Head(journal[..i]))
  }

  ghost predicate EnteredOnce(journal: seq<Event>) {
    forall i, j :: 0 <= i < j < |journal| ==> journal[i].body.record != journal[j].body.record
  }

  ghost predicate Consistent(s: State, journal: seq<Event>) { AllFit(s, journal) && EnteredOnce(journal) }

  /** A chain of well-formed events, exactly one for every record. */
  ghost predicate JournalValid(s: State) { Consistent(s, s.journal) && Subjects(s.journal) == Known(s) }

  lemma ConsistentPrefix(s: State, journal: seq<Event>, n: nat)
    requires Consistent(s, journal) && n <= |journal|
    ensures Consistent(s, journal[..n])
  {
    hide Fits;
    forall i | 0 <= i < n ensures Fits(s, journal[..n][i], Head(journal[..n][..i])) {
      assert journal[..n][..i] == journal[..i];
    }
  }

  lemma ConsistentMore(s: State, journal: seq<Event>, e: Event)
    ensures Consistent(s, journal + [e]) <==>
      Consistent(s, journal) && Fits(s, e, Head(journal)) && e.body.record !in Subjects(journal)
  {
    hide Fits;
    var more := journal + [e];
    forall i | 0 <= i < |journal| ensures more[i] == journal[i] && more[..i] == journal[..i] {}
    assert more[|journal|] == e && more[..|journal|] == journal;
    assert forall x :: x in Subjects(journal) <==> exists i :: 0 <= i < |journal| && journal[i].body.record == x;
    if Consistent(s, more) {
      ConsistentPrefix(s, more, |journal|);
    }
  }

  // ----- additions keep a registry intact -----

  /** The order of the claims once `r` has been offered. */
  ghost function NextOrder(s: State, order: seq<Id>, r: Record): seq<Id> {
    if r.OfClaim? && Objection(s, r).None? && IdOf(r) !in s.claims then order + [IdOf(r)] else order
  }

  /** Filing changes at most the maps; the journal has no part in being intact. */
  lemma IntactAdd(s: State, order: seq<Id>, r: Record, actor: string, at: Stamp, loading: bool)
    requires Intact(s, order)
    ensures Intact(Add(s, r, actor, at, loading).0, NextOrder(s, order, r))
  {
    hide Intact, Objection;
    if Objection(s, r).None? { IntactFiled(s, order, r); }
    IntactIgnoresJournal(s, Add(s, r, actor, at, loading).0, order);
    IntactIgnoresJournal(Filed(s, r), Add(s, r, actor, at, loading).0, NextOrder(s, order, r));
  }

  lemma IntactIgnoresJournal(s: State, t: State, order: seq<Id>)
    ensures t.sources == s.sources && t.receipts == s.receipts && t.claims == s.claims && Intact(s, order) ==>
      Intact(t, order)
  {
    hide SourceIdOf, ReceiptIdOf, ClaimIdOf, SourceProblem, ReceiptProblem, ClaimProblem, Rests;
    if t.sources == s.sources && t.receipts == s.receipts && t.claims == s.claims && Intact(s, order) {
      forall id | id in t.receipts ensures ReceiptProblem(t, t.receipts[id]).None? {
        ReceiptStays(s, t, t.receipts[id]);
      }
      forall id | id in t.claims ensures ClaimProblem(t, t.claims[id]).None? {
        ClaimStays(s, t, t.claims[id]);
      }
    }
  }

  lemma IntactFiled(s: State, order: seq<Id>, r: Record)
    requires Intact(s, order) && Objection(s, r).None?
    ensures Intact(Filed(s, r), NextOrder(s, order, r))
  {
    hide Addressed, Admitted, Ordered, Refusal;
    AddressedFiled(s, r);
    AdmittedFiled(s, r);
    if r.OfClaim? { OrderedFiled(s, order, r.claim); } else { OrderedFrame(s, Filed(s, r), order); }
  }

  lemma AddressedFiled(s: State, r: Record)
    requires Addressed(s) && Supplied(r) == IdOf(r)
    ensures Addressed(Filed(s, r))
  {
    hide SourceIdOf, ReceiptIdOf, ClaimIdOf;
  }

  lemma AdmittedFiled(s: State, r: Record)
    requires Admitted(s) && Refusal(s, r).None?
    ensures Admitted(Filed(s, r))
  {
    hide SourceIdOf, ReceiptIdOf, ClaimIdOf, SourceProblem, ReceiptProblem, ClaimProblem;
    var t := Filed(s, r);
    assert t.receipts.Keys >= s.receipts.Keys && t.sources.Keys >= s.sources.Keys && t.claims.Keys >= s.claims.Keys;
    forall id | id in t.receipts ensures ReceiptProblem(t, t.receipts[id]).None? {
      ReceiptStays(s, t, t.receipts[id]);
    }
    forall id | id in t.claims ensures ClaimProblem(t, t.claims[id]).None? {
      ClaimStays(s, t, t.claims[id]);
    }
  }

  lemma ReceiptStays(s: State, t: State, r: Receipt)
    requires ReceiptProblem(s, r).None? && s.sources.Keys <= t.sources.Keys
    ensures ReceiptProblem(t, r).None?
  {
    hide HexDigest;
  }

  lemma ClaimStays(s: State, t: State, c: Claim)
    requires ClaimProblem(s, c).None?
    requires s.sources.Keys <= t.sources.Keys && s.receipts.Keys <= t.receipts.Keys && s.claims.Keys <= t.claims.Keys
    ensures ClaimProblem(t, c).None?
  {
    hide GateTraceOk, ClaimIdOf;
  }

  /** What any record on file has passed. */
  lemma AdmittedMeans(s: State)
    requires Admitted(s)
    ensures forall id :: id in s.sources ==>
              var r := s.sources[id];
              && (r.trustZone in {"artifact_content", "model_output", "external_data"} ==> r.taintState == "tainted")
              && r.digest.DigestField? && r.digest.algorithm == "sha256" && HexDigest(r.digest.value)
              && !L.Blank(r.locator)
    ensures forall id :: id in s.receipts ==>
              var r := s.receipts[id];
              r.sources != [] && !L.Blank(r.validator) && !L.Blank(r.technique)
                && r.verdict in {"validated", "rejected"}
    ensures forall id :: id in s.claims ==>
              var c := s.claims[id];
              && c.words != [] && GateTraceOk(c.gateTrace)
              && (c.status == "unknown" ==> c.confidence == None) && (c.status == "verified" ==> c.sources != [])
              && (c.confidence.Some? ==> 0.0 <= c.confidence.value <= 1.0)
  {
    hide GateTraceOk, ClaimIdOf, HexDigest, Members;
    forall id | id in s.claims
      ensures var c := s.claims[id];
              && c.words != [] && GateTraceOk(c.gateTrace)
              && (c.status == "unknown" ==> c.confidence == None) && (c.status == "verified" ==> c.sources != [])
              && (c.confidence.Some? ==> 0.0 <= c.confidence.value <= 1.0)
    {
      assert ClaimProblem(s, s.claims[id]).None?;
    }
  }

  /** Every reference of every record names a record of the right kind. */
  ghost predicate Resolved(s: State) {
    && (forall id :: id in s.receipts ==> Members(s.receipts[id].sources) <= s.sources.Keys)
    && (forall id :: id in s.claims ==> ClaimResolved(s, s.claims[id]))
  }

  ghost predicate ClaimResolved(s: State, c: Claim) {
    && Members(c.sources) <= s.sources.Keys && Members(c.receipts) <= s.receipts.Keys && Members(c.lineage) <= Known(s)
    && (c.supersedes.Some? ==> c.supersedes.value in s.claims)
  }

  lemma AdmittedResolved(s: State)
    requires Admitted(s)
    ensures Resolved(s)
  {
    hide GateTraceOk, ClaimIdOf, HexDigest, Members;
    forall id | id in s.claims ensures ClaimResolved(s, s.claims[id]) {
      assert ClaimProblem(s, s.claims[id]).None?;
    }
  }

  lemma OrderedFrame(s: State, t: State, order: seq<Id>)
    requires Ordered(s, order) && t.claims == s.claims
    ensures Ordered(t, order)
  {
  }

  lemma OrderedFiled(s: State, order: seq<Id>, c: Claim)
    requires Addressed(s) && Ordered(s, order) && Objection(s, OfClaim(c)).None?
    ensures Ordered(Filed(s, OfClaim(c)), NextOrder(s, order, OfClaim(c)))
  {
    hide ClaimIdOf, Refusal, Rests, Members, Addressed;
    var id := ClaimIdOf(c);
    var t, more := Filed(s, OfClaim(c)), order + [id];
    if id in s.claims {
      assert t.claims == s.claims;
    } else {
      KeysListed(s, order, id);
      NewClaimRests(s, order, c);
      forall i | 0 <= i < |more| ensures more[i] in t.claims && Rests(t.claims[more[i]], more[..i]) {
        assert i < |order| ==> more[..i] == order[..i] && more[i] == order[i];
        assert i == |order| ==> more[..i] == order;
      }
    }
  }

  lemma KeysListed(s: State, order: seq<Id>, id: Id)
    requires Ordered(s, order) && id !in s.claims
    ensures Members(order + [id]) == s.claims.Keys + {id} && id !in order && forall x :: x in order ==> x in s.claims
  {
    forall x | x in order ensures x in s.claims { assert x in Members(order); }
  }

  lemma KnownClaims(s: State, p: Id)
    requires Addressed(s) && p in Known(s) && p.ClaimId?
    ensures p in s.claims
  {
  }

  lemma KnownParents(s: State, order: seq<Id>, c: Claim)
    requires Addressed(s) && Ordered(s, order) && Members(c.lineage) <= Known(s)
    ensures forall p :: p in Parents(Members(c.lineage)) ==> p in order
  {
    hide Addressed;
    forall p | p in Parents(Members(c.lineage)) ensures p in order {
      assert p in Known(s);
      KnownClaims(s, p);
      assert p in Members(order);
    }
  }

  lemma NewClaimRests(s: State, order: seq<Id>, c: Claim)
    requires Addressed(s) && Ordered(s, order) && Refusal(s, OfClaim(c)).None?
    ensures Rests(c, order)
  {
    hide GateTraceOk, ClaimIdOf, Addressed;
    KnownParents(s, order, c);
    if c.supersedes.Some? { assert c.supersedes.value in Members(order); }
  }
}
