/** The audit state machine and its append-only event log. */
module Lifecycle {
  import opened Common

  datatype AuditState =
    | Created | ContextValidated | Planned | Running | Blocked | Partial | Complete | Attested
    | Unlisted(name: string)  // any other text

  /** The transition table; a state it does not list allows nothing. */
  function Allowed(state: AuditState): set<AuditState> {
    match state
    case Created => {ContextValidated}
    case ContextValidated => {Planned}
    case Planned => {Running}
    case Running => {Blocked, Partial, Complete}
    case Blocked => {Running}
    case Partial => {Running}
    case Complete => {Attested}
    case Attested => {}
    case Unlisted(_) => {}
  }

  /** The characters that `strip` removes: Unicode's spaces and separators. */
  predicate Space(c: char) {
    || '\t' <= c <= '\r' || '\U{1C}' <= c <= ' ' || c == '\U{85}' || c == '\U{A0}' || c == '\U{1680}'
    || '\U{2000}' <= c <= '\U{200A}'
    || c == '\U{2028}' || c == '\U{2029}' || c == '\U{202F}' || c == '\U{205F}' || c == '\U{3000}'
  }

  /** What `not text.strip()` tests. */
  predicate Blank(text: string) {
    forall i :: 0 <= i < |text| ==> Space(text[i])
  }

  datatype Timestamp = Instant(text: string) | Malformed(text: string)

  datatype Payload = Payload(
    auditId: string,
    before: AuditState,
    after: AuditState,
    actor: string,
    reason: string,
    occurredAt: Timestamp,
    evidence: set<string>,
    sequence: nat)

  /** A digest stands for the content it was computed from: equal digests mean equal content. */
  datatype EventId = Hash(payload: Payload) | OtherText(text: string)

  datatype LifecycleEvent = LifecycleEvent(id: EventId, payload: Payload)

  datatype Document = Document(auditId: string, state: AuditState, events: seq<LifecycleEvent>)

  datatype LifecycleError =
    | EmptyAuditId | UnknownState | InvalidTransition | MissingActorOrReason | InvalidTime
    | BrokenSequence | AuditIdMismatch | FromStateMismatch | IdMismatch | DeclaredStateMismatch

  /** Event `i` of a log is the next legal move of the audit, and carries its own content's digest. */
  predicate EventFits(auditId: string, events: seq<LifecycleEvent>, i: nat)
    requires i < |events|
  {
    var p := events[i].payload;
    && p.sequence == i + 1
    && p.auditId == auditId
    && p.before == StateAfter(events[..i])
    && p.after in Allowed(p.before)
    && !Blank(p.actor) && !Blank(p.reason)
    && p.occurredAt.Instant?
    && events[i].id == Hash(p)
  }

  function StateAfter(events: seq<LifecycleEvent>): AuditState {
    if events == [] then Created else events[|events| - 1].payload.after
  }

  /** A log that a lifecycle can have produced. */
  ghost predicate Genuine(auditId: string, events: seq<LifecycleEvent>) {
    !Blank(auditId) && forall i :: 0 <= i < |events| ==> EventFits(auditId, events, i)
  }

  lemma GenuineExtended(auditId: string, events: seq<LifecycleEvent>, e: LifecycleEvent)
    requires Genuine(auditId, events)
    requires EventFits(auditId, events + [e], |events|)
    ensures Genuine(auditId, events + [e])
  {
    forall i | 0 <= i < |events| + 1 ensures EventFits(auditId, events + [e], i) {
      if i < |events| {
        assert EventFits(auditId, events, i);
        assert (events + [e])[..i] == events[..i];
      }
    }
  }

  class AuditLifecycle {
    const auditId: string
    var state: AuditState
    var events: seq<LifecycleEvent>

    ghost predicate Valid()
      reads this
    {
      Genuine(auditId, events) && state == StateAfter(events)
    }

    constructor (auditId: string)
      requires !Blank(auditId)
      ensures this.auditId == auditId && Valid() && events == []
    {
      this.auditId := auditId;
      state := Created;
      events := [];
    }

    /** A refused transition changes nothing; an accepted one appends one event that moves along the table. */
    method Transition(target: AuditState, actor: string, reason: string, occurredAt: Timestamp, evidence: set<string>)
      returns (r: Result<LifecycleEvent, LifecycleError>)
      requires Valid()
      modifies this
      ensures Valid()
      ensures r.Ok? <==> target in Allowed(old(state)) && !Blank(actor) && !Blank(reason) && occurredAt.Instant?
      ensures r.Ok? ==> events == old(events) + [r.value] && state == target
                        && r.value.payload ==
                             Payload(auditId, old(state), target, actor, reason, occurredAt, evidence, |events|)
      ensures r.Err? ==> events == old(events) && state == old(state)
    {
      if target.Unlisted? { return Err(UnknownState); }
      if target !in Allowed(state) { return Err(InvalidTransition); }
      if Blank(actor) || Blank(reason) { return Err(MissingActorOrReason); }
      if occurredAt.Malformed? { return Err(InvalidTime); }
      var payload := Payload(auditId, state, target, actor, reason, occurredAt, evidence, |events| + 1);
      var event := LifecycleEvent(Hash(payload), payload);
      assert (events + [event])[..|events|] == events;
      GenuineExtended(auditId, events, event);
      events := events + [event];
      state := target;
      return Ok(event);
    }

    function ToDocument(): Document
      reads this
    {
      Document(auditId, state, events)
    }
  }

  /** Replays a document event by event; it accepts exactly the documents a lifecycle can write, unchanged. */
  method FromDocument(document: Document) returns (r: Result<AuditLifecycle, LifecycleError>)
    ensures r.Ok? <==> Genuine(document.auditId, document.events) && document.state == StateAfter(document.events)
    ensures r.Ok? ==> fresh(r.value) && r.value.Valid() && r.value.ToDocument() == document
  {
    if Blank(document.auditId) { return Err(EmptyAuditId); }
    var replay := new AuditLifecycle(document.auditId);
    var i := 0;
    while i < |document.events|
      invariant 0 <= i <= |document.events|
      invariant fresh(replay) && replay.Valid() && replay.auditId == document.auditId
      invariant replay.events == document.events[..i]
    {
      var e := document.events[i];
      var p := e.payload;
      assert EventFits(document.auditId, document.events, i) <==>
               p.sequence == i + 1 && p.auditId == document.auditId && p.before == replay.state
                 && p.after in Allowed(p.before)
               && !Blank(p.actor) && !Blank(p.reason) && p.occurredAt.Instant? && e.id == Hash(p);
      if p.sequence != i + 1 { return Err(BrokenSequence); }
      if p.auditId != document.auditId { return Err(AuditIdMismatch); }
      if p.before != replay.state { return Err(FromStateMismatch); }
      if p.after !in Allowed(replay.state) { return Err(InvalidTransition); }
      if Blank(p.actor) || Blank(p.reason) { return Err(MissingActorOrReason); }
      if p.occurredAt.Malformed? { return Err(InvalidTime); }
      if e.id != Hash(p) { return Err(IdMismatch); }
      assert replay.events + [e] == document.events[..i + 1];
      assert (replay.events + [e])[..i] == replay.events;
      GenuineExtended(document.auditId, replay.events, e);
      replay.events := replay.events + [e];
      replay.state := p.after;
      i := i + 1;
    }
    assert document.events[..|document.events|] == document.events;
    if document.state != replay.state { return Err(DeclaredStateMismatch); }
    return Ok(replay);
  }

  /** Attestation ends an audit and follows completion: nothing comes after it, and `complete` comes right before it. */
  lemma AttestedIsFinal(auditId: string, events: seq<LifecycleEvent>, i: nat)
    requires Genuine(auditId, events) && i < |events|
    ensures i + 1 < |events| ==> events[i].payload.after != Attested
    ensures events[i].payload.after == Attested ==> i > 0 && events[i - 1].payload.after == Complete
  {
    assert EventFits(auditId, events, i);
    if i > 0 {
      assert events[..i][|events[..i]| - 1] == events[i - 1];
    }
    if i + 1 < |events| {
      assert EventFits(auditId, events, i + 1);
      assert events[..i + 1][|events[..i + 1]| - 1] == events[i];
    }
  }
}
