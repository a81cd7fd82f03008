/** The session store: immutable objects in files, and a database of sessions, journals and an object index. */
module SessionStore {
  import opened Common
  import L = Lifecycle

  type AuditState = L.AuditState

  // ----- content and digests -----

  /** A digest is the content it was computed from; `Zero` is the hash before the first event. */
  datatype Digest =
    | Zero
    | OfCore(core: Core)
    | OfEvent(id: Digest, core: Core)
    | OfDescriptor(descriptor: Descriptor)
    | OfDocument(document: Document)

  datatype Descriptor = Descriptor(contextDigest: string, bundleRoot: string, sessionRoot: string)

  datatype EventData =
    | PlanData(planId: string, planDigest: string, revision: int)
    | Reason(reason: string)
    | SessionData(descriptor: Descriptor)
    | Fields(text: string)  // any other object

  /** An event without its id and its hash. */
  datatype Core = Core(
    session: Digest,
    sequence: nat,
    kind: string,
    actor: string,
    occurredAt: string,
    key: string,
    before: AuditState,
    after: AuditState,
    data: EventData,
    previous: Digest)

  datatype Event = Event(core: Core, id: Digest, hash: Digest)

  datatype Row = Row(
    descriptor: Descriptor,
    state: AuditState,
    planId: Option<string>,
    planDigest: Option<string>,
    planRevision: int,
    sequence: nat,
    lastHash: Digest,
    createdAt: string,
    snapshotId: Option<Digest>)

  datatype Snapshot = Snapshot(
    session: Digest,
    descriptor: Descriptor,
    state: AuditState,
    planId: Option<string>,
    planDigest: Option<string>,
    planRevision: int,
    sequence: nat,
    lastHash: Digest,
    createdAt: string)

  datatype Payload = SessionPayload(snapshot: Snapshot) | OtherPayload(text: string)

  datatype Document = Document(objectType: string, payload: Payload)

  datatype ObjectRow = ObjectRow(content: Document, objectType: string)

  datatype Plan = Plan(planId: string, planDigest: string, sessionRoot: string, revision: int)

  datatype StoreError =
    | UnknownSession | InvalidEvent | InvalidTransition | KeyReused | ConstraintViolated
    | CasCollision | CasIndexMismatch | UnknownObject | MissingFile | IntegrityFailed
    | SessionRootMismatch | NegativeRevision | RevisionBackwards | SameRevisionOtherPlan | AttachmentMismatch
    | ReplayRejected | SnapshotMismatch | ResumeRootMismatch | ResumePlanMismatch | InvalidObjectType

  /** The files on disk and the tables of the database. */
  datatype Db = Db(
    files: map<Digest, Document>,
    objects: map<Digest, ObjectRow>,
    sessions: map<Digest, Row>,
    journal: map<Digest, seq<Event>>)

  const EMPTY := Db(map[], map[], map[], map[])

  datatype Tx<T> = Tx(db: Db, result: Result<T, StoreError>)

  predicate Lower(c: char) { 'a' <= c <= 'z' }

  predicate NameChar(c: char) {
    Lower(c) || '0' <= c <= '9' || c == '_' || c == '.' || c == '-'
  }

  predicate TypeName(text: string, shortest: nat) {
    0 < shortest <= |text| <= 64 && Lower(text[0]) && forall i :: 0 <= i < |text| ==> NameChar(text[i])
  }

  function BuildEvent(core: Core): Result<Event, StoreError> {
    if !TypeName(core.kind, 3) || L.Blank(core.actor) || L.Blank(core.key) then Err(InvalidEvent)
    else Ok(Sealed(core))
  }

  function Sealed(core: Core): Event {
    Event(core, OfCore(core), OfEvent(OfCore(core), core))
  }

  predicate Move(before: AuditState, after: AuditState) {
    after == before || after in L.Allowed(before)
  }

  function SnapshotOf(id: Digest, row: Row): Snapshot {
    Snapshot(id, row.descriptor, row.state, row.planId, row.planDigest, row.planRevision, row.sequence, row.lastHash,
             row.createdAt)
  }

  function SessionDocument(id: Digest, row: Row): Document {
    Document("audit_session", SessionPayload(SnapshotOf(id, row)))
  }

  // ----- single statements of a transaction -----

  function Journal(db: Db, id: Digest): seq<Event> {
    if id in db.journal then db.journal[id] else []
  }

  /** The event recorded under an idempotency key. */
  function EventWithKey(events: seq<Event>, key: string): (r: Option<Event>)
    ensures r.Some? ==> r.value in events && r.value.core.key == key
    ensures r.None? ==> forall e :: e in events ==> e.core.key != key
  {
    if events == [] then None
    else if events[0].core.key == key then Some(events[0])
    else EventWithKey(events[1..], key)
  }

  /** The table refuses a repeated event id, sequence number or idempotency key. */
  predicate Insertable(db: Db, event: Event) {
    && (forall id | id in db.journal :: forall e | e in db.journal[id] :: e.id != event.id)
    && (forall e | e in Journal(db, event.core.session) ::
        e.core.sequence != event.core.sequence && e.core.key != event.core.key)
  }

  function InsertEvent(db: Db, event: Event): Tx<()> {
    if Insertable(db, event) then
      Tx(db.(journal := db.journal[event.core.session := Journal(db, event.core.session) + [event]]), Ok(()))
    else Tx(db, Err(ConstraintViolated))
  }

  /** Writes the object's file if it is not there, then its index row if it is not there, then compares the row. */
  function PutObject(db: Db, document: Document): Tx<Digest> {
    var id := OfDocument(document);
    if id in db.files && db.files[id] != document then Tx(db, Err(CasCollision))
    else
      var row := ObjectRow(document, document.objectType);
      var written := db.(files := db.files[id := document]);
      var indexed := written.(objects := if id in db.objects then db.objects else db.objects[id := row]);
      if indexed.objects[id] == row then Tx(indexed, Ok(id)) else Tx(indexed, Err(CasIndexMismatch))
  }

  /** A rolled-back transaction leaves the tables as they were; a file that was written stays. */
  function RolledBack<T>(before: Db, after: Db, error: StoreError): Tx<T> {
    Tx(before.(files := after.files), Err(error))
  }

  /** Stores the row's snapshot as an object, then the row with the snapshot's id. */
  function SaveRow(db: Db, id: Digest, row: Row): Tx<()> {
    var put := PutObject(db, SessionDocument(id, row));
    match put.result
    case Err(error) => Tx(put.db, Err(error))
    case Ok(snapshotId) =>
      Tx(put.db.(sessions := put.db.sessions[id := row.(snapshotId := Some(snapshotId))]), Ok(()))
  }

  /** Inserts the event and saves the row, or rolls both back. */
  function Commit(db: Db, event: Event, row: Row): Tx<Event> {
    var inserted := InsertEvent(db, event);
    if inserted.result.Err? then RolledBack(db, inserted.db, inserted.result.error)
    else
      var saved := SaveRow(inserted.db, event.core.session, row);
      if saved.result.Err? then RolledBack(db, saved.db, saved.result.error)
      else Tx(saved.db, Ok(event))
  }

  // ----- the operations, each one transaction -----

  function CreateSession(db: Db, descriptor: Descriptor, createdAt: string): Tx<Digest> {
    var id := OfDescriptor(descriptor);
    var event := Sealed(Core(id, 1, "session_created", "session_store", createdAt, "session-created",
                             L.Created, L.Created, SessionData(descriptor), Zero));
    if id in db.sessions then
      if Replays(id, db.sessions[id], Journal(db, id)) then Tx(db, Ok(id)) else Tx(db, Err(ReplayRejected))
    else
      var row := Row(descriptor, L.Created, None, None, -1, 1, event.hash, createdAt, None);
      var saved := SaveRow(db, id, row);
      if saved.result.Err? then RolledBack(db, saved.db, saved.result.error)
      else
        var inserted := InsertEvent(saved.db, event);
        if inserted.result.Err? then RolledBack(db, inserted.db, inserted.result.error)
        else Tx(inserted.db, Ok(id))
  }

  function AppendEvent(db: Db, id: Digest, kind: string, actor: string, data: EventData, key: string,
                       to: Option<AuditState>, occurredAt: string): Tx<Event> {
    if id !in db.sessions then Tx(db, Err(UnknownSession))
    else
      var row := db.sessions[id];
      match EventWithKey(Journal(db, id), key)
      case Some(existing) =>
        (match BuildEvent(existing.core.(session := id, kind := kind, actor := actor, key := key, data := data))
         case Err(error) => Tx(db, Err(error))
         case Ok(requested) =>
           if requested.id != existing.id || requested.hash != existing.hash then Tx(db, Err(KeyReused))
           else Tx(db, Ok(existing)))
      case None =>
        var target := if to.Some? then to.value else row.state;
        if !Move(row.state, target) then Tx(db, Err(InvalidTransition))
        else
          match BuildEvent(Core(id, row.sequence + 1, kind, actor, occurredAt, key, row.state, target, data,
                                row.lastHash))
          case Err(error) => Tx(db, Err(error))
          case Ok(event) =>
            Commit(db, event, row.(state := target, sequence := row.sequence + 1, lastHash := event.hash))
  }

  function Transition(db: Db, id: Digest, target: AuditState, actor: string, reason: string, key: string,
                      occurredAt: string): Tx<Event> {
    AppendEvent(db, id, "state_transition", actor, Reason(reason), key, Some(target), occurredAt)
  }

  function PlanKey(plan: Plan): string { "plan:" + plan.planId }

  function PlanDataOf(plan: Plan): EventData { PlanData(plan.planId, plan.planDigest, plan.revision) }

  /** The row after a plan is attached through an event. */
  function Attached(row: Row, plan: Plan, event: Event): Row {
    row.(planId := Some(plan.planId), planDigest := Some(plan.planDigest), planRevision := plan.revision,
         sequence := event.core.sequence, lastHash := event.hash)
  }

  function AttachPlan(db: Db, id: Digest, plan: Plan, actor: string, occurredAt: string): Tx<Event> {
    if id !in db.sessions then Tx(db, Err(UnknownSession))
    else
      var row := db.sessions[id];
      if plan.sessionRoot != row.descriptor.sessionRoot then Tx(db, Err(SessionRootMismatch))
      else if plan.revision < 0 then Tx(db, Err(NegativeRevision))
      else if row.planRevision >= 0 && plan.revision < row.planRevision then Tx(db, Err(RevisionBackwards))
      else if row.planRevision >= 0 && plan.revision == row.planRevision && Some(plan.planId) != row.planId then
        Tx(db, Err(SameRevisionOtherPlan))
      else
        match EventWithKey(Journal(db, id), PlanKey(plan))
        case Some(existing) =>
          if existing.core.kind != "plan_attached" || existing.core.data != PlanDataOf(plan)
          then Tx(db, Err(AttachmentMismatch))
          else
            var saved := SaveRow(db, id, Attached(row, plan, existing));
            if saved.result.Err? then RolledBack(db, saved.db, saved.result.error) else Tx(saved.db, Ok(existing))
        case None =>
          match BuildEvent(Core(id, row.sequence + 1, "plan_attached", actor, occurredAt, PlanKey(plan),
                                row.state, row.state, PlanDataOf(plan), row.lastHash))
          case Err(error) => Tx(db, Err(error))
          case Ok(event) => Commit(db, event, Attached(row, plan, event))
  }

  function Put(db: Db, document: Document): Tx<Digest> {
    if !TypeName(document.objectType, 2) then Tx(db, Err(InvalidObjectType))
    else PutObject(db, document)
  }

  // ----- replay -----

  function StateAfter(events: seq<Event>): AuditState {
    if events == [] then L.Created else events[|events| - 1].core.after
  }

  function HashAfter(events: seq<Event>): Digest {
    if events == [] then Zero else events[|events| - 1].hash
  }

  /** Event `i` of a journal is numbered, linked to the event before it, sealed, and a legal move. */
  predicate Linked(id: Digest, events: seq<Event>, i: nat)
    requires i < |events|
  {
    var core := events[i].core;
    && core.sequence == i + 1
    && core.session == id
    && core.previous == HashAfter(events[..i])
    && events[i] == Sealed(core)
    && core.before == StateAfter(events[..i])
    && Move(core.before, core.after)
  }

  predicate Chained(id: Digest, events: seq<Event>) {
    forall i :: 0 <= i < |events| ==> Linked(id, events, i)
  }

  /** What replaying a session's journal against its row accepts. */
  predicate Replays(id: Digest, row: Row, events: seq<Event>) {
    && events != []
    && Chained(id, events)
    && row.state == StateAfter(events)
    && row.sequence == |events|
    && row.lastHash == HashAfter(events)
  }

  function GetObject(db: Db, id: Digest): Result<Payload, StoreError> {
    if id !in db.objects then Err(UnknownObject)
    else if id !in db.files then Err(MissingFile)
    else if db.files[id] != db.objects[id].content || OfDocument(db.files[id]) != id then Err(IntegrityFailed)
    else if db.files[id].objectType != db.objects[id].objectType then Err(IntegrityFailed)
    else Ok(db.files[id].payload)
  }

  function Resume(db: Db, id: Digest, expectedRoot: Option<string>,
                  expectedPlan: Option<string>): Result<(Snapshot, seq<Event>), StoreError> {
    if id !in db.sessions then Err(UnknownSession)
    else
      var row := db.sessions[id];
      var events := Journal(db, id);
      if !Replays(id, row, events) then Err(ReplayRejected)
      else
        var snapshot := SnapshotOf(id, row);
        match (if row.snapshotId.Some? then GetObject(db, row.snapshotId.value) else Ok(SessionPayload(snapshot)))
        case Err(error) => Err(error)
        case Ok(payload) =>
          if payload != SessionPayload(snapshot) then Err(SnapshotMismatch)
          else if expectedRoot.Some? && expectedRoot.value != row.descriptor.sessionRoot then Err(ResumeRootMismatch)
          else if expectedPlan.Some? && Some(expectedPlan.value) != row.planId then Err(ResumePlanMismatch)
          else Ok((snapshot, events))
  }

  // ----- the store object -----

  class Store {
    var files: map<Digest, Document>
    var objects: map<Digest, ObjectRow>
    var sessions: map<Digest, Row>
    var journal: map<Digest, seq<Event>>

    function Now(): Db
      reads this
    {
      Db(files, objects, sessions, journal)
    }

    constructor ()
      ensures Now() == EMPTY
    {
      files := map[];
      objects := map[];
      sessions := map[];
      journal := map[];
    }

    /** Undoes the tables, not the files. */
    method Rollback(begun: Db)
      modifies this`objects, this`sessions, this`journal
      ensures Now() == begun.(files := files)
    {
      objects := begun.objects;
      sessions := begun.sessions;
      journal := begun.journal;
    }

    method WriteImmutable(id: Digest, document: Document) returns (ok: bool)
      modifies this`files
      ensures ok <==> id !in old(files) || old(files)[id] == document
      ensures files == if ok then old(files)[id := document] else old(files)
    {
      if id in files {
        ok := files[id] == document;
      } else {
        files := files[id := document];
        ok := true;
      }
    }

    method PutObjectTx(document: Document) returns (r: Result<Digest, StoreError>)
      modifies this`files, this`objects
      ensures Tx(Now(), r) == PutObject(old(Now()), document)
    {
      var id := OfDocument(document);
      var ok := WriteImmutable(id, document);
      if !ok { return Err(CasCollision); }
      var row := ObjectRow(document, document.objectType);
      if id !in objects {
        objects := objects[id := row];
      }
      if objects[id] != row { return Err(CasIndexMismatch); }
      return Ok(id);
    }

    method InsertEventTx(event: Event) returns (r: Result<(), StoreError>)
      modifies this`journal
      ensures Tx(Now(), r) == InsertEvent(old(Now()), event)
    {
      if !Insertable(Now(), event) { return Err(ConstraintViolated); }
      journal := journal[event.core.session := Journal(Now(), event.core.session) + [event]];
      return Ok(());
    }

    method SaveRowTx(id: Digest, row: Row) returns (r: Result<(), StoreError>)
      modifies this`files, this`objects, this`sessions
      ensures Tx(Now(), r) == SaveRow(old(Now()), id, row)
    {
      var put := PutObjectTx(SessionDocument(id, row));
      if put.Err? { return Err(put.error); }
      sessions := sessions[id := row.(snapshotId := Some(put.value))];
      return Ok(());
    }

    method CommitTx(event: Event, row: Row) returns (r: Result<Event, StoreError>)
      modifies this
      ensures Tx(Now(), r) == Commit(old(Now()), event, row)
    {
      var begun := Now();
      var inserted := InsertEventTx(event);
      if inserted.Err? {
        Rollback(begun);
        return Err(inserted.error);
      }
      var saved := SaveRowTx(event.core.session, row);
      if saved.Err? {
        Rollback(begun);
        return Err(saved.error);
      }
      return Ok(event);
    }

    method Create(descriptor: Descriptor, createdAt: string) returns (r: Result<Digest, StoreError>)
      modifies this
      ensures Tx(Now(), r) == CreateSession(old(Now()), descriptor, createdAt)
    {
      var id := OfDescriptor(descriptor);
      var event := Sealed(Core(id, 1, "session_created", "session_store", createdAt, "session-created",
                               L.Created, L.Created, SessionData(descriptor), Zero));
      var begun := Now();
      if id in sessions {
        var replays := AssertReplay(id);
        return if replays then Ok(id) else Err(ReplayRejected);
      }
      var saved := SaveRowTx(id, Row(descriptor, L.Created, None, None, -1, 1, event.hash, createdAt, None));
      if saved.Err? {
        Rollback(begun);
        return Err(saved.error);
      }
      var inserted := InsertEventTx(event);
      if inserted.Err? {
        Rollback(begun);
        return Err(inserted.error);
      }
      return Ok(id);
    }

    method Append(id: Digest, kind: string, actor: string, data: EventData, key: string, to: Option<AuditState>,
                  occurredAt: string)
      returns (r: Result<Event, StoreError>)
      modifies this
      ensures Tx(Now(), r) == AppendEvent(old(Now()), id, kind, actor, data, key, to, occurredAt)
    {
      hide BuildEvent, Commit, EventWithKey, Journal, Move;
      if id !in sessions { return Err(UnknownSession); }
      var row := sessions[id];
      var found := EventWithKey(Journal(Now(), id), key);
      if found.Some? {
        var existing := found.value;
        var requested :=
          BuildEvent(existing.core.(session := id, kind := kind, actor := actor, key := key, data := data));
        if requested.Err? { return Err(requested.error); }
        if requested.value.id != existing.id || requested.value.hash != existing.hash { return Err(KeyReused); }
        return Ok(existing);
      }
      var target := if to.Some? then to.value else row.state;
      if !Move(row.state, target) { return Err(InvalidTransition); }
      var built :=
        BuildEvent(Core(id, row.sequence + 1, kind, actor, occurredAt, key, row.state, target, data, row.lastHash));
      if built.Err? { return Err(built.error); }
      r := CommitTx(built.value, row.(state := target, sequence := row.sequence + 1, lastHash := built.value.hash));
    }

    method Attach(id: Digest, plan: Plan, actor: string, occurredAt: string) returns (r: Result<Event, StoreError>)
      modifies this
      ensures Tx(Now(), r) == AttachPlan(old(Now()), id, plan, actor, occurredAt)
    {
      hide BuildEvent, Commit, SaveRow, Attached, PlanKey, PlanDataOf, EventWithKey, Journal;
      if id !in sessions { return Err(UnknownSession); }
      var row := sessions[id];
      if plan.sessionRoot != row.descriptor.sessionRoot { return Err(SessionRootMismatch); }
      if plan.revision < 0 { return Err(NegativeRevision); }
      if row.planRevision >= 0 && plan.revision < row.planRevision { return Err(RevisionBackwards); }
      if row.planRevision >= 0 && plan.revision == row.planRevision && Some(plan.planId) != row.planId {
        return Err(SameRevisionOtherPlan);
      }
      var found := EventWithKey(Journal(Now(), id), PlanKey(plan));
      if found.Some? {
        var existing := found.value;
        if existing.core.kind != "plan_attached" || existing.core.data != PlanDataOf(plan) {
          return Err(AttachmentMismatch);
        }
        var begun := Now();
        var saved := SaveRowTx(id, Attached(row, plan, existing));
        if saved.Err? {
          Rollback(begun);
          return Err(saved.error);
        }
        return Ok(existing);
      }
      var built := BuildEvent(Core(id, row.sequence + 1, "plan_attached", actor, occurredAt, PlanKey(plan),
                                   row.state, row.state, PlanDataOf(plan), row.lastHash));
      if built.Err? { return Err(built.error); }
      r := CommitTx(built.value, Attached(row, plan, built.value));
    }

    /** The replay loop: it accepts exactly the journals that are chained and match their row. */
    method AssertReplay(id: Digest) returns (ok: bool)
      requires id in sessions
      ensures ok <==> Replays(id, sessions[id], Journal(Now(), id))
    {
      var row := sessions[id];
      var events := Journal(Now(), id);
      if events == [] { return false; }
      var state := L.Created;
      var previous := Zero;
      var seen: set<Digest> := {};
      var i := 0;
      while i < |events|
        invariant 0 <= i <= |events|
        invariant forall j :: 0 <= j < i ==> Linked(id, events, j)
        invariant state == StateAfter(events[..i]) && previous == HashAfter(events[..i])
        invariant forall d :: d in seen <==> exists j :: 0 <= j < i && events[j].id == d
      {
        var e := events[i];
        var core := e.core;
        SealedIdsDiffer(id, events, i);
        if core.sequence != i + 1 || e.id in seen { assert !Linked(id, events, i); return false; }
        if core.session != id || core.previous != previous { assert !Linked(id, events, i); return false; }
        if e.id != OfCore(core) || e.hash != OfEvent(e.id, core) { assert !Linked(id, events, i); return false; }
        if core.before != state { assert !Linked(id, events, i); return false; }
        if !Move(state, core.after) { assert !Linked(id, events, i); return false; }
        assert events[..i + 1][|events[..i + 1]| - 1] == e;
        state := core.after;
        previous := e.hash;
        seen := seen + {e.id};
        i := i + 1;
      }
      assert events[..|events|] == events;
      return row.state == state && row.sequence == |events| && row.lastHash == previous;
    }

    method ResumeSession(id: Digest, expectedRoot: Option<string>, expectedPlan: Option<string>)
      returns (r: Result<(Snapshot, seq<Event>), StoreError>)
      ensures r == Resume(Now(), id, expectedRoot, expectedPlan)
    {
      if id !in sessions { return Err(UnknownSession); }
      var ok := AssertReplay(id);
      if !ok { return Err(ReplayRejected); }
      var row := sessions[id];
      var snapshot := SnapshotOf(id, row);
      if row.snapshotId.Some? {
        var stored := GetObject(Now(), row.snapshotId.value);
        if stored.Err? { return Err(stored.error); }
        if stored.value != SessionPayload(snapshot) { return Err(SnapshotMismatch); }
      }
      if expectedRoot.Some? && expectedRoot.value != row.descriptor.sessionRoot { return Err(ResumeRootMismatch); }
      if expectedPlan.Some? && Some(expectedPlan.value) != row.planId { return Err(ResumePlanMismatch); }
      return Ok((snapshot, Journal(Now(), id)));
    }
  }

  /** In a chained prefix no event repeats the id of a later sealed one: the sequence number is part of it. */
  lemma SealedIdsDiffer(id: Digest, events: seq<Event>, i: nat)
    requires i < |events| && forall j :: 0 <= j < i ==> Linked(id, events, j)
    ensures Linked(id, events, i) ==> forall j :: 0 <= j < i ==> events[j].id != events[i].id
  {
    forall j | 0 <= j < i && Linked(id, events, i) ensures events[j].id != events[i].id {
      assert Linked(id, events, j);
      assert events[j].id.core.sequence == j + 1;
    }
  }
}
