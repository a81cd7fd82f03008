/** What every run of the session store keeps: failed calls, retries and crashes included. */
module SessionRuns {
  import opened Common
  import L = Lifecycle
  import opened SessionStore

  datatype Step =
    | CreateStep(descriptor: Descriptor, createdAt: string)
    | AppendStep(id: Digest, kind: string, actor: string, data: EventData, key: string, to: Option<AuditState>,
                 occurredAt: string)
    | TransitionStep(id: Digest, target: AuditState, actor: string, reason: string, key: string, occurredAt: string)
    | AttachStep(id: Digest, plan: Plan, actor: string, occurredAt: string)
    | PutStep(document: Document)
    | CrashStep(interrupted: Step)

  /** One call; an interrupted one leaves the files it wrote and no change to the tables. */
  function Apply(db: Db, step: Step): Db {
    match step
    case CreateStep(descriptor, createdAt) => CreateSession(db, descriptor, createdAt).db
    case AppendStep(id, kind, actor, data, key, to, occurredAt) =>
      AppendEvent(db, id, kind, actor, data, key, to, occurredAt).db
    case TransitionStep(id, target, actor, reason, key, occurredAt) =>
      Transition(db, id, target, actor, reason, key, occurredAt).db
    case AttachStep(id, plan, actor, occurredAt) => AttachPlan(db, id, plan, actor, occurredAt).db
    case PutStep(document) => Put(db, document).db
    case CrashStep(interrupted) => db.(files := Apply(db, interrupted).files)
  }

  function Run(db: Db, steps: seq<Step>): Db {
    if steps == [] then db else Apply(Run(db, steps[..|steps| - 1]), steps[|steps| - 1])
  }

  // ----- the invariant -----

  /** Every object row has a file with the same content, and both carry the content's own id. */
  ghost predicate ObjectsStored(db: Db) {
    && (forall id :: id in db.files ==> id == OfDocument(db.files[id]))
    && (forall id :: id in db.objects ==>
          id in db.files && db.objects[id] == ObjectRow(db.files[id], db.files[id].objectType))
  }

  /** Replay accepts the session, and its stored snapshot is the one replay gives. */
  ghost predicate SessionSound(db: Db, id: Digest)
    requires id in db.sessions
  {
    var row := db.sessions[id];
    && id == OfDescriptor(row.descriptor)
    && Replays(id, row, Journal(db, id))
    && row.snapshotId == Some(OfDocument(SessionDocument(id, row)))
    && OfDocument(SessionDocument(id, row)) in db.objects
  }

  ghost predicate Sound(db: Db) {
    && ObjectsStored(db)
    && db.journal.Keys == db.sessions.Keys
    && forall id :: id in db.sessions ==> SessionSound(db, id)
  }

  // ----- storing an object -----

  lemma PutStores(db: Db, document: Document)
    requires ObjectsStored(db)
    ensures var put := PutObject(db, document);
            && put.result == Ok(OfDocument(document)) && ObjectsStored(put.db)
            && put.db.sessions == db.sessions && put.db.journal == db.journal
            && OfDocument(document) in put.db.objects
            && (forall id :: id in db.objects ==> id in put.db.objects && put.db.objects[id] == db.objects[id])
  {
  }

  lemma FilesKeepSound(db: Db, files: map<Digest, Document>)
    requires Sound(db)
    requires forall id :: id in db.files ==> id in files && files[id] == db.files[id]
    requires forall id :: id in files ==> id == OfDocument(files[id])
    ensures Sound(db.(files := files))
  {
    var after := db.(files := files);
    forall id | id in after.sessions ensures SessionSound(after, id) {
      assert SessionSound(db, id);
    }
  }

  /** Objects that are added leave the sessions sound. */
  lemma ObjectsKeepSound(db: Db, after: Db, id: Digest)
    requires id in db.sessions && SessionSound(db, id)
    requires id in after.sessions && after.sessions[id] == db.sessions[id] && Journal(after, id) == Journal(db, id)
    requires forall o :: o in db.objects ==> o in after.objects
    ensures SessionSound(after, id)
  {
  }

  // ----- appending to a chain -----

  lemma ChainGrows(id: Digest, events: seq<Event>, core: Core)
    requires Chained(id, events)
    requires core.session == id && core.sequence == |events| + 1 && core.previous == HashAfter(events)
    requires core.before == StateAfter(events) && Move(core.before, core.after)
    ensures Chained(id, events + [Sealed(core)])
  {
    var longer := events + [Sealed(core)];
    forall i | 0 <= i < |longer| ensures Linked(id, longer, i) {
      assert longer[..i] == events[..i];
      assert i < |events| ==> Linked(id, events, i);
      assert events[..|events|] == events;
    }
  }

  /** The table never refuses the next event of a sound journal. */
  lemma NextInsertable(db: Db, core: Core)
    requires Sound(db)
    requires core.session in db.sessions ==>
               core.sequence == |Journal(db, core.session)| + 1
                 && EventWithKey(Journal(db, core.session), core.key).None?
    ensures Insertable(db, Sealed(core))
  {
    forall id, e | id in db.journal && e in db.journal[id] ensures e.id != Sealed(core).id {
      assert SessionSound(db, id);
      var i :| 0 <= i < |db.journal[id]| && db.journal[id][i] == e;
      assert Linked(id, db.journal[id], i);
    }
    if core.session in db.sessions {
      assert SessionSound(db, core.session);
      forall e | e in Journal(db, core.session) ensures e.core.sequence != core.sequence && e.core.key != core.key {
        var i :| 0 <= i < |Journal(db, core.session)| && Journal(db, core.session)[i] == e;
        assert Linked(core.session, Journal(db, core.session), i);
      }
    }
  }

  /** The row as it is saved: with the id of its own snapshot. */
  function Saved(id: Digest, row: Row): Row {
    row.(snapshotId := Some(OfDocument(SessionDocument(id, row))))
  }

  /** Saving a row that replays makes its session sound and leaves the others alone. */
  lemma SaveSound(db: Db, id: Digest, row: Row)
    requires ObjectsStored(db) && db.journal.Keys == db.sessions.Keys + {id}
    requires forall other :: other in db.sessions && other != id ==> SessionSound(db, other)
    requires id == OfDescriptor(row.descriptor) && Replays(id, row, Journal(db, id))
    ensures var tx := SaveRow(db, id, row);
            tx.result == Ok(()) && Sound(tx.db) && tx.db.journal == db.journal
              && tx.db.sessions == db.sessions[id := Saved(id, row)]
  {
    hide Replays, Chained;
    PutStores(db, SessionDocument(id, row));
    var after := SaveRow(db, id, row).db;
    ReplaysSaved(id, row, Journal(db, id));
    assert SessionDocument(id, Saved(id, row)) == SessionDocument(id, row);
    forall other | other in after.sessions ensures SessionSound(after, other) {
      if other != id {
        ObjectsKeepSound(db, after, other);
      }
    }
  }

  lemma ReplaysSaved(id: Digest, row: Row, events: seq<Event>)
    requires Replays(id, row, events)
    ensures Replays(id, Saved(id, row), events)
  {
  }

  /** The row an event leads to: its state, its number, its hash. */
  ghost predicate FollowsFrom(row: Row, before: Row, core: Core) {
    row.descriptor == before.descriptor && row.state == core.after
    && row.sequence == core.sequence && row.lastHash == Sealed(core).hash
  }

  /** The next event of a session. */
  ghost predicate NextCore(db: Db, core: Core) {
    && core.session in db.sessions
    && core.sequence == |Journal(db, core.session)| + 1 && EventWithKey(Journal(db, core.session), core.key).None?
    && core.previous == HashAfter(Journal(db, core.session)) && core.before == StateAfter(Journal(db, core.session))
    && Move(core.before, core.after)
  }

  /** Committing the next event of a sound session succeeds and stays sound. */
  lemma CommitSound(db: Db, core: Core, row: Row)
    requires Sound(db) && NextCore(db, core) && FollowsFrom(row, db.sessions[core.session], core)
    ensures var tx := Commit(db, Sealed(core), row);
            && tx.result == Ok(Sealed(core)) && Sound(tx.db)
            && tx.db.journal == db.journal[core.session := Journal(db, core.session) + [Sealed(core)]]
            && tx.db.sessions == db.sessions[core.session := Saved(core.session, row)]
  {
    hide Sound, SessionSound, ObjectsStored, Replays, Chained, Insertable, SaveRow, Linked;
    var id := core.session;
    SoundSession(db, id);
    NextInsertable(db, core);
    NextReplays(id, db.sessions[id], Journal(db, id), core, row);
    OthersSound(db, id, Journal(db, id) + [Sealed(core)]);
    JournalKeys(db, id, Journal(db, id) + [Sealed(core)]);
    SaveSound(InsertEvent(db, Sealed(core)).db, id, row);
  }

  lemma NextReplays(id: Digest, before: Row, events: seq<Event>, core: Core, row: Row)
    requires Replays(id, before, events) && core.session == id
    requires core.sequence == |events| + 1 && core.previous == HashAfter(events) && core.before == StateAfter(events)
    requires Move(core.before, core.after) && FollowsFrom(row, before, core)
    ensures Replays(id, row, events + [Sealed(core)])
  {
    ChainGrows(id, events, core);
  }

  /** Writing one session's journal leaves the others sound. */
  lemma OthersSound(db: Db, id: Digest, events: seq<Event>)
    requires Sound(db)
    ensures forall other :: other in db.sessions && other != id ==>
      SessionSound(db.(journal := db.journal[id := events]), other)
  {
    hide Replays, ObjectsStored;
    forall other | other in db.sessions && other != id
      ensures SessionSound(db.(journal := db.journal[id := events]), other)
    {
      assert SessionSound(db, other);
      assert Journal(db.(journal := db.journal[id := events]), other) == Journal(db, other);
    }
  }

  lemma JournalKeys(db: Db, id: Digest, events: seq<Event>)
    requires Sound(db)
    ensures var written := db.(journal := db.journal[id := events]);
            ObjectsStored(written) && written.journal.Keys == written.sessions.Keys + {id}
  {
    hide SessionSound;
  }

  lemma SoundSession(db: Db, id: Digest)
    requires Sound(db) && id in db.sessions
    ensures SessionSound(db, id) && id == OfDescriptor(db.sessions[id].descriptor)
    ensures Replays(id, db.sessions[id], Journal(db, id))
  {
  }

  // ----- each call -----

  lemma AppendSound(db: Db, id: Digest, kind: string, actor: string, data: EventData, key: string,
                    to: Option<AuditState>, occurredAt: string)
    requires Sound(db)
    ensures Sound(AppendEvent(db, id, kind, actor, data, key, to, occurredAt).db)
  {
    hide Sound, Chained, Commit;
    if id in db.sessions && EventWithKey(Journal(db, id), key).None? {
      SoundSession(db, id);
      var row := db.sessions[id];
      var target := if to.Some? then to.value else row.state;
      var core := Core(id, row.sequence + 1, kind, actor, occurredAt, key, row.state, target, data, row.lastHash);
      if Move(row.state, target) && BuildEvent(core).Ok? {
        CommitSound(db, core, row.(state := target, sequence := row.sequence + 1, lastHash := Sealed(core).hash));
      }
    }
  }

  lemma CreateSound(db: Db, descriptor: Descriptor, createdAt: string)
    requires Sound(db)
    ensures Sound(CreateSession(db, descriptor, createdAt).db)
    ensures CreateSession(db, descriptor, createdAt).result == Ok(OfDescriptor(descriptor))
  {
    hide Sound, Chained, SaveRow, InsertEvent, Insertable;
    var id := OfDescriptor(descriptor);
    if id in db.sessions {
      SoundSession(db, id);
    } else {
      var core :=
        Core(id, 1, "session_created", "session_store", createdAt, "session-created", L.Created, L.Created,
             SessionData(descriptor), Zero);
      var row := Row(descriptor, L.Created, None, None, -1, 1, Sealed(core).hash, createdAt, None);
      NextInsertable(db, core);
      FirstReplays(db, core, row);
      SaveSound(db.(journal := db.journal[id := Journal(db, id) + [Sealed(core)]]), id, row);
      SaveThenInsert(db, id, row, Sealed(core));
    }
  }

  lemma FirstReplays(db: Db, core: Core, row: Row)
    requires Sound(db) && core.session !in db.sessions
    requires core.sequence == 1 && core.previous == Zero && core.before == core.after == L.Created
    requires row.state == L.Created && row.sequence == 1 && row.lastHash == Sealed(core).hash
    ensures var started := db.(journal := db.journal[core.session := Journal(db, core.session) + [Sealed(core)]]);
            && ObjectsStored(started) && started.journal.Keys == started.sessions.Keys + {core.session}
            && (forall other :: other in started.sessions && other != core.session ==> SessionSound(started, other))
            && Replays(core.session, row, Journal(started, core.session))
  {
    hide Sound, Replays, SessionSound, ObjectsStored;
    NoJournal(db, core.session);
    OthersSound(db, core.session, [Sealed(core)]);
    JournalKeys(db, core.session, [Sealed(core)]);
    assert [] + [Sealed(core)] == [Sealed(core)];
    ChainGrows(core.session, [], core);
    OneEventReplays(core.session, row, core);
  }

  lemma NoJournal(db: Db, id: Digest)
    requires Sound(db) && id !in db.sessions
    ensures Journal(db, id) == []
  {
  }

  lemma OneEventReplays(id: Digest, row: Row, core: Core)
    requires Chained(id, [Sealed(core)]) && row.state == core.after && row.sequence == 1
      && row.lastHash == Sealed(core).hash
    ensures Replays(id, row, [Sealed(core)])
  {
  }

  /** The order of the two writes inside one transaction does not matter. */
  lemma SaveThenInsert(db: Db, id: Digest, row: Row, event: Event)
    requires event.core.session == id && Insertable(db, event)
    requires SaveRow(db.(journal := db.journal[id := Journal(db, id) + [event]]), id, row).result.Ok?
    ensures var saved := SaveRow(db, id, row);
            saved.result.Ok?
              && InsertEvent(saved.db, event) ==
                   Tx(SaveRow(db.(journal := db.journal[id := Journal(db, id) + [event]]), id, row).db, Ok(()))
  {
  }

  /** Attaching hits an event that is not the last one of its session. */
  predicate ReattachesOld(db: Db, id: Digest, plan: Plan) {
    var found := EventWithKey(Journal(db, id), PlanKey(plan));
    found.Some? && found.value != Journal(db, id)[|Journal(db, id)| - 1]
  }

  /** The position of a found event is its sequence number. */
  lemma FoundAt(id: Digest, events: seq<Event>, key: string)
    requires Chained(id, events) && EventWithKey(events, key).Some?
    ensures var e := EventWithKey(events, key).value;
            1 <= e.core.sequence <= |events| && events[e.core.sequence - 1] == e
  {
    var e := EventWithKey(events, key).value;
    var i :| 0 <= i < |events| && events[i] == e;
    assert Linked(id, events, i);
  }

  lemma LastNumbered(id: Digest, events: seq<Event>)
    requires Chained(id, events) && events != []
    ensures events[|events| - 1].core.sequence == |events|
  {
    assert Linked(id, events, |events| - 1);
  }

  lemma AttachKeeps(db: Db, id: Digest, plan: Plan, actor: string, occurredAt: string)
    requires Sound(db) && !ReattachesOld(db, id, plan)
    ensures Sound(AttachPlan(db, id, plan, actor, occurredAt).db)
  {
    hide Sound, SessionSound, ObjectsStored, Chained, Linked, Commit, SaveRow;
    if id in db.sessions {
      SoundSession(db, id);
      var row, events := db.sessions[id], Journal(db, id);
      var found := EventWithKey(events, PlanKey(plan));
      if found.Some? {
        LastNumbered(id, events);
        ResaveSound(db, id, Attached(row, plan, found.value));
      } else {
        var core :=
          Core(id, row.sequence + 1, "plan_attached", actor, occurredAt, PlanKey(plan), row.state, row.state,
               PlanDataOf(plan), row.lastHash);
        CommitSound(db, core, Attached(row, plan, Sealed(core)));
      }
    }
  }

  /** Saving a row that still replays keeps the store sound. */
  lemma ResaveSound(db: Db, id: Digest, row: Row)
    requires Sound(db) && id in db.sessions
    requires row.descriptor == db.sessions[id].descriptor && row.state == db.sessions[id].state
    requires row.sequence == db.sessions[id].sequence && row.lastHash == db.sessions[id].lastHash
    ensures var tx := SaveRow(db, id, row);
            tx.result == Ok(()) && Sound(tx.db) && tx.db.journal == db.journal
              && tx.db.sessions == db.sessions[id := Saved(id, row)]
  {
    hide SessionSound, Replays, SaveRow;
    SoundSession(db, id);
    RowReplays(id, db.sessions[id], row, Journal(db, id));
    SaveSound(db, id, row);
  }

  lemma RowReplays(id: Digest, before: Row, row: Row, events: seq<Event>)
    requires Replays(id, before, events)
    requires row.state == before.state && row.sequence == before.sequence && row.lastHash == before.lastHash
    ensures Replays(id, row, events)
  {
  }

  /**
   * An attachment that finds an older event moves the row back to it: replay then refuses the session, and so does
   * every new event.
   */
  lemma OldReattachBreaks(db: Db, id: Digest, plan: Plan, actor: string, occurredAt: string)
    requires Sound(db) && ReattachesOld(db, id, plan)
    requires AttachPlan(db, id, plan, actor, occurredAt).result.Ok?
    ensures var after := AttachPlan(db, id, plan, actor, occurredAt).db;
            && !Sound(after)
            && (forall root, expected :: Resume(after, id, root, expected) == Err(ReplayRejected))
            && (forall kind, who, data, key, to, at :: EventWithKey(Journal(after, id), key).None? ==>
                  AppendEvent(after, id, kind, who, data, key, to, at).result.Err?)
  {
    hide Sound, SessionSound, ObjectsStored;
    SoundSession(db, id);
    var events := Journal(db, id);
    var e := EventWithKey(events, PlanKey(plan)).value;
    FoundAt(id, events, PlanKey(plan));
    var after := AttachPlan(db, id, plan, actor, occurredAt).db;
    SavedIs(db, id, Attached(db.sessions[id], plan, e));
    assert after.sessions[id].sequence == e.core.sequence < |events| && Journal(after, id) == events;
    if Sound(after) { SoundSession(after, id); }
    assert Linked(id, events, e.core.sequence);
    forall kind, who, data, key, to, at | EventWithKey(events, key).None?
      ensures AppendEvent(after, id, kind, who, data, key, to, at).result.Err?
    {
      NextTaken(after, id, kind, who, data, key, to, at);
    }
  }

  lemma SavedIs(db: Db, id: Digest, row: Row)
    ensures SaveRow(db, id, row).result.Ok? ==>
              SaveRow(db, id, row).db.sessions == db.sessions[id := Saved(id, row)]
                && SaveRow(db, id, row).db.journal == db.journal
  {
  }

  /** The next number is already in the journal. */
  lemma NextTaken(db: Db, id: Digest, kind: string, actor: string, data: EventData, key: string, to: Option<AuditState>,
                  occurredAt: string)
    requires id in db.sessions && EventWithKey(Journal(db, id), key).None?
    requires exists i :: 0 <= i < |Journal(db, id)| && Journal(db, id)[i].core.sequence == db.sessions[id].sequence + 1
    ensures AppendEvent(db, id, kind, actor, data, key, to, occurredAt).result.Err?
  {
  }

  /** A successful attachment keeps the store sound exactly when it does not re-attach through an older event. */
  lemma AttachSoundExactly(db: Db, id: Digest, plan: Plan, actor: string, occurredAt: string)
    requires Sound(db) && AttachPlan(db, id, plan, actor, occurredAt).result.Ok?
    ensures Sound(AttachPlan(db, id, plan, actor, occurredAt).db) <==> !ReattachesOld(db, id, plan)
  {
    hide Sound;
    if ReattachesOld(db, id, plan) {
      OldReattachBreaks(db, id, plan, actor, occurredAt);
    } else {
      AttachKeeps(db, id, plan, actor, occurredAt);
    }
  }

  lemma PlanAttachedIsName()
    ensures TypeName("plan_attached", 3)
  {
    var text := "plan_attached";
    assert text == ['p', 'l', 'a', 'n', '_', 'a', 't', 't', 'a', 'c', 'h', 'e', 'd'];
  }

  lemma FreshSession(descriptor: Descriptor, at: string) returns (db: Db)
    ensures CreateSession(EMPTY, descriptor, at).result.Ok? && db == CreateSession(EMPTY, descriptor, at).db
    ensures var id := OfDescriptor(descriptor);
            && Sound(db) && id in db.sessions && db.sessions[id].descriptor == descriptor
            && db.sessions[id].planRevision == -1
            && |Journal(db, id)| == 1 && Journal(db, id)[0].core.key == "session-created"
  {
    hide Sound, SaveRow, Insertable;
    EmptySound();
    CreateSound(EMPTY, descriptor, at);
    var id := OfDescriptor(descriptor);
    var event := Sealed(Core(id, 1, "session_created", "session_store", at, "session-created",
                             L.Created, L.Created, SessionData(descriptor), Zero));
    SavedIs(EMPTY, id, Row(descriptor, L.Created, None, None, -1, 1, event.hash, at, None));
    db := CreateSession(EMPTY, descriptor, at).db;
    assert Journal(db, id) == [event];
  }

  lemma EmptySound()
    ensures Sound(EMPTY)
  {
  }

  /** A first attachment of a plan that is newer than the current one. */
  lemma AttachFresh(db: Db, id: Digest, plan: Plan, at: string)
    requires Sound(db) && id in db.sessions && EventWithKey(Journal(db, id), PlanKey(plan)).None?
    requires plan.sessionRoot == db.sessions[id].descriptor.sessionRoot && plan.revision >= 0
      && plan.revision > db.sessions[id].planRevision
    ensures var tx := AttachPlan(db, id, plan, "planner", at);
            && tx.result.Ok? && Sound(tx.db) && id in tx.db.sessions
            && Journal(tx.db, id) == Journal(db, id) + [tx.result.value]
            && tx.result.value.core.key == PlanKey(plan)
            && tx.result.value.core.kind == "plan_attached" && tx.result.value.core.data == PlanDataOf(plan)
            && tx.db.sessions[id].descriptor == db.sessions[id].descriptor
            && tx.db.sessions[id].planRevision == plan.revision && tx.db.sessions[id].planId == Some(plan.planId)
  {
    hide Sound, SessionSound, Commit;
    SoundSession(db, id);
    PlanAttachedIsName();
    assert "planner"[0] == 'p' && PlanKey(plan)[0] == 'p';
    var row := db.sessions[id];
    var core :=
      Core(id, row.sequence + 1, "plan_attached", "planner", at, PlanKey(plan), row.state, row.state, PlanDataOf(plan),
           row.lastHash);
    CommitSound(db, core, Attached(row, plan, Sealed(core)));
  }

  /** An ordinary event under a new key. */
  lemma AppendFresh(db: Db, id: Digest, kind: string, actor: string, data: EventData, key: string, at: string)
    requires Sound(db) && id in db.sessions && EventWithKey(Journal(db, id), key).None?
    requires TypeName(kind, 3) && !L.Blank(actor) && !L.Blank(key)
    ensures var tx := AppendEvent(db, id, kind, actor, data, key, None, at);
            && tx.result.Ok? && Sound(tx.db) && id in tx.db.sessions
            && Journal(tx.db, id) == Journal(db, id) + [tx.result.value] && tx.result.value.core.key == key
            && tx.db.sessions[id].descriptor == db.sessions[id].descriptor
            && tx.db.sessions[id].planRevision == db.sessions[id].planRevision
            && tx.db.sessions[id].planId == db.sessions[id].planId
  {
    hide Sound, SessionSound, Commit;
    SoundSession(db, id);
    var row := db.sessions[id];
    var core := Core(id, row.sequence + 1, kind, actor, at, key, row.state, row.state, data, row.lastHash);
    CommitSound(db, core, row.(sequence := row.sequence + 1, lastHash := Sealed(core).hash));
  }

  /**
   * Create, attach, append, attach the same plan again: the last call succeeds, and the session can no longer be
   * resumed.
   */
  lemma ReattachCounterexample(descriptor: Descriptor, plan: Plan, kind: string, actor: string, data: EventData,
                               key: string, at: string)
    requires plan.sessionRoot == descriptor.sessionRoot && plan.revision >= 0
    requires TypeName(kind, 3) && !L.Blank(actor) && !L.Blank(key) && key != "session-created" && key != PlanKey(plan)
    ensures var id := OfDescriptor(descriptor);
            var created := CreateSession(EMPTY, descriptor, at);
            var attached := AttachPlan(created.db, id, plan, "planner", at);
            var appended := AppendEvent(attached.db, id, kind, actor, data, key, None, at);
            var again := AttachPlan(appended.db, id, plan, "planner", at);
            && created.result.Ok? && attached.result.Ok? && appended.result.Ok? && again.result.Ok?
            && Resume(again.db, id, None, None) == Err(ReplayRejected)
  {
    hide Sound, CreateSession, AppendEvent, AttachPlan, Resume, EventWithKey;
    var id := OfDescriptor(descriptor);
    var created := FreshSession(descriptor, at);
    assert PlanKey(plan)[0] == 'p' && "session-created"[0] == 's';
    KeyAbsent(Journal(created, id), PlanKey(plan));
    AttachFresh(created, id, plan, at);
    var attached := AttachPlan(created, id, plan, "planner", at);
    FoundLast(Journal(created, id), attached.result.value);
    var events := Journal(attached.db, id);
    assert events == [events[0], attached.result.value] && events[0].core.key == "session-created";
    KeyAbsent(events, key);
    AppendFresh(attached.db, id, kind, actor, data, key, at);
    var appended := AppendEvent(attached.db, id, kind, actor, data, key, None, at).db;
    FoundStays(events, Journal(appended, id), PlanKey(plan));
    ReattachSucceeds(appended, id, plan, at);
    assert ReattachesOld(appended, id, plan);
    OldReattachBreaks(appended, id, plan, "planner", at);
  }

  lemma KeyAbsent(events: seq<Event>, key: string)
    requires forall i :: 0 <= i < |events| ==> events[i].core.key != key
    ensures EventWithKey(events, key).None?
  {
  }

  lemma ReattachSucceeds(db: Db, id: Digest, plan: Plan, at: string)
    requires Sound(db) && id in db.sessions
    requires plan.sessionRoot == db.sessions[id].descriptor.sessionRoot && plan.revision >= 0
    requires plan.revision == db.sessions[id].planRevision && Some(plan.planId) == db.sessions[id].planId
    requires var found := EventWithKey(Journal(db, id), PlanKey(plan));
             found.Some? && found.value.core.kind == "plan_attached" && found.value.core.data == PlanDataOf(plan)
    ensures AttachPlan(db, id, plan, "planner", at).result.Ok?
  {
    hide SessionSound;
    PutStores(db,
              SessionDocument(id, Attached(db.sessions[id], plan, EventWithKey(Journal(db, id), PlanKey(plan)).value)));
  }

  // ----- files -----

  /** Files are only added, each under the id of its content. */
  ghost predicate FilesGrow(before: map<Digest, Document>, after: map<Digest, Document>) {
    && (forall id :: id in before ==> id in after && after[id] == before[id])
    && (forall id :: id in after && id !in before ==> id == OfDocument(after[id]))
  }

  lemma SaveGrowsFiles(db: Db, id: Digest, row: Row)
    ensures FilesGrow(db.files, SaveRow(db, id, row).db.files)
  {
  }

  lemma CommitGrowsFiles(db: Db, event: Event, row: Row)
    ensures FilesGrow(db.files, Commit(db, event, row).db.files)
  {
    SaveGrowsFiles(InsertEvent(db, event).db, event.core.session, row);
  }

  lemma {:induction false} StepGrowsFiles(db: Db, step: Step)
    ensures FilesGrow(db.files, Apply(db, step).files)
  {
    hide Commit, SaveRow, AppendEvent, AttachPlan;
    match step
    case CreateStep(descriptor, createdAt) =>
      var event :=
        Sealed(Core(OfDescriptor(descriptor), 1, "session_created", "session_store", createdAt, "session-created",
                    L.Created, L.Created, SessionData(descriptor), Zero));
      SaveGrowsFiles(db, OfDescriptor(descriptor),
                     Row(descriptor, L.Created, None, None, -1, 1, event.hash, createdAt, None));
    case AppendStep(id, kind, actor, data, key, to, occurredAt) =>
      AppendGrowsFiles(db, id, kind, actor, data, key, to, occurredAt);
    case TransitionStep(id, target, actor, reason, key, occurredAt) =>
      AppendGrowsFiles(db, id, "state_transition", actor, Reason(reason), key, Some(target), occurredAt);
    case AttachStep(id, plan, actor, occurredAt) =>
      AttachGrowsFiles(db, id, plan, actor, occurredAt);
    case PutStep(document) =>
    case CrashStep(interrupted) => StepGrowsFiles(db, interrupted);
  }

  lemma AppendGrowsFiles(db: Db, id: Digest, kind: string, actor: string, data: EventData, key: string,
                         to: Option<AuditState>, occurredAt: string)
    ensures FilesGrow(db.files, AppendEvent(db, id, kind, actor, data, key, to, occurredAt).db.files)
  {
    hide Commit;
    if id in db.sessions {
      var row := db.sessions[id];
      var target := if to.Some? then to.value else row.state;
      var core := Core(id, row.sequence + 1, kind, actor, occurredAt, key, row.state, target, data, row.lastHash);
      CommitGrowsFiles(db, Sealed(core),
                       row.(state := target, sequence := row.sequence + 1, lastHash := Sealed(core).hash));
    }
  }

  lemma AttachGrowsFiles(db: Db, id: Digest, plan: Plan, actor: string, occurredAt: string)
    ensures FilesGrow(db.files, AttachPlan(db, id, plan, actor, occurredAt).db.files)
  {
    hide Commit, SaveRow;
    if id in db.sessions {
      var row := db.sessions[id];
      var found := EventWithKey(Journal(db, id), PlanKey(plan));
      if found.Some? {
        SaveGrowsFiles(db, id, Attached(row, plan, found.value));
      }
      var core :=
        Core(id, row.sequence + 1, "plan_attached", actor, occurredAt, PlanKey(plan), row.state, row.state,
             PlanDataOf(plan), row.lastHash);
      CommitGrowsFiles(db, Sealed(core), Attached(row, plan, Sealed(core)));
    }
  }

  // ----- whole runs -----

  /** A call that does not re-attach through an older event. */
  predicate Safe(db: Db, step: Step) {
    step.AttachStep? ==> !ReattachesOld(db, step.id, step.plan)
  }

  predicate SafeRun(db: Db, steps: seq<Step>) {
    forall i :: 0 <= i < |steps| ==> Safe(Run(db, steps[..i]), steps[i])
  }

  lemma StepSound(db: Db, step: Step)
    requires Sound(db) && Safe(db, step)
    ensures Sound(Apply(db, step))
  {
    hide Sound;
    match step
    case CreateStep(descriptor, createdAt) => CreateSound(db, descriptor, createdAt);
    case AppendStep(id, kind, actor, data, key, to, occurredAt) =>
      AppendSound(db, id, kind, actor, data, key, to, occurredAt);
    case TransitionStep(id, target, actor, reason, key, occurredAt) =>
      AppendSound(db, id, "state_transition", actor, Reason(reason), key, Some(target), occurredAt);
    case AttachStep(id, plan, actor, occurredAt) => AttachKeeps(db, id, plan, actor, occurredAt);
    case PutStep(document) => PutSound(db, document);
    case CrashStep(interrupted) => CrashSound(db, interrupted);
  }

  lemma PutSound(db: Db, document: Document)
    requires Sound(db)
    ensures Sound(Put(db, document).db)
  {
    hide Replays;
    PutStores(db, document);
    var after := Put(db, document).db;
    forall id | id in after.sessions ensures SessionSound(after, id) {
      ObjectsKeepSound(db, after, id);
    }
  }

  lemma CrashSound(db: Db, interrupted: Step)
    requires Sound(db)
    ensures Sound(Apply(db, CrashStep(interrupted)))
  {
    hide Sound, SessionSound, AppendEvent, AttachPlan, CreateSession, Put;
    StepGrowsFiles(db, interrupted);
    SoundFiles(db);
    FilesKeepSound(db, Apply(db, interrupted).files);
  }

  lemma SoundFiles(db: Db)
    requires Sound(db)
    ensures forall id :: id in db.files ==> id == OfDocument(db.files[id])
  {
    hide SessionSound;
  }

  /** Whatever is called, retried, refused or interrupted, the store stays sound. */
  lemma {:induction false} RunSound(db: Db, steps: seq<Step>)
    requires Sound(db) && SafeRun(db, steps)
    ensures Sound(Run(db, steps))
    decreases |steps|
  {
    hide Sound;
    if steps != [] {
      var shorter := steps[..|steps| - 1];
      forall i | 0 <= i < |shorter| ensures Safe(Run(db, shorter[..i]), shorter[i]) {
        assert shorter[..i] == steps[..i];
      }
      RunSound(db, shorter);
      StepSound(Run(db, shorter), steps[|steps| - 1]);
    }
  }

  /** A sound store resumes every session it has, with the snapshot that replay gives, and reads back every object. */
  lemma SoundResumes(db: Db)
    requires Sound(db)
    ensures forall id :: id in db.sessions ==>
      Resume(db, id, None, None) == Ok((SnapshotOf(id, db.sessions[id]), Journal(db, id)))
    ensures forall id :: id in db.objects ==> GetObject(db, id) == Ok(db.objects[id].content.payload)
  {
    hide Sound, Replays;
    forall id | id in db.sessions
      ensures Resume(db, id, None, None) == Ok((SnapshotOf(id, db.sessions[id]), Journal(db, id)))
    {
      SoundSession(db, id);
      SoundObjects(db);
    }
    SoundObjects(db);
  }

  lemma SoundObjects(db: Db)
    requires Sound(db)
    ensures forall id :: id in db.objects ==>
      GetObject(db, id) == Ok(db.objects[id].content.payload) && id == OfDocument(db.objects[id].content)
  {
    hide SessionSound;
  }

  /** From the empty store, after any safe run, every session resumes. */
  lemma EveryRunResumes(steps: seq<Step>)
    requires SafeRun(EMPTY, steps)
    ensures var db := Run(EMPTY, steps);
            && (forall id :: id in db.sessions ==>
                Resume(db, id, None, None) == Ok((SnapshotOf(id, db.sessions[id]), Journal(db, id))))
            && (forall id :: id in db.objects ==> id in db.files && db.files[id] == db.objects[id].content)
  {
    RunSound(EMPTY, steps);
    SoundResumes(Run(EMPTY, steps));
  }

  // ----- what every step respects, safe or not -----

  /**
   * Sessions are never dropped, their journals never rewritten, their states follow the table, their revisions never
   * fall.
   */
  ghost predicate Evolves(before: Db, after: Db) {
    && before.sessions.Keys <= after.sessions.Keys
    && (forall id :: id in before.sessions ==>
          && Journal(before, id) <= Journal(after, id)
          && after.sessions[id].descriptor == before.sessions[id].descriptor
          && Move(before.sessions[id].state, after.sessions[id].state)
          && before.sessions[id].planRevision <= after.sessions[id].planRevision)
    && (forall id :: id in after.sessions && id !in before.sessions ==>
          after.sessions[id].state == L.Created && after.sessions[id].planRevision == -1)
  }

  lemma SaveEvolves(db: Db, id: Digest, row: Row)
    requires id in db.sessions && row.descriptor == db.sessions[id].descriptor
    requires Move(db.sessions[id].state, row.state) && db.sessions[id].planRevision <= row.planRevision
    ensures Evolves(db, SaveRow(db, id, row).db)
  {
  }

  lemma CommitEvolves(db: Db, event: Event, row: Row)
    requires event.core.session in db.sessions && row.descriptor == db.sessions[event.core.session].descriptor
    requires Move(db.sessions[event.core.session].state, row.state)
      && db.sessions[event.core.session].planRevision <= row.planRevision
    ensures Evolves(db, Commit(db, event, row).db)
  {
    hide Insertable, SaveRow, Move;
    var inserted := InsertEvent(db, event).db;
    SaveEvolves(inserted, event.core.session, row);
    EvolvesItself(db);
  }

  lemma EvolvesItself(db: Db)
    ensures forall files :: Evolves(db, db.(files := files))
  {
  }

  lemma AppendEvolves(db: Db, id: Digest, kind: string, actor: string, data: EventData, key: string,
                      to: Option<AuditState>, occurredAt: string)
    ensures Evolves(db, AppendEvent(db, id, kind, actor, data, key, to, occurredAt).db)
  {
    hide Commit, Evolves, Move;
    EvolvesItself(db);
    assert Evolves(db, db.(files := db.files));
    if id in db.sessions {
      var row := db.sessions[id];
      var target := if to.Some? then to.value else row.state;
      if Move(row.state, target) {
        var core := Core(id, row.sequence + 1, kind, actor, occurredAt, key, row.state, target, data, row.lastHash);
        CommitEvolves(db, Sealed(core),
                      row.(state := target, sequence := row.sequence + 1, lastHash := Sealed(core).hash));
      }
    }
  }

  lemma AttachEvolves(db: Db, id: Digest, plan: Plan, actor: string, occurredAt: string)
    requires Floor(db)
    ensures Evolves(db, AttachPlan(db, id, plan, actor, occurredAt).db)
  {
    hide Commit, SaveRow, Evolves;
    EvolvesItself(db);
    assert Evolves(db, db.(files := db.files));
    if id in db.sessions && db.sessions[id].planRevision <= plan.revision {
      var row := db.sessions[id];
      var found := EventWithKey(Journal(db, id), PlanKey(plan));
      if found.Some? {
        SaveEvolves(db, id, Attached(row, plan, found.value));
        assert Evolves(db,
                       RolledBack<Event>(db, SaveRow(db, id, Attached(row, plan, found.value)).db, UnknownSession).db);
      }
      var core :=
        Core(id, row.sequence + 1, "plan_attached", actor, occurredAt, PlanKey(plan), row.state, row.state,
             PlanDataOf(plan), row.lastHash);
      CommitEvolves(db, Sealed(core), Attached(row, plan, Sealed(core)));
    }
  }

  /** No row is below the revision a session starts with. */
  ghost predicate Floor(db: Db) {
    forall id :: id in db.sessions ==> db.sessions[id].planRevision >= -1
  }

  /**
   * Every call, safe or not: no session, journal entry or plan revision is taken back, and a state moves only along the
   * table.
   */
  lemma StepEvolves(db: Db, step: Step)
    requires Floor(db)
    ensures Evolves(db, Apply(db, step))
  {
    hide Evolves, AppendEvent, AttachPlan, CreateSession, Put;
    EvolvesItself(db);
    assert Evolves(db, db.(files := db.files));
    match step
    case CreateStep(descriptor, createdAt) => CreateEvolves(db, descriptor, createdAt);
    case AppendStep(id, kind, actor, data, key, to, occurredAt) =>
      AppendEvolves(db, id, kind, actor, data, key, to, occurredAt);
    case TransitionStep(id, target, actor, reason, key, occurredAt) =>
      AppendEvolves(db, id, "state_transition", actor, Reason(reason), key, Some(target), occurredAt);
    case AttachStep(id, plan, actor, occurredAt) => AttachEvolves(db, id, plan, actor, occurredAt);
    case PutStep(document) => PutEvolves(db, document);
    case CrashStep(interrupted) => assert Evolves(db, db.(files := Apply(db, interrupted).files));
  }

  lemma StepFloor(db: Db, step: Step)
    requires Floor(db)
    ensures Floor(Apply(db, step))
  {
    hide Evolves, Floor, Apply;
    StepEvolves(db, step);
    EvolvesFloor(db, Apply(db, step));
  }

  lemma PutEvolves(db: Db, document: Document)
    ensures Evolves(db, Put(db, document).db)
  {
  }

  lemma CreateEvolves(db: Db, descriptor: Descriptor, createdAt: string)
    ensures Evolves(db, CreateSession(db, descriptor, createdAt).db)
  {
    hide Replays, Insertable, SaveRow;
    var id := OfDescriptor(descriptor);
    var event := Sealed(Core(id, 1, "session_created", "session_store", createdAt, "session-created",
                             L.Created, L.Created, SessionData(descriptor), Zero));
    SavedIs(db, id, Row(descriptor, L.Created, None, None, -1, 1, event.hash, createdAt, None));
  }

  lemma EvolvesFloor(before: Db, after: Db)
    requires Floor(before) && Evolves(before, after)
    ensures Floor(after)
  {
  }

  lemma {:induction false} RunEvolves(db: Db, steps: seq<Step>, more: seq<Step>)
    requires Floor(Run(db, steps))
    ensures Floor(Run(db, steps + more))
    ensures KeepsHistory(Run(db, steps), Run(db, steps + more))
    decreases |more|
  {
    hide Floor, Evolves, KeepsHistory, Apply;
    var all := steps + more;
    if more == [] {
      assert all == steps;
      HistoryItself(Run(db, steps));
    } else {
      var front := more[..|more| - 1];
      assert all[..|all| - 1] == steps + front && all[|all| - 1] == more[|more| - 1];
      RunEvolves(db, steps, front);
      StepEvolves(Run(db, steps + front), more[|more| - 1]);
      StepFloor(Run(db, steps + front), more[|more| - 1]);
      HistoryThen(Run(db, steps), Run(db, steps + front), Run(db, all));
    }
  }

  /** Later stores extend every journal and keep or raise every plan revision. */
  ghost predicate KeepsHistory(before: Db, after: Db) {
    && before.sessions.Keys <= after.sessions.Keys
    && (forall id :: id in before.sessions ==>
          Journal(before, id) <= Journal(after, id)
            && before.sessions[id].planRevision <= after.sessions[id].planRevision)
  }

  lemma HistoryItself(db: Db)
    ensures KeepsHistory(db, db)
  {
  }

  lemma HistoryThen(a: Db, b: Db, c: Db)
    requires KeepsHistory(a, b) && Evolves(b, c)
    ensures KeepsHistory(a, c)
  {
  }

  // ----- retries -----

  function Answer(db: Db, step: Step): Result<Event, StoreError>
    requires step.AppendStep? || step.TransitionStep?
  {
    match step
    case AppendStep(id, kind, actor, data, key, to, occurredAt) =>
      AppendEvent(db, id, kind, actor, data, key, to, occurredAt).result
    case TransitionStep(id, target, actor, reason, key, occurredAt) =>
      Transition(db, id, target, actor, reason, key, occurredAt).result
  }

  /**
   * A used key changes nothing; the answer is the recorded event exactly when kind, actor and data are the recorded
   * ones - the target state is not compared.
   */
  lemma UsedKey(db: Db, id: Digest, kind: string, actor: string, data: EventData, key: string, to: Option<AuditState>,
                occurredAt: string)
    requires Sound(db) && id in db.sessions && EventWithKey(Journal(db, id), key).Some?
    ensures var tx := AppendEvent(db, id, kind, actor, data, key, to, occurredAt);
            var e := EventWithKey(Journal(db, id), key).value;
            && tx.db == db
            && (tx.result.Ok? <==> TypeName(kind, 3) && !L.Blank(actor) && !L.Blank(key)
                                   && kind == e.core.kind && actor == e.core.actor && data == e.core.data)
            && (tx.result.Ok? ==> tx.result.value == e)
  {
    hide Sound;
    SoundSession(db, id);
    FoundAt(id, Journal(db, id), key);
    assert Linked(id, Journal(db, id), EventWithKey(Journal(db, id), key).value.core.sequence - 1);
  }

  lemma {:induction false} FoundStays(events: seq<Event>, longer: seq<Event>, key: string)
    requires events <= longer && EventWithKey(events, key).Some?
    ensures EventWithKey(longer, key) == EventWithKey(events, key)
  {
    if events[0].core.key != key {
      FoundStays(events[1..], longer[1..], key);
    }
  }

  lemma {:induction false} FoundLast(events: seq<Event>, e: Event)
    requires EventWithKey(events, e.core.key).None?
    ensures EventWithKey(events + [e], e.core.key) == Some(e)
  {
    if events != [] {
      assert (events + [e])[1..] == events[1..] + [e];
      FoundLast(events[1..], e);
    }
  }

  /** After a successful call its event is on record, under its key and with its content. */
  lemma Recorded(db: Db, id: Digest, kind: string, actor: string, data: EventData, key: string, to: Option<AuditState>,
                 occurredAt: string)
    requires AppendEvent(db, id, kind, actor, data, key, to, occurredAt).result.Ok?
    ensures var tx := AppendEvent(db, id, kind, actor, data, key, to, occurredAt);
            var e := tx.result.value;
            && id in tx.db.sessions
            && EventWithKey(Journal(tx.db, id), key) == Some(e)
            && BuildEvent(e.core.(session := id, kind := kind, actor := actor, key := key, data := data)) ==
                 Ok(Sealed(e.core.(session := id, kind := kind, actor := actor, key := key, data := data)))
            && Sealed(e.core.(session := id, kind := kind, actor := actor, key := key, data := data)).id == e.id
            && Sealed(e.core.(session := id, kind := kind, actor := actor, key := key, data := data)).hash == e.hash
  {
    hide Insertable;
    if EventWithKey(Journal(db, id), key).None? {
      var e := AppendEvent(db, id, kind, actor, data, key, to, occurredAt).result.value;
      FoundLast(Journal(db, id), e);
    }
  }

  /** However much later a successful call is repeated, it changes nothing and gets the event it got the first time. */
  lemma RetryAnswered(db: Db, later: Db, step: Step)
    requires step.AppendStep? || step.TransitionStep?
    requires Answer(db, step).Ok? && KeepsHistory(Apply(db, step), later)
    ensures Apply(later, step) == later && Answer(later, step) == Answer(db, step)
  {
    hide Commit;
    match step
    case AppendStep(id, kind, actor, data, key, to, occurredAt) =>
      AppendRetried(db, later, id, kind, actor, data, key, to, occurredAt);
    case TransitionStep(id, target, actor, reason, key, occurredAt) =>
      AppendRetried(db, later, id, "state_transition", actor, Reason(reason), key, Some(target), occurredAt);
  }

  lemma AppendRetried(db: Db, later: Db, id: Digest, kind: string, actor: string, data: EventData, key: string,
                      to: Option<AuditState>, occurredAt: string)
    requires AppendEvent(db, id, kind, actor, data, key, to, occurredAt).result.Ok?
    requires KeepsHistory(AppendEvent(db, id, kind, actor, data, key, to, occurredAt).db, later)
    ensures AppendEvent(later, id, kind, actor, data, key, to, occurredAt)
         == Tx(later, AppendEvent(db, id, kind, actor, data, key, to, occurredAt).result)
  {
    hide Commit;
    var first := AppendEvent(db, id, kind, actor, data, key, to, occurredAt);
    Recorded(db, id, kind, actor, data, key, to, occurredAt);
    FoundStays(Journal(first.db, id), Journal(later, id), key);
  }

  /** The step repeats, word for word, a call of the run so far that succeeded. */
  ghost predicate Repeats(db: Db, run: seq<Step>, step: Step) {
    && (step.AppendStep? || step.TransitionStep?)
    && exists i :: 0 <= i < |run| && run[i] == step && Answer(Run(db, run[..i]), step).Ok?
  }

  /** `padded` is `base` with repeats of earlier successful calls put in anywhere. */
  ghost predicate Padded(db: Db, base: seq<Step>, padded: seq<Step>)
    decreases |padded|
  {
    if padded == [] then base == []
    else
      var front, last := padded[..|padded| - 1], padded[|padded| - 1];
      || (base != [] && last == base[|base| - 1] && Padded(db, base[..|base| - 1], front))
      || (Repeats(db, front, last) && Padded(db, base, front))
  }

  /** Exactly once: a run with retries ends in the same store as the run without them. */
  lemma {:induction false} RetriesChangeNothing(db: Db, base: seq<Step>, padded: seq<Step>)
    requires Floor(db) && Padded(db, base, padded)
    ensures Run(db, padded) == Run(db, base)
    decreases |padded|
  {
    hide Apply, Floor;
    if padded != [] {
      var front, last := padded[..|padded| - 1], padded[|padded| - 1];
      if base != [] && last == base[|base| - 1] && Padded(db, base[..|base| - 1], front) {
        RetriesChangeNothing(db, base[..|base| - 1], front);
      } else {
        RetriesChangeNothing(db, base, front);
        RepeatIsNoop(db, front, last);
      }
    }
  }

  lemma RepeatIsNoop(db: Db, run: seq<Step>, step: Step)
    requires Floor(db) && Repeats(db, run, step)
    ensures Apply(Run(db, run), step) == Run(db, run)
  {
    hide Apply, Answer, KeepsHistory, Floor;
    var i :| 0 <= i < |run| && run[i] == step && Answer(Run(db, run[..i]), step).Ok?;
    StepOfRun(db, run, i);
    RetryAnswered(Run(db, run[..i]), Run(db, run), step);
  }

  /** What a run ends in extends what any of its steps ended in. */
  lemma StepOfRun(db: Db, run: seq<Step>, i: nat)
    requires Floor(db) && i < |run|
    ensures KeepsHistory(Apply(Run(db, run[..i]), run[i]), Run(db, run))
  {
    hide Apply, KeepsHistory, Floor;
    var until := run[..i + 1];
    assert until[..i] == run[..i] && until + run[i + 1..] == run && [] + until == until;
    RunEvolves(db, [], until);
    RunEvolves(db, until, run[i + 1..]);
  }

  // ----- the head hash -----

  /** Two journals that replay and end in the same hash are the same journal of the same session, event by event. */
  lemma {:induction false} HeadHashCommits(id: Digest, events: seq<Event>, otherId: Digest, others: seq<Event>)
    requires Chained(id, events) && Chained(otherId, others) && events != [] && others != []
    requires HashAfter(events) == HashAfter(others)
    ensures id == otherId && events == others
    decreases |events|
  {
    var n, m := |events|, |others|;
    assert Linked(id, events, n - 1) && Linked(otherId, others, m - 1);
    assert events[n - 1] == others[m - 1] && n == m;
    if n > 1 {
      ChainPrefix(id, events, n - 1);
      ChainPrefix(otherId, others, n - 1);
      HeadHashCommits(id, events[..n - 1], otherId, others[..n - 1]);
    }
    assert events == events[..n - 1] + [events[n - 1]];
    assert others == others[..n - 1] + [others[n - 1]];
  }

  lemma ChainPrefix(id: Digest, events: seq<Event>, n: nat)
    requires Chained(id, events) && n <= |events|
    ensures Chained(id, events[..n])
  {
    forall i | 0 <= i < n ensures Linked(id, events[..n], i) {
      assert Linked(id, events, i);
      assert events[..n][..i] == events[..i];
    }
  }
}
