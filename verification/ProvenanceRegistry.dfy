/** The registry object: each method against the additions and the validity of `Provenance`. */
module ProvenanceRegistry {
  import opened Common
  import opened Provenance
  import opened ProvenanceReload
  import opened ProvenanceRuns
  import opened ProvenanceSave
  import L = Lifecycle

  /** In `order` every claim comes after its parents. */
  ghost predicate ParentsFirst(graph: map<Id, set<Id>>, order: seq<Id>) {
    forall i :: 0 <= i < |order| ==> order[i] in graph && forall p :: p in Parents(graph[order[i]]) ==> p in order[..i]
  }

  /** The lineage of every claim on file, and of the one being added. */
  function LineageGraph(claims: map<Id, Claim>, id: Id, lineage: set<Id>): map<Id, set<Id>> {
    (map c | c in claims :: Members(claims[c].lineage))[id := lineage]
  }

  /** The persistent registry file. */
  class RegistryFile {
    var content: Option<Document>

    constructor ()
      ensures content == None
    {
      content := None;
    }
  }

  class Registry {
    var sources: map<Id, Source>
    var receipts: map<Id, Receipt>
    var claims: map<Id, Claim>
    var journal: seq<Event>
    var loading: bool
    ghost var order: seq<Id>

    function Now(): State
      reads this
    {
      State(sources, receipts, claims, journal)
    }

    ghost predicate Valid()
      reads this
    {
      Intact(Now(), order)
    }

    constructor ()
      ensures Valid() && Now() == EMPTY && !loading
    {
      sources, receipts, claims, journal, loading, order := map[], map[], map[], [], false, [];
    }

    method AppendJournal(kind: string, id: Id, actor: string, at: Stamp) returns (r: Result<(), Problem>)
      modifies this`journal
      ensures r == if L.Blank(actor) then Err(BlankActor) else Ok(())
      ensures journal == if L.Blank(actor) then old(journal)
                         else old(journal) + [MakeEvent(kind, id, actor, at, Head(old(journal)))]
    {
      if L.Blank(actor) { return Err(BlankActor); }
      var previous := if journal == [] then NoDigest else journal[|journal| - 1].hash;
      journal := journal + [MakeEvent(kind, id, actor, at, previous)];
      return Ok(());
    }

    method AddSource(record: Source, actor: string, at: Stamp) returns (r: Result<Record, Problem>)
      requires Valid()
      modifies this`sources, this`journal
      ensures Valid() && (Now(), r) == Add(old(Now()), OfSource(record), actor, at, loading)
    {
      hide Intact, SourceProblem;
      IntactAdd(Now(), order, OfSource(record), actor, at, loading);
      var problem := SourceProblem(record);
      if problem.Some? { return Err(problem.value); }
      var id := SourceIdOf(record);
      var existed := id in sources;
      if record.id != id { return Err(IdMismatch); }
      if existed && sources[id] != record { return Err(Mutation); }
      sources := sources[id := record];
      if !existed && !loading {
        var entered := AppendJournal(SOURCE, id, actor, at);
        if entered.Err? { return Err(entered.error); }
      }
      return Ok(OfSource(record));
    }

    method AddValidationReceipt(record: Receipt, actor: string, at: Stamp) returns (r: Result<Record, Problem>)
      requires Valid()
      modifies this`receipts, this`journal
      ensures Valid() && (Now(), r) == Add(old(Now()), OfReceipt(record), actor, at, loading)
    {
      hide Intact;
      IntactAdd(Now(), order, OfReceipt(record), actor, at, loading);
      var problem := ReceiptProblem(Now(), record);
      if problem.Some? { return Err(problem.value); }
      var id := ReceiptIdOf(record);
      var existed := id in receipts;
      if record.id != id { return Err(IdMismatch); }
      if existed && receipts[id] != record { return Err(Mutation); }
      receipts := receipts[id := record];
      if !existed && !loading {
        var entered := AppendJournal(RECEIPT, id, actor, at);
        if entered.Err? { return Err(entered.error); }
      }
      return Ok(OfReceipt(record));
    }

    /** The depth-first search for a cycle through claims: it ends, and never finds one. */
    method VisitLineage(graph: map<Id, set<Id>>, current: Id, path: set<Id>, ghost ranked: seq<Id>, ghost k: nat)
      returns (cyclic: bool)
      requires ParentsFirst(graph, ranked) && Unique(ranked) && k < |ranked| && ranked[k] == current
      requires forall i :: 0 <= i <= k ==> ranked[i] !in path
      ensures !cyclic
      decreases k
    {
      cyclic := current in path;
      var todo := if current in graph then graph[current] else {};
      while todo != {} && !cyclic
        invariant todo <= graph[current] && !cyclic
        decreases |todo|
      {
        var parent :| parent in todo;
        todo := todo - {parent};
        if parent.ClaimId? {
          ghost var j := PlaceOf(ranked, k, graph[current], parent);
          cyclic := VisitLineage(graph, parent, path + {current}, ranked, j);
        }
      }
    }

    ghost function PlaceOf(ranked: seq<Id>, k: nat, lineage: set<Id>, parent: Id): (j: nat)
      requires k < |ranked| && parent in Parents(lineage) && forall p :: p in Parents(lineage) ==> p in ranked[..k]
      ensures j < k && ranked[j] == parent
    {
      var j :| 0 <= j < k && ranked[..k][j] == parent; j
    }

    /** The whole lineage check, search included. */
    method ValidateClaimLineage(record: Claim, id: Id, lineage: set<Id>) returns (problem: Option<Problem>)
      requires Valid() && id == ClaimIdOf(record) && lineage == Members(record.lineage)
      ensures problem == LineageProblem(Now(), id, lineage)
    {
      hide Intact, Addressed, Admitted, Ordered, ParentsFirst, LineageGraph;
      if !(lineage <= Known(Now())) { return Some(UnknownLineage); }
      if id in lineage { return Some(SelfLineage); }
      var graph := LineageGraph(claims, id, lineage);
      ghost var ranked := if id in claims then order else order + [id];
      ghost var k := Ranking(Now(), order, record, ranked);
      var cyclic := VisitLineage(graph, id, {}, ranked, k);
      problem := if cyclic then Some(LineageCycle) else None;
    }

    /** Every check of a claim that comes before its id is compared. */
    method CheckClaim(record: Claim) returns (problem: Option<Problem>)
      requires Valid()
      ensures problem == ClaimProblem(Now(), record)
    {
      hide Intact, GateTraceOk, LineageProblem;
      if !GateTraceOk(record.gateTrace) { return Some(BadGateTrace); }
      if record.status == "unknown" && record.confidence.Some? { return Some(UnknownWithConfidence); }
      if record.confidence.Some? && !(0.0 <= record.confidence.value <= 1.0) { return Some(ConfidenceRange); }
      if record.status == "verified" && record.sources == [] { return Some(VerifiedWithoutSource); }
      if !(Members(record.sources) <= sources.Keys) { return Some(UnknownSource); }
      if record.supersedes.Some? && record.supersedes.value !in claims { return Some(UnknownClaim); }
      if !(Members(record.receipts) <= receipts.Keys) { return Some(UnknownReceipt); }
      if record.words == [] { return Some(EmptyText); }
      problem := ValidateClaimLineage(record, ClaimIdOf(record), Members(record.lineage));
    }

    method AddClaim(record: Claim, actor: string, at: Stamp) returns (r: Result<Record, Problem>)
      requires Valid()
      modifies this`claims, this`journal, this`order
      ensures Valid() && (Now(), r) == Add(old(Now()), OfClaim(record), actor, at, loading)
    {
      hide Intact, ClaimProblem;
      IntactAdd(Now(), order, OfClaim(record), actor, at, loading);
      var problem := CheckClaim(record);
      if problem.Some? { return Err(problem.value); }
      var id := ClaimIdOf(record);
      var existed := id in claims;
      if record.id != id { return Err(IdMismatch); }
      if existed && claims[id] != record { return Err(Mutation); }
      order := NextOrder(Now(), order, OfClaim(record));
      claims := claims[id := record];
      if !existed && !loading {
        var entered := AppendJournal(CLAIM, id, actor, at);
        if entered.Err? { return Err(entered.error); }
      }
      return Ok(OfClaim(record));
    }

    /** Accepts exactly the journals that are a chain with one event for every record. */
    method ValidateJournal() returns (problem: Option<Problem>)
      ensures problem == if JournalValid(Now()) then None else Some(JournalInvalid)
    {
      hide Fits, Known, Consistent, Subjects;
      var previous := NoDigest;
      var seen: set<EventId> := {};
      var referenced: set<Id> := {};
      assert Consistent(Now(), []) by { NothingEntered(Now()); }
      assert referenced == Subjects([]) by { NothingEntered(Now()); }
      for k := 0 to |journal|
        invariant previous == Head(journal[..k]) && referenced == Subjects(journal[..k])
        invariant forall id :: id in seen ==> SeenBefore(journal[..k], id)
        invariant Consistent(Now(), journal[..k])
      {
        var event := journal[k];
        assert journal[..k + 1] == journal[..k] + [event];
        ConsistentMore(Now(), journal[..k], event);
        if JournalValid(Now()) { ConsistentPrefix(Now(), journal, k + 1); }
        if !Fits(Now(), event, previous) { return Some(JournalInvalid); }
        IdsNew(Now(), journal[..k], event, seen);
        if event.id in seen || event.body.record in referenced { return Some(JournalInvalid); }
        SubjectsMore(journal[..k], event);
        seen := seen + {event.id};
        referenced := referenced + {event.body.record};
        previous := event.hash;
      }
      assert journal[..|journal|] == journal;
      problem := if referenced == Known(Now()) then None else Some(JournalInvalid);
    }

    /** Fills an empty registry from a document, record by record, then checks the journal and the root. */
    method LoadDocument(d: Document) returns (problem: Option<Problem>)
      requires Valid() && Now() == EMPTY
      modifies this
      ensures Valid() && !loading
      ensures match Restore(d)
              case Ok(s) => problem == None && Now() == s
              case Err(e) => problem == Some(e)
    {
      hide Intact, Add, JournalValid;
      loading := true;
      problem := LoadRecordsOf(d);
      loading := false;
      if problem.Some? { return; }
      var events := if d.journal.Some? then d.journal.value else [];
      if d.journal.None? { events := LegacyJournal(d); }
      JournalAlone(Now(), order, events);
      journal := events;
      problem := ValidateJournal();
      if problem.None? && d.root.Some? && d.root.value != RootOf(Now()) { problem := Some(RootMismatch); }
    }

    /** Events made up for the records of a document that came without a journal, in the order of their dictionaries. */
    static method LegacyJournal(d: Document) returns (events: seq<Event>)
      ensures events == ImportJournal(Listed(d))
    {
      var records := Listed(d);
      events := [];
      for k := 0 to |records|
        invariant events == ImportJournal(records[..k])
      {
        assert records[..k + 1][..k] == records[..k];
        var r := records[k];
        events := events + [MakeEvent(KindOf(r), IdOf(r), "legacy-import", CapturedAt(r), Head(events))];
      }
      assert records[..|records|] == records;
    }

    method LoadRecordsOf(d: Document) returns (problem: Option<Problem>)
      requires Valid() && Now() == EMPTY && loading
      modifies this`sources, this`receipts, this`claims, this`journal, this`order
      ensures Valid()
      ensures match LoadRecords(d)
              case Ok(s) => problem == None && Now() == s
              case Err(e) => problem == Some(e)
    {
      hide Intact, Add;
      for k := 0 to |d.sources|
        invariant Valid() && LoadSources(EMPTY, d.sources[..k]) == Ok(Now())
      {
        assert d.sources[..k + 1][..k] == d.sources[..k];
        var added := AddSource(d.sources[k], "system", L.Instant(""));
        if added.Err? {
          SourcesStop(EMPTY, d.sources, k + 1);
          return Some(added.error);
        }
      }
      assert d.sources[..|d.sources|] == d.sources;
      ghost var base := Now();
      for k := 0 to |d.receipts|
        invariant Valid() && LoadReceipts(base, d.receipts[..k]) == Ok(Now())
      {
        assert d.receipts[..k + 1][..k] == d.receipts[..k];
        var added := AddValidationReceipt(d.receipts[k], "system", L.Instant(""));
        if added.Err? {
          ReceiptsStop(base, d.receipts, k + 1);
          return Some(added.error);
        }
      }
      assert d.receipts[..|d.receipts|] == d.receipts;
      base := Now();
      for k := 0 to |d.claims|
        invariant Valid() && LoadClaims(base, d.claims[..k]) == Ok(Now())
      {
        assert d.claims[..k + 1][..k] == d.claims[..k];
        var added := AddClaim(d.claims[k], "system", L.Instant(""));
        if added.Err? {
          ClaimsStop(base, d.claims, k + 1);
          return Some(added.error);
        }
      }
      assert d.claims[..|d.claims|] == d.claims;
      problem := None;
    }

    /** Whether this registry keeps every record and every event of an earlier one. */
    method AssertExtension(previous: Registry) returns (ok: bool)
      ensures ok <==> Extends(previous.Now(), Now())
    {
      ok := Keeps(previous.sources, sources);
      if ok { ok := Keeps(previous.claims, claims); }
      if ok { ok := Keeps(previous.receipts, receipts); }
      ok := ok && previous.journal <= journal;
    }

    /** Replaces the file's content, unless it changed since `expected` was read or would lose something. */
    method Save(target: RegistryFile, expected: Option<Root>, listing: Listing) returns (r: Result<Root, SaveError>)
      requires Valid() && Lists(listing, Now())
      modifies target
      ensures match SaveTo(old(target.content), Now(), listing, expected)
              case Ok(d) => r == Ok(RootOf(Now())) && target.content == Some(d)
              case Err(e) => r == Err(e) && target.content == old(target.content)
    {
      hide Intact, Extends, Restore, Lists;
      if target.content.Some? {
        var previous := new Registry();
        var problem := previous.LoadDocument(target.content.value);
        if problem.Some? { return Err(Unreadable(problem.value)); }
        if expected.None? { return Err(RootRequired); }
        if RootOf(previous.Now()) != expected.value { return Err(ChangedConcurrently); }
        var extends_ := AssertExtension(previous);
        if !extends_ { return Err(NotAnExtension); }
      } else if expected.Some? {
        return Err(NothingStored);
      }
      target.content := Some(ToDocument(Now(), listing));
      return Ok(RootOf(Now()));
    }
  }

  /** Every entry of one map is an entry of another. */
  method Keeps<R(==)>(before: map<Id, R>, after: map<Id, R>) returns (ok: bool)
    ensures ok <==> forall id :: id in before ==> id in after && after[id] == before[id]
  {
    ok := true;
    var todo := before.Keys;
    while todo != {} && ok
      invariant todo <= before.Keys
      invariant ok <==> forall id :: id in before && id !in todo ==> id in after && after[id] == before[id]
      decreases |todo|
    {
      var id :| id in todo;
      todo := todo - {id};
      ok := id in after && after[id] == before[id];
    }
  }

  lemma {:induction false} SourcesStop(s: State, records: seq<Source>, k: nat)
    requires k <= |records| && LoadSources(s, records[..k]).Err?
    ensures LoadSources(s, records) == LoadSources(s, records[..k])
    decreases |records|
  {
    if k == |records| {
      assert records[..k] == records;
    } else {
      assert records[..|records| - 1][..k] == records[..k];
      SourcesStop(s, records[..|records| - 1], k);
    }
  }

  lemma {:induction false} ReceiptsStop(s: State, records: seq<Receipt>, k: nat)
    requires k <= |records| && LoadReceipts(s, records[..k]).Err?
    ensures LoadReceipts(s, records) == LoadReceipts(s, records[..k])
    decreases |records|
  {
    if k == |records| {
      assert records[..k] == records;
    } else {
      assert records[..|records| - 1][..k] == records[..k];
      ReceiptsStop(s, records[..|records| - 1], k);
    }
  }

  lemma {:induction false} ClaimsStop(s: State, records: seq<Claim>, k: nat)
    requires k <= |records| && LoadClaims(s, records[..k]).Err?
    ensures LoadClaims(s, records) == LoadClaims(s, records[..k])
    decreases |records|
  {
    if k == |records| {
      assert records[..k] == records;
    } else {
      assert records[..|records| - 1][..k] == records[..k];
      ClaimsStop(s, records[..|records| - 1], k);
    }
  }

  lemma JournalAlone(s: State, order: seq<Id>, journal: seq<Event>)
    requires Intact(s, order)
    ensures Intact(s.(journal := journal), order)
  {
    IntactIgnoresJournal(s, s.(journal := journal), order);
  }

  ghost predicate SeenBefore(journal: seq<Event>, id: EventId) { exists i :: 0 <= i < |journal| && journal[i].id == id }

  lemma NothingEntered(s: State)
    ensures Consistent(s, []) && Subjects([]) == {}
  {
  }

  lemma SubjectsMore(journal: seq<Event>, e: Event)
    ensures Subjects(journal + [e]) == Subjects(journal) + {e.body.record}
  {
    assert forall x :: x in journal + [e] <==> x in journal || x == e;
  }

  lemma IdsNew(s: State, journal: seq<Event>, e: Event, seen: set<EventId>)
    requires Consistent(s, journal) && Fits(s, e, Head(journal)) && forall id :: id in seen ==> SeenBefore(journal, id)
    ensures e.id !in seen
  {
    IdsNeverRepeat(s, journal, e);
  }

  /** An event id commits to everything before the event, so no later event repeats it. */
  lemma IdsNeverRepeat(s: State, journal: seq<Event>, e: Event)
    requires AllFit(s, journal) && Fits(s, e, Head(journal))
    ensures !SeenBefore(journal, e.id)
  {
    hide RecordsOf;
    forall i | 0 <= i < |journal| ensures journal[i].id != e.id {
      assert Fits(s, journal[i], Head(journal[..i]));
      if journal[i].id == e.id {
        forall k | 0 <= k < i ensures Fits(s, journal[..i][k], Head(journal[..i][..k])) {
          assert journal[..i][..k] == journal[..k];
        }
        HeadCommits(s, journal[..i], s, journal);
      }
    }
  }

  /** Read along the order of insertion, the graph of the search has parents first. */
  lemma Ranking(s: State, order: seq<Id>, c: Claim, ranked: seq<Id>) returns (k: nat)
    requires Intact(s, order) && Members(c.lineage) <= Known(s)
    requires ranked == if ClaimIdOf(c) in s.claims then order else order + [ClaimIdOf(c)]
    ensures ParentsFirst(LineageGraph(s.claims, ClaimIdOf(c), Members(c.lineage)), ranked) && Unique(ranked)
    ensures k < |ranked| && ranked[k] == ClaimIdOf(c)
  {
    hide ClaimIdOf, Addressed, Admitted, Members;
    var id := ClaimIdOf(c);
    var graph := LineageGraph(s.claims, id, Members(c.lineage));
    if id in s.claims {
      SameLineage(s, c);
      k := PlaceIn(s, order, id);
    } else {
      KeysListed(s, order, id);
      KnownParents(s, order, c);
      k := |order|;
    }
    forall i | 0 <= i < |ranked|
      ensures ranked[i] in graph && forall p :: p in Parents(graph[ranked[i]]) ==> p in ranked[..i]
    {
      assert i < |order| ==>
        ranked[..i] == order[..i] && ranked[i] == order[i] && Rests(s.claims[order[i]], order[..i]);
      assert i == |order| ==> ranked[..i] == order;
    }
  }

  lemma PlaceIn(s: State, order: seq<Id>, id: Id) returns (k: nat)
    requires Ordered(s, order) && id in s.claims
    ensures k < |order| && order[k] == id
  {
    assert id in Members(order);
    k :| 0 <= k < |order| && order[k] == id;
  }

  /** Two claims with one id have one lineage. */
  lemma SameLineage(s: State, c: Claim)
    requires Addressed(s) && ClaimIdOf(c) in s.claims
    ensures Members(s.claims[ClaimIdOf(c)].lineage) == Members(c.lineage)
  {
  }
}
