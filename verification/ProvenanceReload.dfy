/** Writing a registry out and reading it back: records are added again in sorted order, claims included. */
module ProvenanceReload {
  import opened Common
  import opened Provenance
  import L = Lifecycle

  datatype Root = Root(sources: map<Id, Source>, receipts: map<Id, Receipt>, claims: map<Id, Claim>)

  /** The root hash covers the records and not the journal. */
  function RootOf(s: State): Root { Root(s.sources, s.receipts, s.claims) }

  /** Older documents have neither root nor journal. */
  datatype Document = Document(
    root: Option<Root>, sources: seq<Source>, receipts: seq<Receipt>, claims: seq<Claim>, journal: Option<seq<Event>>)

  /** The records' ids in the order of their texts, kind by kind. */
  datatype Listing = Listing(sources: seq<Id>, receipts: seq<Id>, claims: seq<Id>)

  ghost predicate Lists(l: Listing, s: State) {
    && Unique(l.sources) && Members(l.sources) == s.sources.Keys
    && Unique(l.receipts) && Members(l.receipts) == s.receipts.Keys
    && Unique(l.claims) && Members(l.claims) == s.claims.Keys
  }

  function Select<R>(held: map<Id, R>, ids: seq<Id>): seq<R>
    requires Members(ids) <= held.Keys
  {
    seq(|ids|, k requires 0 <= k < |ids| => assert ids[k] in Members(ids); held[ids[k]])
  }

  function ToDocument(s: State, l: Listing): Document
    requires Lists(l, s)
  {
    Document(Some(RootOf(s)), Select(s.sources, l.sources), Select(s.receipts, l.receipts), Select(s.claims, l.claims),
             Some(s.journal))
  }

  function Loaded(s: State, r: Record): Result<State, Problem> {
    var (t, result) := Add(s, r, "system", L.Instant(""), true);
    if result.Ok? then Ok(t) else Err(result.error)
  }

  function LoadSources(s: State, records: seq<Source>): Result<State, Problem> {
    if records == [] then Ok(s)
    else
      var front := LoadSources(s, records[..|records| - 1]);
      if front.Err? then front else Loaded(front.value, OfSource(records[|records| - 1]))
  }

  function LoadReceipts(s: State, records: seq<Receipt>): Result<State, Problem> {
    if records == [] then Ok(s)
    else
      var front := LoadReceipts(s, records[..|records| - 1]);
      if front.Err? then front else Loaded(front.value, OfReceipt(records[|records| - 1]))
  }

  function LoadClaims(s: State, records: seq<Claim>): Result<State, Problem> {
    if records == [] then Ok(s)
    else
      var front := LoadClaims(s, records[..|records| - 1]);
      if front.Err? then front else Loaded(front.value, OfClaim(records[|records| - 1]))
  }

  function LoadRecords(d: Document): Result<State, Problem> {
    var a := LoadSources(EMPTY, d.sources);
    if a.Err? then a
    else
      var b := LoadReceipts(a.value, d.receipts);
      if b.Err? then b else LoadClaims(b.value, d.claims)
  }

  // ----- the journal of a document that has none -----

  const EPOCH := L.Instant("1970-01-01T00:00:00Z")

  function CapturedAt(r: Record): Stamp {
    var captured :=
      match r case OfSource(x) => x.captured case OfReceipt(x) => x.captured case OfClaim(x) => x.captured;
    if captured.None? || captured.value.text == "" then EPOCH else captured.value
  }

  /** Each record once, in the order it first came in: the order in which a dictionary keeps them. */
  function Firsts<R(==, !new)>(items: seq<R>): (r: seq<R>)
    ensures Unique(r) && forall x :: x in r <==> x in items
  {
    if items == [] then []
    else
      var front := Firsts(items[..|items| - 1]);
      var last := items[|items| - 1];
      assert items == items[..|items| - 1] + [last];
      if last in front then front else front + [last]
  }

  function Listed(d: Document): seq<Record> {
    var a, b, c := Firsts(d.sources), Firsts(d.receipts), Firsts(d.claims);
    seq(|a|, i requires 0 <= i < |a| => OfSource(a[i])) + seq(|b|, i requires 0 <= i < |b| => OfReceipt(b[i]))
      + seq(|c|, i requires 0 <= i < |c| => OfClaim(c[i]))
  }

  /** One event for each record, in the name of the import. */
  function ImportJournal(records: seq<Record>): seq<Event> {
    if records == [] then []
    else
      var front := ImportJournal(records[..|records| - 1]);
      var r := records[|records| - 1];
      front + [MakeEvent(KindOf(r), IdOf(r), "legacy-import", CapturedAt(r), Head(front))]
  }

  function JournalOf(d: Document): seq<Event> { if d.journal.Some? then d.journal.value else ImportJournal(Listed(d)) }

  ghost function Restore(d: Document): Result<State, Problem> {
    var records := LoadRecords(d);
    if records.Err? then records
    else
      var s := records.value.(journal := JournalOf(d));
      if !JournalValid(s) then Err(JournalInvalid)
      else if d.root.Some? && d.root.value != RootOf(s) then Err(RootMismatch)
      else Ok(s)
  }

  // ----- what reading back yields -----

  /** The part of a map that a list of keys names. */
  function Part<R>(held: map<Id, R>, ids: seq<Id>): map<Id, R> { map id | id in ids && id in held :: held[id] }

  lemma PartMore<R>(held: map<Id, R>, ids: seq<Id>, k: nat)
    requires k < |ids| && ids[k] in held
    ensures Part(held, ids[..k + 1]) == Part(held, ids[..k])[ids[k] := held[ids[k]]]
    ensures Unique(ids) ==> ids[k] !in Part(held, ids[..k])
  {
    assert ids[..k + 1] == ids[..k] + [ids[k]];
  }

  lemma NoPart<R>(held: map<Id, R>)
    ensures Part(held, []) == map[]
  {
  }

  lemma PartAll<R>(held: map<Id, R>, ids: seq<Id>)
    requires Members(ids) == held.Keys
    ensures Part(held, ids) == held
  {
    forall id ensures id in ids <==> id in held { assert id in Members(ids) <==> id in held; }
  }

  function Sources(s: State, ids: seq<Id>): State { State(Part(s.sources, ids), map[], map[], []) }
  function Receipts(s: State, ids: seq<Id>): State { State(s.sources, Part(s.receipts, ids), map[], []) }
  function Claims(s: State, ids: seq<Id>): State { State(s.sources, s.receipts, Part(s.claims, ids), []) }

  /** A record whose id is free is filed, or refused by the checks of its kind. */
  lemma LoadStep(t: State, r: Record)
    requires Held(t, r).None? && Supplied(r) == IdOf(r)
    ensures Loaded(t, r) == if Refusal(t, r).Some? then Err(Refusal(t, r).value) else Ok(Filed(t, r))
  {
    hide Refusal;
  }

  lemma ReceiptStep(s: State, ids: seq<Id>, id: Id)
    requires Addressed(s) && Admitted(s) && id in s.receipts && id !in Part(s.receipts, ids)
    ensures Loaded(Receipts(s, ids), OfReceipt(s.receipts[id])) ==
      Ok(Receipts(s, ids).(receipts := Part(s.receipts, ids)[id := s.receipts[id]]))
  {
    hide ReceiptProblem, SourceIdOf, ReceiptIdOf, ClaimIdOf, Loaded, SourceProblem, ClaimProblem;
    LoadStep(Receipts(s, ids), OfReceipt(s.receipts[id]));
    ReceiptStays(s, Receipts(s, ids), s.receipts[id]);
  }

  lemma SourceStep(s: State, ids: seq<Id>, id: Id)
    requires Addressed(s) && Admitted(s) && id in s.sources && id !in Part(s.sources, ids)
    ensures Loaded(Sources(s, ids), OfSource(s.sources[id])) ==
      Ok(Sources(s, ids).(sources := Part(s.sources, ids)[id := s.sources[id]]))
  {
    hide ReceiptProblem, SourceIdOf, ReceiptIdOf, ClaimIdOf, Loaded, SourceProblem, ClaimProblem;
    LoadStep(Sources(s, ids), OfSource(s.sources[id]));
  }

  lemma {:induction false} SourcesLoad(s: State, ids: seq<Id>, k: nat)
    requires Addressed(s) && Admitted(s) && Unique(ids) && Members(ids) == s.sources.Keys && k <= |ids|
    ensures LoadSources(EMPTY, Select(s.sources, ids)[..k]) == Ok(Sources(s, ids[..k]))
  {
    hide Addressed, Admitted, Loaded, Part;
    var records := Select(s.sources, ids);
    if k == 0 {
      NoPart(s.sources);
      assert ids[..0] == [];
    } else {
      SourcesLoad(s, ids, k - 1);
      assert ids[k - 1] in Members(ids);
      PartMore(s.sources, ids, k - 1);
      SourceStep(s, ids[..k - 1], ids[k - 1]);
      assert records[..k][..k - 1] == records[..k - 1];
    }
  }

  lemma {:induction false} ReceiptsLoad(s: State, ids: seq<Id>, k: nat)
    requires Addressed(s) && Admitted(s) && Unique(ids) && Members(ids) == s.receipts.Keys && k <= |ids|
    ensures LoadReceipts(State(s.sources, map[], map[], []), Select(s.receipts, ids)[..k]) == Ok(Receipts(s, ids[..k]))
  {
    hide Addressed, Admitted, Loaded, Part;
    var records := Select(s.receipts, ids);
    if k == 0 {
      NoPart(s.receipts);
      assert ids[..0] == [];
    } else {
      ReceiptsLoad(s, ids, k - 1);
      assert ids[k - 1] in Members(ids);
      PartMore(s.receipts, ids, k - 1);
      assert records[..k][..k - 1] == records[..k - 1];
      ReceiptStep(s, ids[..k - 1], ids[k - 1]);
    }
  }

  /** A claim read back is accepted exactly when its parents, and the claim it supersedes, are already there. */
  lemma ClaimLoads(s: State, ids: seq<Id>, c: Claim)
    requires Addressed(s) && ClaimProblem(s, c).None?
    ensures ClaimProblem(Claims(s, ids), c).None? <==> Rests(c, ids)
  {
    hide GateTraceOk, ClaimIdOf;
    var t := Claims(s, ids);
    assert Members(c.lineage) <= Known(t) <==> forall p :: p in Parents(Members(c.lineage)) ==> p in ids by {
      LineageThere(s, ids, Members(c.lineage));
    }
  }

  lemma LineageThere(s: State, ids: seq<Id>, lineage: set<Id>)
    requires Addressed(s) && lineage <= Known(s)
    ensures lineage <= Known(Claims(s, ids)) <==> forall p :: p in Parents(lineage) ==> p in ids
  {
    hide SourceIdOf, ReceiptIdOf, ClaimIdOf;
    var t := Claims(s, ids);
    forall p | p in lineage ensures p in Known(t) <==> !p.ClaimId? || p in ids {
      KindsApart(s, p);
    }
  }

  lemma KindsApart(s: State, p: Id)
    requires Addressed(s)
    ensures p in s.sources || p in s.receipts ==> !p.ClaimId?
    ensures p in s.claims ==> p.ClaimId?
  {
  }

  lemma ClaimStep(s: State, ids: seq<Id>, id: Id)
    requires Addressed(s) && Admitted(s) && id in s.claims && id !in Part(s.claims, ids)
    ensures var r := Loaded(Claims(s, ids), OfClaim(s.claims[id]));
            if Rests(s.claims[id], ids) then r == Ok(Claims(s, ids).(claims := Part(s.claims, ids)[id := s.claims[id]]))
            else r.Err?
  {
    hide ReceiptProblem, SourceIdOf, ReceiptIdOf, ClaimIdOf, Loaded, SourceProblem, ClaimProblem, Rests;
    LoadStep(Claims(s, ids), OfClaim(s.claims[id]));
    ClaimLoads(s, ids, s.claims[id]);
  }

  ghost predicate Follow(s: State, ids: seq<Id>, k: nat)
    requires Members(ids) == s.claims.Keys && k <= |ids|
  {
    forall i :: 0 <= i < k ==> ids[i] in s.claims && Rests(s.claims[ids[i]], ids[..i])
  }

  lemma {:induction false} ClaimsLoad(s: State, ids: seq<Id>, k: nat)
    requires Addressed(s) && Admitted(s) && Unique(ids) && Members(ids) == s.claims.Keys && k <= |ids|
    ensures var r := LoadClaims(Claims(s, []), Select(s.claims, ids)[..k]);
            if Follow(s, ids, k) then r == Ok(Claims(s, ids[..k])) else r.Err?
  {
    hide Addressed, Admitted, Loaded, Part, Rests;
    var records := Select(s.claims, ids);
    if k == 0 {
      assert ids[..0] == [];
    } else {
      ClaimsLoad(s, ids, k - 1);
      assert ids[k - 1] in Members(ids);
      PartMore(s.claims, ids, k - 1);
      assert records[..k][..k - 1] == records[..k - 1];
      ClaimStep(s, ids[..k - 1], ids[k - 1]);
    }
  }

  /**
   * A registry that was written out reads back exactly when its journal is valid and every claim sorts after its
   * parents and the claim it supersedes; and then it reads back unchanged.
   */
  lemma ReadsBackExactly(s: State, order: seq<Id>, l: Listing)
    requires Intact(s, order) && Lists(l, s)
    ensures Restore(ToDocument(s, l)).Ok? <==> JournalValid(s) && Ordered(s, l.claims)
    ensures Restore(ToDocument(s, l)).Ok? ==> Restore(ToDocument(s, l)).value == s
  {
    hide Addressed, Admitted, JournalValid, Rests;
    var d := ToDocument(s, l);
    SourcesLoad(s, l.sources, |l.sources|);
    ReceiptsLoad(s, l.receipts, |l.receipts|);
    ClaimsLoad(s, l.claims, |l.claims|);
    assert d.sources[..|l.sources|] == d.sources && d.receipts[..|l.receipts|] == d.receipts
      && d.claims[..|l.claims|] == d.claims;
    assert l.sources[..|l.sources|] == l.sources && l.receipts[..|l.receipts|] == l.receipts
      && l.claims[..|l.claims|] == l.claims;
    PartAll(s.sources, l.sources);
    PartAll(s.receipts, l.receipts);
    PartAll(s.claims, l.claims);
    assert Receipts(s, l.receipts) == Claims(s, []);
    assert Follow(s, l.claims, |l.claims|) <==> Ordered(s, l.claims);
  }

  // ----- what an import without a journal comes to -----

  /** What loading records leaves: each of them under its own id, and nothing else. */
  ghost predicate HoldsSources(s: State, records: seq<Source>) {
    && (forall r :: r in records ==> SourceIdOf(r) in s.sources && s.sources[SourceIdOf(r)] == r)
    && (forall id :: id in s.sources ==> s.sources[id] in records && SourceIdOf(s.sources[id]) == id)
  }

  ghost predicate HoldsReceipts(s: State, records: seq<Receipt>) {
    && (forall r :: r in records ==> ReceiptIdOf(r) in s.receipts && s.receipts[ReceiptIdOf(r)] == r)
    && (forall id :: id in s.receipts ==> s.receipts[id] in records && ReceiptIdOf(s.receipts[id]) == id)
  }

  ghost predicate HoldsClaims(s: State, records: seq<Claim>) {
    && (forall r :: r in records ==> ClaimIdOf(r) in s.claims && s.claims[ClaimIdOf(r)] == r)
    && (forall id :: id in s.claims ==> s.claims[id] in records && ClaimIdOf(s.claims[id]) == id)
  }

  /** An accepted record is filed under its id, which was free or held the same record. */
  lemma LoadedFiles(s: State, r: Record)
    requires Loaded(s, r).Ok?
    ensures Loaded(s, r).value == Filed(s, r) && (Held(s, r).Some? ==> Held(s, r).value == r)
  {
    hide Refusal, IdOf, Supplied;
  }

  lemma SourceFiled(s: State, t: State, front: seq<Source>, last: Source)
    requires HoldsSources(s, front) && t == Filed(s, OfSource(last))
      && (SourceIdOf(last) in s.sources ==> s.sources[SourceIdOf(last)] == last)
    ensures HoldsSources(t, front + [last]) && t.receipts == s.receipts && t.claims == s.claims
  {
    hide SourceIdOf;
  }

  lemma {:induction false} SourcesHeld(records: seq<Source>)
    requires LoadSources(EMPTY, records).Ok?
    ensures var s := LoadSources(EMPTY, records).value;
      HoldsSources(s, records) && s.receipts == EMPTY.receipts && s.claims == EMPTY.claims
  {
    hide Loaded, HoldsSources, Filed, Held;
    if records == [] {
      NoSourcesHeld(EMPTY);
    } else {
      var front, last := records[..|records| - 1], records[|records| - 1];
      SourcesHeld(front);
      assert records == front + [last];
      var s := LoadSources(EMPTY, front).value;
      SourceFits(s, last);
      SourceFiled(s, LoadSources(EMPTY, records).value, front, last);
    }
  }

  lemma SourceFits(s: State, r: Source)
    requires Loaded(s, OfSource(r)).Ok?
    ensures Loaded(s, OfSource(r)).value == Filed(s, OfSource(r))
      && (SourceIdOf(r) in s.sources ==> s.sources[SourceIdOf(r)] == r)
  {
    hide Loaded, SourceIdOf;
    LoadedFiles(s, OfSource(r));
  }

  lemma NoSourcesHeld(s: State)
    requires s.sources == map[]
    ensures HoldsSources(s, [])
  {
  }

  lemma ReceiptFiled(s: State, t: State, front: seq<Receipt>, last: Receipt)
    requires HoldsReceipts(s, front) && t == Filed(s, OfReceipt(last))
      && (ReceiptIdOf(last) in s.receipts ==> s.receipts[ReceiptIdOf(last)] == last)
    ensures HoldsReceipts(t, front + [last]) && t.sources == s.sources && t.claims == s.claims
  {
    hide ReceiptIdOf;
  }

  lemma {:induction false} ReceiptsHeld(base: State, records: seq<Receipt>)
    requires base.receipts == map[] && LoadReceipts(base, records).Ok?
    ensures var s := LoadReceipts(base, records).value;
      HoldsReceipts(s, records) && s.sources == base.sources && s.claims == base.claims
  {
    hide Loaded, HoldsReceipts, Filed, Held;
    if records == [] {
      NoReceiptsHeld(base);
    } else {
      var front, last := records[..|records| - 1], records[|records| - 1];
      ReceiptsHeld(base, front);
      assert records == front + [last];
      var s := LoadReceipts(base, front).value;
      ReceiptFits(s, last);
      ReceiptFiled(s, LoadReceipts(base, records).value, front, last);
    }
  }

  lemma ReceiptFits(s: State, r: Receipt)
    requires Loaded(s, OfReceipt(r)).Ok?
    ensures Loaded(s, OfReceipt(r)).value == Filed(s, OfReceipt(r))
      && (ReceiptIdOf(r) in s.receipts ==> s.receipts[ReceiptIdOf(r)] == r)
  {
    hide Loaded, ReceiptIdOf;
    LoadedFiles(s, OfReceipt(r));
  }

  lemma NoReceiptsHeld(s: State)
    requires s.receipts == map[]
    ensures HoldsReceipts(s, [])
  {
  }

  lemma ClaimFiled(s: State, t: State, front: seq<Claim>, last: Claim)
    requires HoldsClaims(s, front) && t == Filed(s, OfClaim(last))
      && (ClaimIdOf(last) in s.claims ==> s.claims[ClaimIdOf(last)] == last)
    ensures HoldsClaims(t, front + [last]) && t.sources == s.sources && t.receipts == s.receipts
  {
    hide ClaimIdOf;
  }

  lemma {:induction false} ClaimsHeld(base: State, records: seq<Claim>)
    requires base.claims == map[] && LoadClaims(base, records).Ok?
    ensures var s := LoadClaims(base, records).value;
      HoldsClaims(s, records) && s.sources == base.sources && s.receipts == base.receipts
  {
    hide Loaded, HoldsClaims, Filed, Held;
    if records == [] {
      NoClaimsHeld(base);
    } else {
      var front, last := records[..|records| - 1], records[|records| - 1];
      ClaimsHeld(base, front);
      assert records == front + [last];
      var s := LoadClaims(base, front).value;
      ClaimFits(s, last);
      ClaimFiled(s, LoadClaims(base, records).value, front, last);
    }
  }

  lemma ClaimFits(s: State, r: Claim)
    requires Loaded(s, OfClaim(r)).Ok?
    ensures Loaded(s, OfClaim(r)).value == Filed(s, OfClaim(r))
      && (ClaimIdOf(r) in s.claims ==> s.claims[ClaimIdOf(r)] == r)
  {
    hide Loaded, ClaimIdOf;
    LoadedFiles(s, OfClaim(r));
  }

  lemma NoClaimsHeld(s: State)
    requires s.claims == map[]
    ensures HoldsClaims(s, [])
  {
  }

  /** The records of the state are the listed ones, each known by an id of its own. */
  ghost predicate ListedIn(s: State, records: seq<Record>) {
    && (forall i :: 0 <= i < |records| ==> IdOf(records[i]) in RecordsOf(s, KindOf(records[i])))
    && (forall i, j :: 0 <= i < j < |records| ==> IdOf(records[i]) != IdOf(records[j]))
    && (forall id :: id in Known(s) ==> exists i :: 0 <= i < |records| && IdOf(records[i]) == id)
  }

  lemma RecordsListed(d: Document)
    requires LoadRecords(d).Ok?
    ensures ListedIn(LoadRecords(d).value, Listed(d))
  {
    hide SourceIdOf, ReceiptIdOf, ClaimIdOf, LoadSources, LoadReceipts, LoadClaims, Firsts;
    var s := LoadRecords(d).value;
    SourcesHeld(d.sources);
    var a := LoadSources(EMPTY, d.sources).value;
    ReceiptsHeld(a, d.receipts);
    var b := LoadReceipts(a, d.receipts).value;
    ClaimsHeld(b, d.claims);
    var records := Listed(d);
    ListedApart(s, d);
    forall id | id in Known(s) ensures exists i :: 0 <= i < |records| && IdOf(records[i]) == id { ListedAll(s, d, id); }
  }

  lemma ListedApart(s: State, d: Document)
    requires HoldsSources(s, d.sources) && HoldsReceipts(s, d.receipts) && HoldsClaims(s, d.claims)
    ensures var records := Listed(d);
            && (forall i :: 0 <= i < |records| ==> IdOf(records[i]) in RecordsOf(s, KindOf(records[i])))
            && (forall i, j :: 0 <= i < j < |records| ==> IdOf(records[i]) != IdOf(records[j]))
  {
    hide Firsts;
    var records := Listed(d);
    forall i, j | 0 <= i < j < |records| ensures IdOf(records[i]) != IdOf(records[j]) {
      assert records[i] != records[j];
    }
  }

  lemma ListedAll(s: State, d: Document, id: Id)
    requires HoldsSources(s, d.sources) && HoldsReceipts(s, d.receipts) && HoldsClaims(s, d.claims) && id in Known(s)
    ensures exists i :: 0 <= i < |Listed(d)| && IdOf(Listed(d)[i]) == id
  {
    hide Firsts, SourceIdOf, ReceiptIdOf, ClaimIdOf;
    var a, b, c := Firsts(d.sources), Firsts(d.receipts), Firsts(d.claims);
    if id in s.sources {
      var i :| 0 <= i < |a| && a[i] == s.sources[id];
      assert Listed(d)[i] == OfSource(a[i]);
    } else if id in s.receipts {
      var i :| 0 <= i < |b| && b[i] == s.receipts[id];
      assert Listed(d)[|a| + i] == OfReceipt(b[i]);
    } else {
      var i :| 0 <= i < |c| && c[i] == s.claims[id];
      assert Listed(d)[|a| + |b| + i] == OfClaim(c[i]);
    }
  }

  lemma {:induction false} ImportedAt(records: seq<Record>, i: nat)
    requires i < |records|
    ensures |ImportJournal(records)| == |records| && ImportJournal(records)[..i] == ImportJournal(records[..i])
    ensures ImportJournal(records)[i] ==
            MakeEvent(KindOf(records[i]), IdOf(records[i]), "legacy-import", CapturedAt(records[i]),
                      Head(ImportJournal(records[..i])))
  {
    hide KindOf, IdOf, CapturedAt;
    var front := records[..|records| - 1];
    ImportLength(records);
    ImportLength(front);
    if i < |front| {
      ImportedAt(front, i);
      assert front[..i] == records[..i];
    } else {
      assert records[..i] == front;
    }
  }

  lemma {:induction false} ImportLength(records: seq<Record>)
    ensures |ImportJournal(records)| == |records|
  {
    hide KindOf, IdOf, CapturedAt;
    if records != [] { ImportLength(records[..|records| - 1]); }
  }

  lemma ImportFits(s: State, records: seq<Record>, i: nat)
    requires i < |records| && s.journal == ImportJournal(records)
      && IdOf(records[i]) in RecordsOf(s, KindOf(records[i]))
    ensures |s.journal| == |records| && s.journal[i].body.record == IdOf(records[i])
    ensures Fits(s, s.journal[i], Head(s.journal[..i])) <==> CapturedAt(records[i]).Instant?
  {
    hide KindOf, IdOf, CapturedAt, ImportJournal, Head;
    ImportedAt(records, i);
    assert "legacy-import"[0] == 'l' && !L.Blank("legacy-import");
  }

  /** The journal made for a document without one is valid exactly when every capture time can be read. */
  lemma ImportValidExactly(d: Document)
    requires d.journal.None? && LoadRecords(d).Ok?
    ensures JournalValid(LoadRecords(d).value.(journal := JournalOf(d))) <==>
      forall r :: r in Listed(d) ==> CapturedAt(r).Instant?
  {
    hide KindOf, IdOf, CapturedAt, LoadRecords, Listed, ImportJournal, Known, RecordsOf, Fits, EnteredOnce, Subjects,
         ListedIn;
    var records, loaded := Listed(d), LoadRecords(d).value;
    var s := loaded.(journal := JournalOf(d));
    RecordsListed(d);
    ImportLength(records);
    StillListed(loaded, s, records);
    forall i: nat | i < |records|
      ensures s.journal[i].body.record == IdOf(records[i])
      ensures Fits(s, s.journal[i], Head(s.journal[..i])) <==> CapturedAt(records[i]).Instant?
    {
      ImportFits(s, records, i);
    }
    SubjectsListed(s, records);
  }

  lemma StillListed(s: State, t: State, records: seq<Record>)
    requires ListedIn(s, records) && t == s.(journal := t.journal)
    ensures ListedIn(t, records)
    ensures forall i :: 0 <= i < |records| ==> IdOf(records[i]) in RecordsOf(t, KindOf(records[i]))
  {
    hide IdOf, KindOf;
    SameRecordsOf(s, t);
  }

  lemma SameRecordsOf(s: State, t: State)
    requires t == s.(journal := t.journal)
    ensures Known(t) == Known(s) && forall kind :: RecordsOf(t, kind) == RecordsOf(s, kind)
  {
  }

  lemma SubjectsListed(s: State, records: seq<Record>)
    requires ListedIn(s, records) && |s.journal| == |records|
    requires forall i :: 0 <= i < |records| ==> s.journal[i].body.record == IdOf(records[i])
    ensures EnteredOnce(s.journal) && Subjects(s.journal) == Known(s)
  {
    hide IdOf, KindOf;
    forall id | id in Subjects(s.journal) ensures id in Known(s) {
      var e :| e in s.journal && e.body.record == id;
      var i :| 0 <= i < |records| && s.journal[i] == e;
      assert IdOf(records[i]) in RecordsOf(s, KindOf(records[i]));
    }
    forall id | id in Known(s) ensures id in Subjects(s.journal) {
      var i :| 0 <= i < |records| && IdOf(records[i]) == id;
      assert s.journal[i] in s.journal;
    }
  }
}
