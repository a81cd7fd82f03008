/** Saving a registry over a shared file: clients load, add and save in any interleaving. */
module ProvenanceSave {
  import opened Common
  import opened Provenance
  import opened ProvenanceReload
  import opened ProvenanceRuns
  import L = Lifecycle

  datatype SaveError = Unreadable(problem: Problem) | RootRequired | ChangedConcurrently | NotAnExtension
    | NothingStored

  /** What a save leaves in the file; the file's own content is read back first. */
  ghost function SaveTo(content: Option<Document>, s: State, l: Listing,
                        expected: Option<Root>): Result<Document, SaveError>
    requires Lists(l, s)
  {
    match content
    case None => if expected.Some? then Err(NothingStored) else Ok(ToDocument(s, l))
    case Some(d) =>
      var previous := Restore(d);
      if previous.Err? then Err(Unreadable(previous.error))
      else if expected.None? then Err(RootRequired)
      else if RootOf(previous.value) != expected.value then Err(ChangedConcurrently)
      else if !Extends(previous.value, s) then Err(NotAnExtension)
      else Ok(ToDocument(s, l))
  }

  // ----- the protocol -----

  /** A client's registry, and the stored version it grew from. */
  datatype Client = Client(registry: State, base: Option<State>)

  /** The file, the clients, and every version the file has held. */
  datatype World = World(content: Option<Document>, clients: map<nat, Client>, history: seq<State>)

  datatype Move =
    | Open(client: nat)
    | Load(client: nat)
    | Offer(client: nat, step: Step)
    | Save(client: nat, expected: Option<Root>, listing: Listing)

  const NOTHING := World(None, map[], [])

  ghost function Apply(w: World, m: Move): World {
    match m
    case Open(c) => w.(clients := w.clients[c := Client(EMPTY, None)])
    case Load(c) =>
      if w.content.None? || Restore(w.content.value).Err? then w
      else
        var loaded := Restore(w.content.value).value;
        w.(clients := w.clients[c := Client(loaded, Some(loaded))])
    case Offer(c, step) =>
      if c !in w.clients then w
      else w.(clients := w.clients[c := Client(After(w.clients[c].registry, step), w.clients[c].base)])
    case Save(c, expected, l) =>
      if c !in w.clients || !Lists(l, w.clients[c].registry) then w
      else
        var s := w.clients[c].registry;
        var saved := SaveTo(w.content, s, l, expected);
        if saved.Err? then w
        else World(Some(saved.value), w.clients[c := Client(s, Some(s))], w.history + [s])
  }

  ghost function RunMoves(moves: seq<Move>): World {
    if moves == [] then NOTHING else Apply(RunMoves(moves[..|moves| - 1]), moves[|moves| - 1])
  }

  /** Intact, and no record is entered twice or before it is there. */
  ghost predicate Kept(s: State) { Tidy(s) && exists order :: Intact(s, order) }

  ghost predicate Tidy(s: State) { EnteredOnce(s.journal) && Subjects(s.journal) <= Known(s) }

  ghost predicate Linked(history: seq<State>) {
    forall i, j :: 0 <= i <= j < |history| ==> Grows(history[i], history[j])
  }

  ghost predicate ClientKept(history: seq<State>, c: Client) {
    && Kept(c.registry)
    && (c.base.Some? ==> c.base.value in history && Grows(c.base.value, c.registry))
  }

  ghost predicate Holds(content: Option<Document>, history: seq<State>) {
    if history == [] then content.None?
    else content.Some? && Written(content.value, history[|history| - 1])
  }

  ghost predicate Written(d: Document, s: State) { exists l :: WrittenFrom(d, s, l) }

  ghost predicate WrittenFrom(d: Document, s: State, l: Listing) { Lists(l, s) && d == ToDocument(s, l) }

  ghost predicate WorldKept(w: World) {
    && Linked(w.history)
    && (forall s :: s in w.history ==> Kept(s))
    && Holds(w.content, w.history)
    && (forall c :: c in w.clients ==> ClientKept(w.history, w.clients[c]))
  }

  // ----- single steps -----

  lemma KeptAfter(s: State, step: Step)
    requires Kept(s)
    ensures Kept(After(s, step))
  {
    hide Intact, Add, Tidy;
    var order :| Intact(s, order);
    IntactAdd(s, order, step.record, step.actor, step.at, false);
    IntactAddressed(s, order);
    TidyAfter(s, step);
  }

  lemma TidyAfter(s: State, step: Step)
    requires Tidy(s) && Addressed(s)
    ensures Tidy(After(s, step))
  {
    hide Refusal, Addressed, Supplied, IdOf, Known, Subjects, Filed, Held, Objection, KindOf;
    var t := After(s, step);
    if Inserts(s, step.record) {
      NewId(s, step.record);
      FiledExtends(s, step.record, s.journal);
      EnteredSubjects(Filed(s, step.record), step.record, step.actor, step.at);
      KnownIgnoresJournal(Filed(s, step.record), t);
      forall i | 0 <= i < |s.journal| ensures s.journal[i].body.record != IdOf(step.record) {
        InSubjects(s.journal, i);
      }
    } else {
      NoInsertNoChange(s, step);
    }
  }

  lemma InSubjects(journal: seq<Event>, i: nat)
    requires i < |journal|
    ensures journal[i].body.record in Subjects(journal)
  {
  }

  /** What a readable file reads back as: the last version saved. */
  lemma ReadsLast(content: Option<Document>, history: seq<State>)
    requires Holds(content, history) && history != [] && Kept(history[|history| - 1]) && Restore(content.value).Ok?
    ensures Restore(content.value).value == history[|history| - 1] && JournalValid(history[|history| - 1])
  {
    hide Intact, Tidy, JournalValid, Ordered, Restore, Lists;
    var last := history[|history| - 1];
    var l :| WrittenFrom(content.value, last, l);
    var order :| Intact(last, order);
    ReadsBackExactly(last, order, l);
  }

  /** A registry that extends a valid one without a new record has no new entry either. */
  lemma ExtensionGrows(s: State, t: State)
    requires Extends(s, t) && JournalValid(s) && Tidy(t)
    ensures Grows(s, t)
  {
    hide AllFit, Known;
    if SameRecords(s, t) && |s.journal| < |t.journal| {
      KnownIgnoresJournal(s, t);
      var e := t.journal[|s.journal|];
      InSubjects(t.journal, |s.journal|);
    }
  }

  lemma StaysPut(s: State)
    ensures Grows(s, s)
  {
  }

  lemma LinkedMore(history: seq<State>, s: State)
    requires Linked(history) && (history != [] ==> Grows(history[|history| - 1], s))
    ensures Linked(history + [s])
  {
    hide Grows;
    StaysPut(s);
    var more := history + [s];
    forall i, j | 0 <= i <= j < |more| ensures Grows(more[i], more[j]) {
      if i < |history| && j == |history| { GrowsTransitive(history[i], history[|history| - 1], s); }
    }
  }

  lemma SaveKeeps(w: World, c: nat, expected: Option<Root>, l: Listing)
    requires WorldKept(w) && c in w.clients && Lists(l, w.clients[c].registry)
    requires SaveTo(w.content, w.clients[c].registry, l, expected).Ok?
    ensures w.history != [] ==> Grows(w.history[|w.history| - 1], w.clients[c].registry)
    ensures w.history != [] ==> expected == Some(RootOf(w.history[|w.history| - 1]))
    ensures w.history == [] ==> expected == None
  {
    hide Grows, Kept, Linked, Restore, JournalValid, Extends, Lists, Tidy;
    var s := w.clients[c].registry;
    if w.history != [] {
      var last := w.history[|w.history| - 1];
      ReadsLast(w.content, w.history);
      assert ClientKept(w.history, w.clients[c]);
      KeptTidy(s);
      ExtensionGrows(last, s);
    }
  }

  lemma KeptTidy(s: State)
    requires Kept(s)
    ensures Tidy(s)
  {
  }

  lemma NothingKept()
    ensures WorldKept(NOTHING) && Kept(EMPTY)
  {
    EmptyIsSound();
  }

  lemma ApplyKeeps(w: World, m: Move)
    requires WorldKept(w)
    ensures WorldKept(Apply(w, m))
  {
    hide Grows, Kept, Linked, Restore, JournalValid, Extends, Lists, Tidy, SaveTo, Holds, After;
    NothingKept();
    match m {
      case Open(c) =>
      case Load(c) =>
        if w.content.Some? && Restore(w.content.value).Ok? {
          HoldsSomething(w.content, w.history);
          ReadsLast(w.content, w.history);
          StaysPut(w.history[|w.history| - 1]);
        }
      case Offer(c, step) =>
        if c in w.clients {
          var client := w.clients[c];
          KeptAfter(client.registry, step);
          AfterGrows(client.registry, step);
          if client.base.Some? { GrowsTransitive(client.base.value, client.registry, After(client.registry, step)); }
        }
      case Save(c, expected, l) =>
        if c in w.clients && Lists(l, w.clients[c].registry)
          && SaveTo(w.content, w.clients[c].registry, l, expected).Ok? {
          SaveKeeps(w, c, expected, l);
          SavedWorldKept(w, c, l, expected);
        }
    }
  }

  lemma HoldsSomething(content: Option<Document>, history: seq<State>)
    requires Holds(content, history) && content.Some?
    ensures history != []
  {
  }

  lemma SavedWorldKept(w: World, c: nat, l: Listing, expected: Option<Root>)
    requires WorldKept(w) && c in w.clients && Lists(l, w.clients[c].registry)
    requires SaveTo(w.content, w.clients[c].registry, l, expected).Ok?
    requires w.history != [] ==> Grows(w.history[|w.history| - 1], w.clients[c].registry)
    ensures WorldKept(Apply(w, Save(c, expected, l)))
  {
    hide Grows, Kept, Linked, Restore, JournalValid, Extends, Lists, Tidy;
    var s := w.clients[c].registry;
    assert ClientKept(w.history, w.clients[c]);
    LinkedMore(w.history, s);
    StaysPut(s);
    assert WrittenFrom(SaveTo(w.content, s, l, expected).value, s, l);
  }

  // ----- every interleaving -----

  lemma {:induction false} RunKeeps(moves: seq<Move>)
    ensures WorldKept(RunMoves(moves))
  {
    hide WorldKept, Apply;
    if moves == [] {
      NothingKept();
    } else {
      RunKeeps(moves[..|moves| - 1]);
      ApplyKeeps(RunMoves(moves[..|moves| - 1]), moves[|moves| - 1]);
    }
  }

  /**
   * The stored registry only grows: each version keeps every earlier record unchanged and every earlier journal as a
   * prefix.
   */
  lemma StoredOnlyGrows(moves: seq<Move>, i: nat, j: nat)
    requires i <= j < |RunMoves(moves).history|
    ensures Extends(RunMoves(moves).history[i], RunMoves(moves).history[j])
  {
    hide Extends, Kept, Holds, ClientKept;
    RunKeeps(moves);
    assert Grows(RunMoves(moves).history[i], RunMoves(moves).history[j]);
  }

  /**
   * A save that names the root its client loaded succeeds only if nobody saved in between, so no update is lost: what
   * is replaced is exactly the version the client started from.
   */
  lemma NoLostUpdate(moves: seq<Move>, c: nat, l: Listing)
    requires var w := RunMoves(moves); c in w.clients && Lists(l, w.clients[c].registry) && w.clients[c].base.Some?
    ensures var w := RunMoves(moves);
            var base := w.clients[c].base.value;
            w.history != []
              && (w.history[|w.history| - 1] != base ==>
                  SaveTo(w.content, w.clients[c].registry, l, Some(RootOf(base))).Err?)
  {
    hide Kept, Holds, SaveTo, Extends, Lists;
    RunKeeps(moves);
    var w := RunMoves(moves);
    var base, last := w.clients[c].base.value, w.history[|w.history| - 1];
    assert ClientKept(w.history, w.clients[c]);
    var i :| 0 <= i < |w.history| && w.history[i] == base;
    assert Grows(w.history[i], w.history[|w.history| - 1]);
    if SaveTo(w.content, w.clients[c].registry, l, Some(RootOf(base))).Ok? {
      SaveKeeps(w, c, Some(RootOf(base)), l);
      assert SameRecords(base, last);
    }
  }

  /**
   * A client that never loaded can only make the first save, or has to name the stored root and extend what is stored.
   */
  lemma FirstSaveOnly(moves: seq<Move>, c: nat, l: Listing)
    requires var w := RunMoves(moves); c in w.clients && Lists(l, w.clients[c].registry)
    ensures var w := RunMoves(moves); SaveTo(w.content, w.clients[c].registry, l, None).Ok? <==> w.history == []
  {
    hide Kept, Extends, Lists, ClientKept, Linked, Restore;
    RunKeeps(moves);
  }

  // ----- a valid registry that cannot be read back -----

  /**
   * A parent whose id sorts after its child's: every check accepts the two claims, the file they are saved to is
   * refused.
   */
  lemma UnreadableCounterexample()
    ensures exists s: State, order: seq<Id>, l: Listing ::
              Intact(s, order) && JournalValid(s) && Lists(l, s) && Restore(ToDocument(s, l)).Err?
  {
    hide Add, Intact, JournalValid, Restore, Lists, Ordered;
    var draft := Claim(Text(""), ["parent"], "inferred", None, "static", [], [], [], None, None, None, "");
    var parent := draft.(id := ClaimIdOf(draft));
    var next := draft.(words := ["child"], lineage := [parent.id]);
    var child := next.(id := ClaimIdOf(next));
    var s := After(EMPTY, Step(OfClaim(parent), "a", L.Instant("")));
    EmptyIsSound();
    FirstClaim(parent);
    SecondClaim(s, [parent.id], parent, child);
    var t := After(s, Step(OfClaim(child), "a", L.Instant("")));
    var l := Listing([], [], [child.id, parent.id]);
    TwoClaims(t, parent, child, l);
    ReadsBackExactly(t, [parent.id, child.id], l);
  }

  predicate Plain(c: Claim) {
    && c.id == ClaimIdOf(c) && c.words != [] && c.status == "inferred" && c.confidence.None? && c.gateTrace.None?
    && c.sources == [] && c.receipts == [] && c.supersedes.None?
  }

  lemma FirstClaim(c: Claim)
    requires Plain(c) && c.lineage == []
    ensures var t := After(EMPTY, Step(OfClaim(c), "a", L.Instant("")));
            Intact(t, [c.id]) && JournalValid(t) && t.sources == map[] && t.receipts == map[]
              && t.claims == map[c.id := c]
  {
    hide Intact, JournalValid, ClaimIdOf;
    var step := Step(OfClaim(c), "a", L.Instant(""));
    EmptyIsSound();
    assert "a"[0] == 'a' && !L.Blank("a");
    IntactAddressed(EMPTY, []);
    assert ClaimProblem(EMPTY, c) == None;
    IntactAdd(EMPTY, [], OfClaim(c), "a", L.Instant(""), false);
    InsertKeepsJournal(EMPTY, step);
    assert [] + [c.id] == [c.id];
  }

  lemma SecondClaim(s: State, order: seq<Id>, parent: Claim, c: Claim)
    requires Plain(c) && c.lineage == [parent.id] && c.words != parent.words && parent.id == ClaimIdOf(parent)
    requires Intact(s, order) && JournalValid(s) && order == [parent.id]
    requires s.sources == map[] && s.receipts == map[] && s.claims == map[parent.id := parent]
    ensures var t := After(s, Step(OfClaim(c), "a", L.Instant("")));
            Intact(t, [parent.id, c.id]) && JournalValid(t) && t.sources == map[] && t.receipts == map[]
            && t.claims == map[parent.id := parent, c.id := c]
  {
    hide Intact, JournalValid;
    var step := Step(OfClaim(c), "a", L.Instant(""));
    assert "a"[0] == 'a' && !L.Blank("a");
    IntactAddressed(s, order);
    assert c.id != parent.id;
    assert Members(c.lineage) <= Known(s);
    assert ClaimProblem(s, c) == None;
    IntactAdd(s, order, OfClaim(c), "a", L.Instant(""), false);
    InsertKeepsJournal(s, step);
    assert order + [c.id] == [parent.id, c.id];
  }

  lemma TwoClaims(t: State, parent: Claim, child: Claim, l: Listing)
    requires child.id != parent.id && child.lineage == [parent.id] && parent.id.ClaimId?
    requires t.sources == map[] && t.receipts == map[] && t.claims == map[parent.id := parent, child.id := child]
    requires l == Listing([], [], [child.id, parent.id])
    ensures Lists(l, t) && !Ordered(t, l.claims)
  {
    assert parent.id in Parents(Members(child.lineage));
    assert !Rests(t.claims[l.claims[0]], l.claims[..0]);
  }
}
