/** What holds of a registry after any sequence of additions, failed ones included. */
module ProvenanceRuns {
  import opened Common
  import opened Provenance
  import L = Lifecycle

  datatype Step = Step(record: Record, actor: string, at: Stamp)

  function After(s: State, step: Step): State {
    Add(s, step.record, step.actor, step.at, false).0
  }

  /** The registry a sequence of additions builds. */
  function Run(start: State, steps: seq<Step>): State {
    if steps == [] then start else After(Run(start, steps[..|steps| - 1]), steps[|steps| - 1])
  }

  /** The record is new and nothing is held against it. */
  predicate Inserts(s: State, r: Record) { Objection(s, r).None? && Held(s, r).None? }

  predicate Signed(step: Step) { !L.Blank(step.actor) && step.at.Instant? }

  // ----- references and lineage -----

  /** Every registry that additions build has its references resolved and a lineage without cycles. */
  lemma {:induction false} RunIntact(start: State, order: seq<Id>, steps: seq<Step>) returns (more: seq<Id>)
    requires Intact(start, order)
    ensures Intact(Run(start, steps), more) && Resolved(Run(start, steps))
  {
    hide Intact, Add, Resolved;
    more := order;
    if steps != [] {
      var front, last := steps[..|steps| - 1], steps[|steps| - 1];
      more := RunIntact(start, order, front);
      IntactAdd(Run(start, front), more, last.record, last.actor, last.at, false);
      more := NextOrder(Run(start, front), more, last.record);
    }
    assert Resolved(Run(start, steps)) by { IntactResolved(Run(start, steps), more); }
  }

  /** Along an order of the claims no claim is its own ancestor: a line of parents goes strictly backwards. */
  lemma {:induction false} AncestorsBefore(s: State, order: seq<Id>, line: seq<Id>, k: nat)
    requires Ordered(s, order) && line != [] && k < |order| && order[k] == line[0]
    requires forall i :: 0 <= i < |line| ==> line[i] in s.claims
    requires forall i :: 0 <= i < |line| - 1 ==> line[i + 1] in Parents(Members(s.claims[line[i]].lineage))
    ensures |line| > 1 ==> line[|line| - 1] in order[..k] && line[|line| - 1] != line[0]
    decreases |line|
  {
    if |line| > 1 {
      assert Rests(s.claims[order[k]], order[..k]) && line[1] in order[..k];
      var j :| 0 <= j < k && order[..k][j] == line[1];
      var rest := line[1..];
      forall i | 0 <= i < |rest| - 1 ensures rest[i + 1] in Parents(Members(s.claims[rest[i]].lineage)) {
        assert rest[i] == line[i + 1] && rest[i + 1] == line[i + 2];
      }
      AncestorsBefore(s, order, rest, j);
      assert line[|line| - 1] == rest[|rest| - 1];
      if |rest| > 1 { assert order[..j] <= order[..k]; }
    }
  }

  lemma LineageAcyclic(s: State, order: seq<Id>, line: seq<Id>)
    requires Intact(s, order) && |line| > 1
    requires forall i :: 0 <= i < |line| ==> line[i] in s.claims
    requires forall i :: 0 <= i < |line| - 1 ==> line[i + 1] in Parents(Members(s.claims[line[i]].lineage))
    ensures line[|line| - 1] != line[0]
  {
    hide Addressed, Admitted, Parents;
    assert line[0] in Members(order);
    var k :| 0 <= k < |order| && order[k] == line[0];
    AncestorsBefore(s, order, line, k);
  }

  // ----- growth -----

  ghost predicate SameSources(s: State, t: State) {
    forall id :: id in s.sources ==> id in t.sources && t.sources[id] == s.sources[id]
  }
  ghost predicate SameReceipts(s: State, t: State) {
    forall id :: id in s.receipts ==> id in t.receipts && t.receipts[id] == s.receipts[id]
  }
  ghost predicate SameClaims(s: State, t: State) {
    forall id :: id in s.claims ==> id in t.claims && t.claims[id] == s.claims[id]
  }

  /** Nothing was removed or changed: what an update of the stored registry has to satisfy. */
  ghost predicate Extends(s: State, t: State) {
    SameSources(s, t) && SameReceipts(s, t) && SameClaims(s, t) && s.journal <= t.journal
  }

  lemma ExtendsTransitive(s: State, t: State, u: State)
    requires Extends(s, t) && Extends(t, u)
    ensures Extends(s, u)
  {
  }

  lemma AfterExtends(s: State, step: Step)
    ensures Extends(s, After(s, step))
  {
    hide Extends, Objection, Filed, Held;
    FiledExtends(s, step.record, After(s, step).journal);
    StaysExtended(s);
  }

  lemma StaysExtended(s: State)
    ensures Extends(s, s)
  {
  }

  lemma FiledExtends(s: State, r: Record, journal: seq<Event>)
    ensures Filed(s, r).journal == s.journal
    ensures Objection(s, r).None? && s.journal <= journal ==> Extends(s, Filed(s, r).(journal := journal))
  {
    hide Refusal, SourceIdOf, ReceiptIdOf, ClaimIdOf;
  }

  /** Growth, and with the same records the same journal: every entry belongs to a record that is new. */
  ghost predicate Grows(s: State, t: State) {
    Extends(s, t) && (SameRecords(s, t) ==> s == t)
  }

  predicate SameRecords(s: State, t: State) {
    s.sources == t.sources && s.receipts == t.receipts && s.claims == t.claims
  }

  lemma GrowsTransitive(s: State, t: State, u: State)
    requires Grows(s, t) && Grows(t, u)
    ensures Grows(s, u)
  {
    ExtendsTransitive(s, t, u);
    if SameRecords(s, u) {
      assert t.sources == s.sources by {
        assert forall id :: id in t.sources ==> id in s.sources && s.sources[id] == t.sources[id];
      }
      assert t.receipts == s.receipts by {
        assert forall id :: id in t.receipts ==> id in s.receipts && s.receipts[id] == t.receipts[id];
      }
      assert t.claims == s.claims by {
        assert forall id :: id in t.claims ==> id in s.claims && s.claims[id] == t.claims[id];
      }
    }
  }

  lemma AfterGrows(s: State, step: Step)
    ensures Grows(s, After(s, step))
  {
    hide Refusal, Extends, SourceIdOf, ReceiptIdOf, ClaimIdOf;
    AfterExtends(s, step);
    if Inserts(s, step.record) {
      assert !SameRecords(s, Filed(s, step.record)) by { FiledIsNew(s, step.record); }
    } else if Objection(s, step.record).None? {
      assert Filed(s, step.record) == s;
    }
  }

  lemma FiledIsNew(s: State, r: Record)
    requires Held(s, r).None?
    ensures !SameRecords(s, Filed(s, r))
  {
    var id := IdOf(r);
    match r {
      case OfSource(_) => assert id in Filed(s, r).sources && id !in s.sources;
      case OfReceipt(_) => assert id in Filed(s, r).receipts && id !in s.receipts;
      case OfClaim(_) => assert id in Filed(s, r).claims && id !in s.claims;
    }
  }

  // ----- the journal -----

  lemma NewId(s: State, r: Record)
    requires Addressed(s) && Held(s, r).None?
    ensures IdOf(r) !in Known(s) && Known(Filed(s, r)) == Known(s) + {IdOf(r)}
      && IdOf(r) in RecordsOf(Filed(s, r), KindOf(r))
  {
  }

  lemma FitsGrows(s: State, t: State, journal: seq<Event>)
    requires Extends(s, t) && Consistent(s, journal)
    ensures Consistent(t, journal)
  {
    forall i | 0 <= i < |journal| ensures Fits(t, journal[i], Head(journal[..i])) {
      assert Fits(s, journal[i], Head(journal[..i]));
    }
  }

  /** A record that no event names, or an event whose time cannot be read: no later addition mends either. */
  ghost predicate Broken(s: State) {
    !(Known(s) <= Subjects(s.journal)) || exists e :: e in s.journal && e.body.at.Malformed?
  }

  lemma BrokenRejected(s: State)
    requires Broken(s)
    ensures !JournalValid(s)
  {
    if exists e :: e in s.journal && e.body.at.Malformed? {
      var e :| e in s.journal && e.body.at.Malformed?;
      var i :| 0 <= i < |s.journal| && s.journal[i] == e;
      assert !Fits(s, s.journal[i], Head(s.journal[..i]));
    }
  }

  lemma EnteredSubjects(s: State, r: Record, actor: string, at: Stamp)
    ensures Subjects(Entered(s, r, actor, at).journal) == Subjects(s.journal) + {IdOf(r)}
  {
    var e := MakeEvent(KindOf(r), IdOf(r), actor, at, Head(s.journal));
    assert forall x :: x in s.journal + [e] <==> x in s.journal || x == e;
  }

  lemma BrokenForGood(s: State, step: Step)
    requires Addressed(s) && Broken(s)
    ensures Broken(After(s, step))
  {
    hide Refusal, Addressed, Supplied, IdOf, Known, Subjects, Filed, Held, Objection, KindOf;
    var t := After(s, step);
    if Inserts(s, step.record) {
      FiledExtends(s, step.record, s.journal);
      NewId(s, step.record);
      EnteredSubjects(Filed(s, step.record), step.record, step.actor, step.at);
      assert s.journal <= t.journal;
      assert Known(t) == Known(s) + {IdOf(step.record)} by { KnownIgnoresJournal(Filed(s, step.record), t); }
    } else if Objection(s, step.record).None? {
      HeldFiled(s, step.record);
    }
  }

  lemma HeldFiled(s: State, r: Record)
    requires Objection(s, r).None? && Held(s, r).Some?
    ensures Filed(s, r) == s
  {
    hide Refusal;
  }

  lemma KnownIgnoresJournal(s: State, t: State)
    requires SameRecords(s, t)
    ensures Known(s) == Known(t)
  {
  }

  /** Exactly when a new record comes with an actor and a readable time does the journal stay valid. */
  lemma InsertKeepsJournal(s: State, step: Step)
    requires Addressed(s) && JournalValid(s) && Inserts(s, step.record)
    ensures Signed(step) ==> JournalValid(After(s, step))
    ensures !Signed(step) ==> Broken(After(s, step))
  {
    hide Refusal, Addressed, Supplied, IdOf, Known, Subjects, Consistent, Fits, RecordsOf, Extends, Filed, Held,
         Objection, KindOf;
    var t, filed := After(s, step), Filed(s, step.record);
    NewId(s, step.record);
    FiledExtends(s, step.record, s.journal);
    AfterExtends(s, step);
    FitsGrows(s, t, s.journal);
    EnteredSubjects(filed, step.record, step.actor, step.at);
    KnownIgnoresJournal(filed, t);
    if !L.Blank(step.actor) {
      var e := MakeEvent(KindOf(step.record), IdOf(step.record), step.actor, step.at, Head(s.journal));
      assert e in t.journal;
      ConsistentMore(t, s.journal, e);
      if Signed(step) { NewEventFits(filed, t, step, Head(s.journal)); }
    }
  }

  lemma NewEventFits(filed: State, t: State, step: Step, previous: Digest)
    requires SameRecords(filed, t) && IdOf(step.record) in RecordsOf(filed, KindOf(step.record)) && Signed(step)
    ensures Fits(t, MakeEvent(KindOf(step.record), IdOf(step.record), step.actor, step.at, previous), previous)
  {
  }

  /** Every record that the steps inserted came with an actor and a readable time. */
  ghost predicate AllSigned(start: State, steps: seq<Step>) {
    forall k :: 0 <= k < |steps| && Inserts(Run(start, steps[..k]), steps[k].record) ==> Signed(steps[k])
  }

  lemma AllSignedMore(start: State, steps: seq<Step>)
    requires steps != []
    ensures var front, last := steps[..|steps| - 1], steps[|steps| - 1];
            AllSigned(start, steps) <==>
              AllSigned(start, front) && (Inserts(Run(start, front), last.record) ==> Signed(last))
  {
    hide Run, Inserts;
    var front := steps[..|steps| - 1];
    forall k | 0 <= k < |front| ensures front[k] == steps[k] && front[..k] == steps[..k] {}
  }

  /**
   * A registry built from one with a valid journal has a valid journal exactly when every step that inserted a record
   * was signed; a single one that was not can never be mended.
   */
  lemma {:induction false} JournalValidExactly(start: State, order: seq<Id>, steps: seq<Step>)
    requires Intact(start, order) && JournalValid(start)
    ensures JournalValid(Run(start, steps)) <==> AllSigned(start, steps)
    ensures !AllSigned(start, steps) ==> Broken(Run(start, steps))
  {
    hide Intact, Add, JournalValid, Broken, Inserts, AllSigned, Signed;
    if steps == [] {
      NothingToSign(start);
    } else {
      var front, last := steps[..|steps| - 1], steps[|steps| - 1];
      var before := Run(start, front);
      JournalValidExactly(start, order, front);
      AllSignedMore(start, steps);
      var more := RunIntact(start, order, front);
      assert Addressed(before) by { IntactAddressed(before, more); }
      if Inserts(before, last.record) {
        if JournalValid(before) { InsertKeepsJournal(before, last); }
      } else {
        NoInsertNoChange(before, last);
      }
      if Broken(before) { BrokenForGood(before, last); }
      if Broken(After(before, last)) { BrokenRejected(After(before, last)); }
    }
  }

  lemma NothingToSign(start: State)
    ensures AllSigned(start, [])
  {
  }

  lemma IntactResolved(s: State, order: seq<Id>)
    requires Intact(s, order)
    ensures Resolved(s)
  {
    AdmittedResolved(s);
  }

  lemma IntactAddressed(s: State, order: seq<Id>)
    requires Intact(s, order)
    ensures Addressed(s)
  {
  }

  lemma NoInsertNoChange(s: State, step: Step)
    requires !Inserts(s, step.record)
    ensures After(s, step) == s
  {
    hide Refusal;
  }

  lemma EmptyIsSound()
    ensures Intact(EMPTY, []) && JournalValid(EMPTY)
  {
  }

  /**
   * The registry refuses a blank actor, yet keeps the record it came with; from then on no reload accepts the registry.
   */
  lemma BlankActorCounterexample()
    ensures exists step: Step ::
      Objection(EMPTY, step.record).None? && Add(EMPTY, step.record, step.actor, step.at, false).1 == Err(BlankActor)
                           && After(EMPTY, step) != EMPTY && forall steps ::
                                !JournalValid(Run(After(EMPTY, step), steps))
  {
    var zeros := seq(64, i => '0');
    var draft := Source(Text(""), "file", "a", DigestField("sha256", zeros), "repository", "clean", None, "");
    var source := draft.(id := SourceIdOf(draft));
    var step := Step(OfSource(source), " ", L.Instant("now"));
    assert "a"[0] == 'a';
    assert " "[0] == ' ';
    assert !L.Blank("a") && L.Blank(" ");
    assert SourceProblem(source) == None;
    var t := After(EMPTY, step);
    assert IdOf(step.record) in Known(t) && t.journal == [];
    EmptyIsSound();
    forall steps ensures !JournalValid(Run(t, steps)) {
      IntactAdd(EMPTY, [], step.record, step.actor, step.at, false);
      BrokenRun(t, [], steps);
      BrokenRejected(Run(t, steps));
    }
  }

  lemma {:induction false} BrokenRun(start: State, order: seq<Id>, steps: seq<Step>)
    requires Intact(start, order) && Broken(start)
    ensures Broken(Run(start, steps))
  {
    hide Intact, Add, Broken;
    if steps != [] {
      var front := steps[..|steps| - 1];
      BrokenRun(start, order, front);
      var more := RunIntact(start, order, front);
      IntactAddressed(Run(start, front), more);
      BrokenForGood(Run(start, front), steps[|steps| - 1]);
    }
  }

  // ----- the head commits to the journal -----

  /** Two valid journals with the same last hash are the same, event by event. */
  lemma {:induction false} HeadCommits(s: State, a: seq<Event>, t: State, b: seq<Event>)
    requires AllFit(s, a) && AllFit(t, b) && Head(a) == Head(b)
    ensures a == b
  {
    if a == [] || b == [] {
      if a != [] { LastSealed(s, a); }
      if b != [] { LastSealed(t, b); }
    } else {
      LastSealed(s, a);
      LastSealed(t, b);
      HeadCommits(s, a[..|a| - 1], t, b[..|b| - 1]);
      assert a == a[..|a| - 1] + [a[|a| - 1]];
      assert b == b[..|b| - 1] + [b[|b| - 1]];
    }
  }

  lemma LastSealed(s: State, a: seq<Event>)
    requires AllFit(s, a) && a != []
    ensures a[|a| - 1] == Sealed(a[|a| - 1].body) && a[|a| - 1].body.previous == Head(a[..|a| - 1])
    ensures AllFit(s, a[..|a| - 1])
  {
    var front := a[..|a| - 1];
    assert Fits(s, a[|a| - 1], Head(a[..|a| - 1]));
    forall i | 0 <= i < |front| ensures Fits(s, front[i], Head(front[..i])) {
      assert front[..i] == a[..i];
    }
  }
}
