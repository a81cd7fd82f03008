/**
 * A run of some syntax against its records: it takes every certain binding of its scope, and none that is not recorded.
 */
module ExecutionRecords {
  import opened Common
  import opened ProbeFacts
  import opened PythonAst
  import opened ExecutionOrder

  /** The binding records of the scope the syntax stands in. */
  function Own(e: Effect): set<BindingFact> { set g | g in e.bindings && g.place == 0 }

  /**
   * Names that are bound under a record of another scope, or unbound without one: by a walrus, or behind an `except`.
   */
  function StrayNames(e: Effect): set<string> {
    set g | g in e.bindings && (g.how.kind.NamedExpression? || (g.place == 0 && g.how.kind.ExceptTarget?)) :: g.name
  }

  /** Under no control keyword, and not a bare annotation, which binds nothing. */
  predicate Certain(g: BindingFact) { g.control == [] && !g.how.kind.Annotation? }

  ghost predicate Taken(x: Trace, g: BindingFact) { exists a :: a in x && a.Takes? && a.binding == g }

  ghost predicate Recorded(a: Act, own: set<BindingFact>, strays: set<string>) {
    a.Takes? ==> a.binding.place == 0 && (a.binding in own || a.binding.name in strays)
  }

  ghost predicate Only(x: Trace, own: set<BindingFact>, strays: set<string>) {
    forall a :: a in x ==> Recorded(a, own, strays)
  }

  ghost predicate Whole(x: Trace, own: set<BindingFact>) { forall g :: g in own && Certain(g) ==> Taken(x, g) }

  /** Every trace stays within the records of the effect. */
  ghost predicate Within(t: iset<Trace>, e: Effect) { forall x :: x in t ==> Only(x, Own(e), StrayNames(e)) }

  /** And takes all the certain ones. */
  ghost predicate Fit(t: iset<Trace>, e: Effect) { Within(t, e) && forall x :: x in t ==> Whole(x, Own(e)) }

  // ----- records of composed effects -----

  lemma OwnThen(e: Effect, f: Effect)
    ensures Own(e.Then(f)) == Own(e) + Own(f) && StrayNames(e.Then(f)) == StrayNames(e) + StrayNames(f)
  {
    var g := e.Then(f);
    assert g.bindings == e.bindings + BindingsMoved(f.bindings, |e.scopes|);
    MovedOwn(f, |e.scopes|);
    forall b ensures b in g.bindings <==> b in e.bindings || b in BindingsMoved(f.bindings, |e.scopes|) {}
    forall name ensures name in StrayNames(g) <==> name in StrayNames(e) || name in StrayNames(f) {
      StraySplit(e, f, name);
    }
  }

  ghost predicate StrayRecord(b: BindingFact, name: string) {
    b.name == name && (b.how.kind.NamedExpression? || (b.place == 0 && b.how.kind.ExceptTarget?))
  }

  /** Neither the place, as long as it stays inside or outside, nor the control keywords make a stray. */
  lemma SameStray(b: BindingFact, c: BindingFact, name: string)
    requires c.name == b.name && c.how == b.how && (c.place == 0 <==> b.place == 0)
    ensures StrayRecord(c, name) <==> StrayRecord(b, name)
  {
  }

  lemma MovedOwn(f: Effect, n: nat)
    ensures forall b: BindingFact :: b.place == 0 ==> (b in BindingsMoved(f.bindings, n) <==> b in f.bindings)
    ensures forall name :: (exists b :: b in BindingsMoved(f.bindings, n) && StrayRecord(b, name)) <==>
      name in StrayNames(f)
  {
    var moved := BindingsMoved(f.bindings, n);
    forall b: BindingFact | b.place == 0 && b in f.bindings ensures b in moved {
      var i :| 0 <= i < |f.bindings| && f.bindings[i] == b;
      assert moved[i] == b;
    }
    forall name | name in StrayNames(f) ensures exists b :: b in moved && StrayRecord(b, name) {
      var i :| 0 <= i < |f.bindings| && StrayRecord(f.bindings[i], name);
      SameStray(f.bindings[i], moved[i], name);
      assert moved[i] in moved && StrayRecord(moved[i], name);
    }
    forall b | b in moved
      ensures exists c :: c in f.bindings && c == b.(place := c.place) && (c.place == 0 <==> b.place == 0)
    {
      var i :| 0 <= i < |moved| && moved[i] == b;
      assert f.bindings[i] in f.bindings;
    }
  }

  lemma StraySplit(e: Effect, f: Effect, name: string)
    ensures name in StrayNames(e.Then(f)) <==> name in StrayNames(e) || name in StrayNames(f)
  {
    var g := e.Then(f);
    var moved := BindingsMoved(f.bindings, |e.scopes|);
    MovedOwn(f, |e.scopes|);
    if name in StrayNames(g) {
      var b :| b in g.bindings && StrayRecord(b, name);
      assert b in e.bindings || b in moved;
    }
    if name in StrayNames(e) {
      var b :| b in e.bindings && StrayRecord(b, name);
      assert b in g.bindings;
    }
    if name in StrayNames(f) {
      var b :| b in moved && StrayRecord(b, name);
      assert b in g.bindings;
    }
  }

  function KeyedUnder(k: Control, g: BindingFact): BindingFact { g.(control := [k] + g.control) }

  lemma OwnUnder(e: Effect, k: Control)
    ensures forall g :: g in Own(e) ==> KeyedUnder(k, g) in Own(e.Under(k))
    ensures forall g :: g in Own(e.Under(k)) ==> g.control != []
    ensures StrayNames(e.Under(k)) == StrayNames(e)
  {
    var under := e.Under(k);
    forall g | g in Own(e) ensures KeyedUnder(k, g) in Own(under) {
      var i :| 0 <= i < |e.bindings| && e.bindings[i] == g;
      assert under.bindings[i] == KeyedUnder(k, g);
    }
    forall g | g in Own(under) ensures g.control != [] {
      var i :| 0 <= i < |under.bindings| && under.bindings[i] == g;
    }
    forall name ensures name in StrayNames(under) <==> name in StrayNames(e) {
      if name in StrayNames(e) {
        var i :| 0 <= i < |e.bindings| && StrayRecord(e.bindings[i], name);
        SameStray(e.bindings[i], under.bindings[i], name);
        assert under.bindings[i] in under.bindings && StrayRecord(under.bindings[i], name);
      }
      if name in StrayNames(under) {
        var i :| 0 <= i < |under.bindings| && StrayRecord(under.bindings[i], name);
        SameStray(e.bindings[i], under.bindings[i], name);
        assert e.bindings[i] in e.bindings && StrayRecord(e.bindings[i], name);
      }
    }
  }

  lemma OwnInside(e: Effect, kind: ScopeKind, name: string, globals: set<string>, nonlocals: set<string>)
    ensures Own(e.Inside(kind, name, globals, nonlocals)) == {}
  {
  }

  // ----- traces of composed syntax -----

  lemma StillFits(e: Effect)
    requires Own(e) == {}
    ensures Fit(STILL, e)
  {
  }

  /** Fitting depends on the records alone. */
  lemma SameFit(t: iset<Trace>, e: Effect, f: Effect)
    requires Own(e) == Own(f) && StrayNames(e) <= StrayNames(f)
    ensures Fit(t, e) ==> Fit(t, f)
    ensures Within(t, e) ==> Within(t, f)
  {
  }

  lemma MoreWithin(t: iset<Trace>, e: Effect, f: Effect)
    requires Own(e) <= Own(f) && StrayNames(e) <= StrayNames(f) && Within(t, e)
    ensures Within(t, f)
  {
  }

  /** Two pieces in a row, whichever of them is recorded first. */
  lemma ThenFits(a: iset<Trace>, b: iset<Trace>, e: Effect, f: Effect)
    requires Fit(a, e) && Fit(b, f)
    ensures Fit(Then(a, b), e.Then(f)) && Fit(Then(a, b), f.Then(e))
  {
    OwnThen(e, f);
    OwnThen(f, e);
    forall x, y | x in a && y in b
      ensures Whole(x + y, Own(e) + Own(f)) && Only(x + y, Own(e) + Own(f), StrayNames(e) + StrayNames(f))
    {
      JoinFits(x, y, Own(e), Own(f), StrayNames(e), StrayNames(f));
    }
  }

  lemma JoinFits(x: Trace, y: Trace, o: set<BindingFact>, p: set<BindingFact>, s: set<string>, r: set<string>)
    requires Only(x, o, s) && Only(y, p, r)
    ensures Only(x + y, o + p, s + r)
    ensures Whole(x, o) && Whole(y, p) ==> Whole(x + y, o + p)
  {
    assert forall a :: a in x + y <==> a in x || a in y;
    if Whole(x, o) && Whole(y, p) {
      forall g | g in o + p && Certain(g) ensures Taken(x + y, g) {
        if g in o { assert Taken(x, g); } else { assert Taken(y, g); }
      }
    }
  }

  lemma ThenWithin(a: iset<Trace>, b: iset<Trace>, e: Effect, f: Effect)
    requires Within(a, e) && Within(b, f)
    ensures Within(Then(a, b), e.Then(f))
  {
    OwnThen(e, f);
    forall x, y | x in a && y in b ensures Only(x + y, Own(e) + Own(f), StrayNames(e) + StrayNames(f)) {
      JoinFits(x, y, Own(e), Own(f), StrayNames(e), StrayNames(f));
    }
  }

  /** Both under the records of one effect. */
  lemma BothWithin(a: iset<Trace>, b: iset<Trace>, e: Effect)
    requires Within(a, e) && Within(b, e)
    ensures Within(Then(a, b), e) && Within(a + b, e)
  {
    forall x, y | x in a && y in b ensures Only(x + y, Own(e), StrayNames(e)) {
      JoinFits(x, y, Own(e), Own(e), StrayNames(e), StrayNames(e));
      assert Own(e) + Own(e) == Own(e) && StrayNames(e) + StrayNames(e) == StrayNames(e);
    }
  }

  lemma CutWithin(a: iset<Trace>, e: Effect)
    requires Within(a, e)
    ensures Within(Cut(a), e) && Within(Maybe(a), e) && Within(STILL, e)
  {
    forall x, n: nat | x in a && n <= |x| ensures Only(x[..n], Own(e), StrayNames(e)) {
      assert forall b :: b in x[..n] ==> b in x;
    }
  }

  lemma {:induction false} RoundsWithin(a: iset<Trace>, e: Effect)
    requires Within(a, e)
    ensures Within(Rounds(a), e)
  {
    forall n: nat ensures Within(Power(a, n), e) { PowerWithin(a, e, n); }
  }

  lemma {:induction false} PowerWithin(a: iset<Trace>, e: Effect, n: nat)
    requires Within(a, e)
    ensures Within(Power(a, n), e)
  {
    hide Within;
    if n == 0 {
      CutWithin(a, e);
    } else {
      PowerWithin(a, e, n - 1);
      BothWithin(Power(a, n - 1), a, e);
    }
  }

  /** Under a control keyword nothing is certain. */
  lemma UnderFits(k: Control, t: iset<Trace>, e: Effect)
    requires Within(t, e)
    ensures Fit(Under(k, t), e.Under(k))
  {
    OwnUnder(e, k);
    forall x: Trace | x in t ensures Only(TraceUnder(k, x), Own(e.Under(k)), StrayNames(e.Under(k))) {
      forall a | a in TraceUnder(k, x) ensures Recorded(a, Own(e.Under(k)), StrayNames(e.Under(k))) {
        var i :| 0 <= i < |x| && TraceUnder(k, x)[i] == a;
        assert x[i] in x && Recorded(x[i], Own(e), StrayNames(e));
        if x[i].Takes? && x[i].binding in Own(e) { assert a.binding == KeyedUnder(k, x[i].binding); }
      }
    }
  }

  /** What happens in a scope inside leaves the records of this one alone. */
  lemma InsideFits(t: iset<Trace>, e: Effect, f: Effect, kind: ScopeKind, name: string, globals: set<string>,
                   nonlocals: set<string>)
    requires Fit(t, e)
    ensures Fit(t, e.Then(f.Inside(kind, name, globals, nonlocals)))
  {
    OwnInside(f, kind, name, globals, nonlocals);
    OwnThen(e, f.Inside(kind, name, globals, nonlocals));
    SameFit(t, e, e.Then(f.Inside(kind, name, globals, nonlocals)));
  }

  lemma OneFits(name: string, how: Bound, pos: Position, since: nat)
    ensures Fit(One(Takes(BindingFact(0, name, how, [], pos), since)), Bind(name, how, pos))
  {
    var a := Takes(BindingFact(0, name, how, [], pos), since);
    assert Own(Bind(name, how, pos)) == {a.binding};
    assert a in [a];
  }

  lemma NothingRecorded(fact: ImportFact, callee: Option<Dotted>, pos: Position)
    ensures Own(NOTHING) == {} && Own(Imports(fact)) == {} && Own(Calls(callee, pos)) == {}
    ensures StrayNames(NOTHING) == {} && StrayNames(Imports(fact)) == {}
  {
  }

  lemma ReadFits(callee: Option<Dotted>, pos: Position)
    ensures Fit(One(Reads(CallFact(0, callee, [], pos))), Calls(callee, pos))
  {
    assert Own(Calls(callee, pos)) == {};
  }

  // ----- targets -----

  lemma {:induction false} BindAllJoins(a: seq<(string, Position)>, b: seq<(string, Position)>, how: Bound)
    ensures Own(BindAll(a + b, how)) == Own(BindAll(a, how)) + Own(BindAll(b, how))
    ensures StrayNames(BindAll(a + b, how)) == StrayNames(BindAll(a, how)) + StrayNames(BindAll(b, how))
  {
    hide Own, StrayNames, Effect.Then;
    if b == [] {
      assert a + b == a;
      NothingOwned();
    } else {
      var front, last := b[..|b| - 1], b[|b| - 1];
      assert (a + b)[..|a + b| - 1] == a + front;
      BindAllJoins(a, front, how);
      OwnThen(BindAll(a + front, how), Bind(last.0, how, last.1));
      OwnThen(BindAll(front, how), Bind(last.0, how, last.1));
    }
  }

  lemma NothingOwned()
    ensures Own(NOTHING) == {} && StrayNames(NOTHING) == {}
  {
  }

  lemma {:induction false} NamesFit(names: seq<(string, Position)>, how: Bound)
    ensures Fit(iset{NameTakes(names, how)}, BindAll(names, how))
  {
    hide Fit, Effect.Then;
    if names == [] {
      NothingOwned();
      StillFits(NOTHING);
      assert iset{NameTakes(names, how)} == STILL;
    } else {
      var front, last := names[..|names| - 1], names[|names| - 1];
      NamesFit(front, how);
      OneFits(last.0, how, last.1, 0);
      ThenFits(iset{NameTakes(front, how)}, One(Takes(BindingFact(0, last.0, how, [], last.1), 0)), BindAll(front, how),
               Bind(last.0, how, last.1));
      OnlyTrace(NameTakes(front, how), Takes(BindingFact(0, last.0, how, [], last.1), 0));
    }
  }

  lemma OnlyTrace(x: Trace, a: Act)
    ensures Then(iset{x}, One(a)) == iset{x + [a]}
  {
  }

  /** `EffectOf` a target, then its names: the traces of the target do both. */
  lemma {:induction false} TargetFits(target: Node, how: Bound, since: nat)
    ensures Fit(TargetActs(target, how, since), EffectOf(target).Then(BindAll(BindingTargets(target), how)))
    decreases target, 3
  {
    hide Fit, Within, Effect.Then, Effect.Under, Effect.Inside, Own, StrayNames, EffectOfAll, EffectOf, PartActs,
         TargetsOfAll, BindAll, Acts;
    match target {
      case Name(id, pos) => NameFits(id, pos, how, since);
      case Display(elements) => PartsFit(elements, how, since); DisplayEffect(elements);
      case Starred(inner) => TargetFits(inner, how, since); StarredEffect(inner);
      case _ =>
        ActsFit(target);
        PlainTarget(target, how);
        SameFit(Acts(target), EffectOf(target), EffectOf(target).Then(BindAll(BindingTargets(target), how)));
    }
  }

  lemma DisplayEffect(elements: seq<Node>)
    ensures EffectOf(Display(elements)) == EffectOfAll(elements)
  {
    hide EffectOfAll;
  }

  lemma StarredEffect(inner: Node)
    ensures EffectOf(Starred(inner)) == EffectOf(inner)
  {
  }

  /** Any other target binds no name. */
  lemma PlainTarget(target: Node, how: Bound)
    requires !target.Name? && !target.Display? && !target.Starred?
    ensures BindingTargets(target) == [] && TargetActs(target, how, 0) == Acts(target)
    ensures Own(EffectOf(target).Then(BindAll(BindingTargets(target), how))) == Own(EffectOf(target))
    ensures StrayNames(EffectOf(target).Then(BindAll(BindingTargets(target), how))) == StrayNames(EffectOf(target))
  {
    hide Own, StrayNames, EffectOf, Effect.Then, Acts;
    NothingOwned();
    OwnThen(EffectOf(target), NOTHING);
  }

  lemma NameFits(id: string, pos: Position, how: Bound, since: nat)
    ensures Fit(One(Takes(BindingFact(0, id, how, [], pos), since)),
                EffectOf(Name(id, pos)).Then(BindAll([(id, pos)], how)))
  {
    hide Fit, Own, StrayNames, Effect.Then;
    OneFits(id, how, pos, since);
    assert [(id, pos)][..0] == [];
    NothingOwned();
    OwnThen(NOTHING, Bind(id, how, pos));
    OwnThen(NOTHING, NOTHING.Then(Bind(id, how, pos)));
    SameFit(One(Takes(BindingFact(0, id, how, [], pos), since)), Bind(id, how, pos),
            NOTHING.Then(NOTHING.Then(Bind(id, how, pos))));
  }

  lemma {:induction false} PartsFit(parts: seq<Node>, how: Bound, since: nat)
    ensures Fit(PartActs(parts, how, since), EffectOfAll(parts).Then(BindAll(TargetsOfAll(parts), how)))
    decreases parts, 3
  {
    hide Fit, Within, Effect.Then, Own, StrayNames, EffectOf, BindAll, TargetActs;
    if parts == [] {
      NoParts(how);
    } else {
      var front, last := parts[..|parts| - 1], parts[|parts| - 1];
      PartsFit(front, how, since);
      var e := EffectOfAll(front).Then(BindAll(TargetsOfAll(front), how));
      var f := EffectOf(last).Then(BindAll(BindingTargets(last), how));
      forall n: nat ensures Fit(TargetActs(last, how, n), f) { TargetFits(last, how, n); }
      forall z | z in PartActs(parts, how, since) ensures Behind(PartActs(front, how, since), last, how, z) {
        var x, y :| x in PartActs(front, how, since) && y in TargetActs(last, how, since + TakesIn(x)) && z == x + y;
      }
      LaterFits(PartActs(front, how, since), PartActs(parts, how, since), last, how, e, f);
      PartsJoin(front, last, how);
      SameFit(PartActs(parts, how, since), e.Then(f), EffectOfAll(parts).Then(BindAll(TargetsOfAll(parts), how)));
    }
  }

  lemma NoParts(how: Bound)
    ensures Fit(STILL, NOTHING.Then(BindAll([], how)))
  {
    NothingOwned();
    OwnThen(NOTHING, NOTHING);
    StillFits(NOTHING.Then(NOTHING));
  }

  /** The records of the parts and their names, sorted one way and the other. */
  lemma PartsJoin(front: seq<Node>, last: Node, how: Bound)
    ensures var e := EffectOfAll(front).Then(BindAll(TargetsOfAll(front), how));
            var f := EffectOf(last).Then(BindAll(BindingTargets(last), how));
            var all := EffectOfAll(front + [last]).Then(BindAll(TargetsOfAll(front + [last]), how));
            Own(e.Then(f)) == Own(all) && StrayNames(e.Then(f)) == StrayNames(all)
  {
    hide Own, StrayNames, Effect.Then, EffectOf, BindAll;
    var parts := front + [last];
    assert parts[..|parts| - 1] == front;
    var names, more := TargetsOfAll(front), BindingTargets(last);
    BindAllJoins(names, more, how);
    OwnThen(EffectOfAll(front), BindAll(names, how));
    OwnThen(EffectOf(last), BindAll(more, how));
    OwnThen(EffectOfAll(front).Then(BindAll(names, how)), EffectOf(last).Then(BindAll(more, how)));
    OwnThen(EffectOfAll(front), EffectOf(last));
    OwnThen(EffectOfAll(parts), BindAll(TargetsOfAll(parts), how));
  }

  ghost predicate Behind(front: iset<Trace>, last: Node, how: Bound, z: Trace) {
    exists x, y, n: nat :: x in front && y in TargetActs(last, how, n) && z == x + y
  }

  /** A target behind others, whatever number of bindings they have taken. */
  lemma LaterFits(front: iset<Trace>, all: iset<Trace>, last: Node, how: Bound, e: Effect, f: Effect)
    requires Fit(front, e) && forall n: nat :: Fit(TargetActs(last, how, n), f)
    requires forall z :: z in all ==> Behind(front, last, how, z)
    ensures Fit(all, e.Then(f))
  {
    hide Own, StrayNames, Effect.Then, TargetActs;
    OwnThen(e, f);
    forall z | z in all ensures Whole(z, Own(e.Then(f))) && Only(z, Own(e.Then(f)), StrayNames(e.Then(f))) {
      var x, y, n: nat :| x in front && y in TargetActs(last, how, n) && z == x + y;
      assert Fit(TargetActs(last, how, n), f);
      JoinFits(x, y, Own(e), Own(f), StrayNames(e), StrayNames(f));
    }
  }

  lemma {:induction false} AssignFits(targets: seq<Node>, how: Bound)
    ensures Fit(AssignActs(targets, how), TargetsEffect(targets, how))
    decreases targets, 3
  {
    hide Fit, Within, Effect.Then, Own, StrayNames, EffectOf, BindAll, TargetActs;
    if targets == [] {
      NothingOwned();
      StillFits(NOTHING);
    } else {
      var front, last := targets[..|targets| - 1], targets[|targets| - 1];
      var shared := Shared(BindingTargets(last), how);
      AssignFits(front, how);
      forall n: nat ensures Fit(TargetActs(last, shared, n), TargetEffect(last, how)) { TargetFits(last, shared, n); }
      forall z | z in AssignActs(targets, how) ensures Behind(AssignActs(front, how), last, shared, z) {
        var x, y :| x in AssignActs(front, how) && y in TargetActs(last, shared, TakesIn(x)) && z == x + y;
      }
      LaterFits(AssignActs(front, how), AssignActs(targets, how), last, shared, TargetsEffect(front, how),
                TargetEffect(last, how));
    }
  }

  lemma {:induction false} BindingFits(target: Node, how: Bound)
    ensures Fit(BindingActs(target, how), TargetEffect(target, how))
    decreases target, 4
  {
    hide Fit, TargetActs;
    TargetFits(target, Shared(BindingTargets(target), how), 0);
  }

  lemma NamedFits(target: Node, how: Bound)
    ensures Fit(NamedActs(target, how), BindTargets(target, how))
  {
    hide Fit, NameTakes, BindAll;
    NamesFit(BindingTargets(target), Shared(BindingTargets(target), how));
  }

  // ----- lists -----

  lemma {:induction false} AllFit(nodes: seq<Node>)
    ensures Fit(ActsAll(nodes), EffectOfAll(nodes))
    decreases nodes
  {
    hide Fit, Within, Effect.Then, Own, StrayNames, EffectOf, Acts;
    if nodes == [] {
      NothingOwned();
      StillFits(NOTHING);
    } else {
      AllFit(nodes[..|nodes| - 1]);
      ActsFit(nodes[|nodes| - 1]);
      ThenFits(ActsAll(nodes[..|nodes| - 1]), Acts(nodes[|nodes| - 1]), EffectOfAll(nodes[..|nodes| - 1]),
               EffectOf(nodes[|nodes| - 1]));
    }
  }

  lemma FitWithin(t: iset<Trace>, e: Effect)
    requires Fit(t, e)
    ensures Within(t, e) && Within(Cut(t), e) && Within(Maybe(t), e)
  {
    CutWithin(t, e);
  }

  lemma {:induction false} LooseWithin(nodes: seq<Node>)
    ensures Within(LooseActs(nodes), EffectOfAll(nodes))
    decreases nodes
  {
    hide Fit, Within, Effect.Then, Own, StrayNames, EffectOf, Acts;
    if nodes == [] {
      NothingOwned();
      StillFits(NOTHING);
      FitWithin(STILL, NOTHING);
    } else {
      var front, last := nodes[..|nodes| - 1], nodes[|nodes| - 1];
      LooseWithin(front);
      ActsFit(last);
      FitWithin(Acts(last), EffectOf(last));
      ThenWithin(LooseActs(front), Cut(Acts(last)), EffectOfAll(front), EffectOf(last));
    }
  }

  lemma {:induction false} OptionFits(node: Option<Node>)
    ensures Fit(OptionActs(node), EffectOfOption(node))
    decreases node
  {
    hide Fit, Own, StrayNames, EffectOf, Acts;
    match node {
      case None => NothingOwned(); StillFits(NOTHING);
      case Some(n) => ActsFit(n);
    }
  }

  lemma {:induction false} AnnotationsFit(params: seq<Param>)
    ensures Fit(AnnotationActs(params), AnnotationEffect(params))
    decreases params
  {
    hide Fit, Within, Effect.Then, Own, StrayNames, EffectOfOption, OptionActs;
    if params == [] {
      NothingOwned();
      StillFits(NOTHING);
    } else {
      var front, last := params[..|params| - 1], params[|params| - 1];
      AnnotationsFit(front);
      AnnotationFits(last);
      ThenFits(AnnotationActs(front), OptionActs(last.annotation), AnnotationEffect(front),
               EffectOfOption(last.annotation));
    }
  }

  lemma {:induction false} AnnotationFits(param: Param)
    ensures Fit(OptionActs(param.annotation), EffectOfOption(param.annotation))
    decreases param
  {
    OptionFits(param.annotation);
  }

  lemma {:induction false} ParametersFit(p: Parameters)
    ensures Fit(ParameterActs(p), ParameterEffect(p))
    decreases p
  {
    hide Fit, Effect.Then, EffectOfAll, AnnotationEffect, ActsAll, AnnotationActs;
    AllFit(p.defaults);
    AnnotationsFit(p.params);
    ThenFits(ActsAll(p.defaults), AnnotationActs(p.params), EffectOfAll(p.defaults), AnnotationEffect(p.params));
  }

  lemma {:induction false} OperandsWithin(operands: seq<Node>)
    ensures Within(OperandActs(operands), OperandEffect(operands))
    decreases operands
  {
    hide Fit, Within, Effect.Then, Own, StrayNames, EffectOf, Acts;
    if |operands| <= 1 {
      NothingOwned();
      StillFits(NOTHING);
      FitWithin(STILL, NOTHING);
    } else {
      var front, last := operands[..|operands| - 1], operands[|operands| - 1];
      OperandsWithin(front);
      ActsFit(last);
      FitWithin(Acts(last), EffectOf(last));
      ThenWithin(OperandActs(front), Maybe(Acts(last)), OperandEffect(front), EffectOf(last));
    }
  }

  lemma {:induction false} ImportsFit(aliases: seq<Alias>, pos: Position)
    ensures Fit(ImportActs(aliases, pos), AliasEffect(aliases, pos))
  {
    hide Fit, Within, Effect.Then, Own, StrayNames, Imports, Bind;
    if aliases == [] {
      NothingOwned();
      StillFits(NOTHING);
    } else {
      var front, last := aliases[..|aliases| - 1], aliases[|aliases| - 1];
      var how := Bound(ImportBinding, Some(last.path), false, true, false);
      ImportsFit(front, pos);
      OneFits(AliasName(last), how, pos, 0);
      NotedFits(One(Takes(BindingFact(0, AliasName(last), how, [], pos), 0)),
                PlainImport(last.path, last.asName, ModuleId, pos), Bind(AliasName(last), how, pos));
      ThenFits(ImportActs(front, pos), One(Takes(BindingFact(0, AliasName(last), how, [], pos), 0)),
               AliasEffect(front, pos), AliasOne(last, pos));
    }
  }

  /** Noting the import itself binds nothing. */
  lemma NotedFits(t: iset<Trace>, fact: ImportFact, e: Effect)
    requires Fit(t, e)
    ensures Fit(t, Imports(fact).Then(e))
  {
    hide Fit, Own, StrayNames, Effect.Then, Imports;
    NothingRecorded(fact, None, fact.pos);
    OwnThen(Imports(fact), e);
    SameFit(t, e, Imports(fact).Then(e));
  }

  lemma {:induction false} FromsFit(base: Option<Dotted>, level: nat, aliases: seq<FromAlias>, pos: Position)
    ensures Fit(FromActs(aliases, pos), FromAliasEffect(base, level, aliases, pos))
  {
    hide Fit, Within, Effect.Then, Own, StrayNames, Imports, Bind;
    if aliases == [] {
      NothingOwned();
      StillFits(NOTHING);
    } else {
      var front, last := aliases[..|aliases| - 1], aliases[|aliases| - 1];
      var name := if last.asName.Some? then last.asName.value else last.name;
      var how := Bound(ImportBinding, None, false, true, false);
      var fact := FromImport(base, level, last.name, last.asName, ModuleId, pos);
      var one := if last.name == "*" then STILL else One(Takes(BindingFact(0, name, how, [], pos), 0));
      FromsFit(base, level, front, pos);
      if last.name == "*" {
        NothingRecorded(fact, None, pos);
        StillFits(Imports(fact));
      } else {
        OneFits(name, how, pos, 0);
        NotedFits(one, fact, Bind(name, how, pos));
      }
      ThenFits(FromActs(front, pos), one, FromAliasEffect(base, level, front, pos),
               FromAliasOne(base, level, last, pos));
    }
  }

  // ----- pieces of statements -----

  lemma UnionWithin(a: iset<Trace>, b: iset<Trace>, e: Effect, f: Effect)
    requires Within(a, e) && Within(b, f)
    ensures Within(a + b, e.Then(f)) && Within(a, e.Then(f)) && Within(b, e.Then(f))
  {
    OwnThen(e, f);
    MoreWithin(a, e, e.Then(f));
    MoreWithin(b, f, e.Then(f));
  }

  /** Records are the same however a row of effects is put together. */
  lemma Regroup(a: Effect, b: Effect, c: Effect, d: Effect)
    ensures Own(a.Then(b).Then(c).Then(d)) == Own(a.Then(b.Then(c).Then(d)))
    ensures StrayNames(a.Then(b).Then(c).Then(d)) == StrayNames(a.Then(b.Then(c).Then(d)))
    ensures Own(a.Then(b).Then(c)) == Own(a.Then(b.Then(c)))
      && StrayNames(a.Then(b).Then(c)) == StrayNames(a.Then(b.Then(c)))
  {
    hide Own, StrayNames, Effect.Then;
    OwnThen(a, b);
    OwnThen(b, c);
    OwnThen(a, b.Then(c));
    OwnThen(a.Then(b), c);
    OwnThen(a.Then(b).Then(c), d);
    OwnThen(b.Then(c), d);
    OwnThen(a, b.Then(c).Then(d));
  }

  /** Three pieces, and what they are bound to afterwards: a definition is recorded in front of its header. */
  lemma HeaderFits(a: iset<Trace>, b: iset<Trace>, c: iset<Trace>, last: iset<Trace>, e: Effect, f: Effect, g: Effect,
                   bind: Effect)
    requires Fit(a, e) && Fit(b, f) && Fit(c, g) && Fit(last, bind)
    ensures Fit(Then(Then(Then(a, b), c), last), bind.Then(e).Then(f).Then(g))
  {
    hide Fit, Own, StrayNames, Effect.Then, Then;
    ThenFits(a, b, e, f);
    ThenFits(Then(a, b), c, e.Then(f), g);
    ThenFits(Then(Then(a, b), c), last, e.Then(f).Then(g), bind);
    Regroup(bind, e, f, g);
    SameFit(Then(Then(Then(a, b), c), last), bind.Then(e.Then(f).Then(g)), bind.Then(e).Then(f).Then(g));
  }

  /** A test, then one of two blocks under a control keyword. */
  lemma EitherFits(k: Control, a: iset<Trace>, b: iset<Trace>, c: iset<Trace>, e: Effect, f: Effect, g: Effect)
    requires Fit(a, e) && Fit(b, f) && Fit(c, g)
    ensures Fit(Then(a, Under(k, b + c)), e.Then(f.Then(g).Under(k)))
  {
    hide Fit, Own, StrayNames, Effect.Then, Effect.Under, Then, Under, Within;
    FitWithin(b, f);
    FitWithin(c, g);
    UnionWithin(b, c, f, g);
    UnderFits(k, b + c, f.Then(g));
    ThenFits(a, Under(k, b + c), e, f.Then(g).Under(k));
  }

  lemma WhileFits(k: Control, a: iset<Trace>, b: iset<Trace>, c: iset<Trace>, e: Effect, f: Effect, g: Effect)
    requires Fit(a, e) && Fit(b, f) && Fit(c, g)
    ensures Fit(Then(Then(a, Rounds(Then(Under(k, Cut(b)), a))), Under(k, Maybe(Cut(b) + c))),
                e.Then(f.Then(g).Under(k)))
  {
    hide Fit, Own, StrayNames, Effect.Then, Effect.Under, Then, Under, Within, Cut, Maybe, Rounds;
    var all, inside := e.Then(f.Then(g).Under(k)), f.Then(g).Under(k);
    FitWithin(a, e);
    FitWithin(b, f);
    FitWithin(c, g);
    UnionWithin(Cut(b), c, f, g);
    UnderFits(k, Cut(b), f.Then(g));
    FitWithin(Under(k, Cut(b)), inside);
    UnionWithin(a, Under(k, Cut(b)), e, inside);
    BothWithin(Under(k, Cut(b)), a, all);
    RoundsWithin(Then(Under(k, Cut(b)), a), all);
    FirstFits(a, Rounds(Then(Under(k, Cut(b)), a)), e, all);
    CutWithin(Cut(b) + c, f.Then(g));
    UnderFits(k, Maybe(Cut(b) + c), f.Then(g));
    var front := Then(a, Rounds(Then(Under(k, Cut(b)), a)));
    LastFits(front, Under(k, Maybe(Cut(b) + c)), e, all, inside);
  }

  /** What is certain in `e` has happened in front; behind it anything recorded may follow. */
  lemma FirstFits(a: iset<Trace>, b: iset<Trace>, e: Effect, all: Effect)
    requires Fit(a, e) && Within(a, all) && Within(b, all)
    ensures forall z :: z in Then(a, b) ==> Whole(z, Own(e)) && Only(z, Own(all), StrayNames(all))
  {
    forall x, y | x in a && y in b ensures Whole(x + y, Own(e)) && Only(x + y, Own(all), StrayNames(all)) {
      JoinFits(x, y, Own(all), Own(all), StrayNames(all), StrayNames(all));
      assert Own(all) + Own(all) == Own(all) && StrayNames(all) + StrayNames(all) == StrayNames(all);
      forall g | g in Own(e) && Certain(g) ensures Taken(x + y, g) { assert Taken(x, g); }
    }
  }

  lemma LastFits(front: iset<Trace>, b: iset<Trace>, e: Effect, all: Effect, inside: Effect)
    requires all == e.Then(inside) && Fit(b, inside)
    requires forall z :: z in front ==> Whole(z, Own(e)) && Only(z, Own(all), StrayNames(all))
    ensures Fit(Then(front, b), all)
  {
    hide Own, StrayNames, Effect.Then;
    OwnThen(e, inside);
    forall x, y | x in front && y in b ensures Whole(x + y, Own(all)) && Only(x + y, Own(all), StrayNames(all)) {
      JoinFits(x, y, Own(all), Own(inside), StrayNames(all), StrayNames(inside));
      assert Own(all) + Own(inside) == Own(all) && StrayNames(all) + StrayNames(inside) == StrayNames(all);
      forall g | g in Own(all) && Certain(g) ensures Taken(x + y, g) {
        if g in Own(e) { assert Taken(x, g); } else { assert Taken(y, g); }
      }
    }
  }

  lemma ForFits(k: Control, iter: iset<Trace>, target: iset<Trace>, b: iset<Trace>, c: iset<Trace>, e: Effect,
                f: Effect, g: Effect, h: Effect)
    requires Fit(iter, e) && Fit(target, f) && Fit(b, g) && Fit(c, h)
    ensures Fit(Then(iter, Under(k, Then(Rounds(Then(target, Cut(b))), Maybe(c)))), e.Then(f.Then(g).Then(h).Under(k)))
  {
    hide Fit, Own, StrayNames, Effect.Then, Effect.Under, Then, Under, Within, Cut, Maybe, Rounds;
    FitWithin(target, f);
    FitWithin(b, g);
    FitWithin(c, h);
    ThenWithin(target, Cut(b), f, g);
    RoundsWithin(Then(target, Cut(b)), f.Then(g));
    ThenWithin(Rounds(Then(target, Cut(b))), Maybe(c), f.Then(g), h);
    UnderFits(k, Then(Rounds(Then(target, Cut(b))), Maybe(c)), f.Then(g).Then(h));
    ThenFits(iter, Under(k, Then(Rounds(Then(target, Cut(b))), Maybe(c))), e, f.Then(g).Then(h).Under(k));
  }

  // ----- `with`, `match`, handlers, comprehensions -----

  /** Managers are certain, targets are under the keyword; they come in turns and are recorded apart. */
  lemma {:induction false} ItemsFit(items: seq<WithItem>, control: Control)
    ensures Fit(ItemActs(items, control), ItemManagers(items).Then(ItemTargets(items).Under(control)))
    decreases items
  {
    hide Fit, Within, Effect.Then, Effect.Under, Own, StrayNames, OneItem, ManagerEffect, VarsEffect;
    if items == [] {
      NoItems(control);
    } else {
      var front, last := items[..|items| - 1], items[|items| - 1];
      ItemsFit(front, control);
      ItemFits(last, control);
      var e, f :=
        ItemManagers(front).Then(ItemTargets(front).Under(control)),
        ManagerEffect(last).Then(VarsEffect(last).Under(control));
      ThenFits(ItemActs(front, control), OneItem(last, control), e, f);
      ItemsJoin(ItemManagers(front), ItemTargets(front), ManagerEffect(last), VarsEffect(last), control);
      SameFit(ItemActs(items, control), e.Then(f), ItemManagers(items).Then(ItemTargets(items).Under(control)));
    }
  }

  lemma NoItems(control: Control)
    ensures Fit(STILL, NOTHING.Then(NOTHING.Under(control)))
  {
    NothingOwned();
    assert NOTHING.Under(control) == NOTHING;
    OwnThen(NOTHING, NOTHING);
    StillFits(NOTHING.Then(NOTHING));
  }

  lemma UnderThen(e: Effect, f: Effect, k: Control)
    ensures e.Then(f).Under(k) == e.Under(k).Then(f.Under(k))
  {
  }

  lemma ItemsJoin(a: Effect, b: Effect, c: Effect, d: Effect, k: Control)
    ensures Own(a.Then(b.Under(k)).Then(c.Then(d.Under(k)))) == Own(a.Then(c).Then(b.Then(d).Under(k)))
    ensures StrayNames(a.Then(b.Under(k)).Then(c.Then(d.Under(k)))) == StrayNames(a.Then(c).Then(b.Then(d).Under(k)))
  {
    hide Own, StrayNames, Effect.Then, Effect.Under;
    UnderThen(b, d, k);
    OwnThen(a, b.Under(k));
    OwnThen(c, d.Under(k));
    OwnThen(a.Then(b.Under(k)), c.Then(d.Under(k)));
    OwnThen(a, c);
    OwnThen(b.Under(k), d.Under(k));
    OwnThen(a.Then(c), b.Under(k).Then(d.Under(k)));
  }

  lemma {:induction false} ItemFits(item: WithItem, control: Control)
    ensures Fit(OneItem(item, control), ManagerEffect(item).Then(VarsEffect(item).Under(control)))
    decreases item
  {
    hide Fit, Within, Effect.Then, Effect.Under, Own, StrayNames, EffectOf, Acts, TargetEffect, BindingActs, Then,
         Under;
    ActsFit(item.manager);
    match item.vars {
      case None =>
        NothingOwned();
        NothingUnder(control);
        StillFits(NOTHING);
        ThenFits(Acts(item.manager), STILL, EffectOf(item.manager), NOTHING);
      case Some(target) =>
        BindingFits(target, Dynamic(WithTarget));
        FitWithin(BindingActs(target, Dynamic(WithTarget)), TargetEffect(target, Dynamic(WithTarget)));
        UnderFits(control, BindingActs(target, Dynamic(WithTarget)), TargetEffect(target, Dynamic(WithTarget)));
        ThenFits(Acts(item.manager), Under(control, BindingActs(target, Dynamic(WithTarget))),
                 EffectOf(item.manager), TargetEffect(target, Dynamic(WithTarget)).Under(control));
    }
  }

  lemma NothingUnder(control: Control)
    ensures NOTHING.Under(control) == NOTHING
  {
  }

  lemma WithFits(k: Control, items: iset<Trace>, b: iset<Trace>, managers: Effect, targets: Effect, e: Effect)
    requires Fit(items, managers.Then(targets.Under(k))) && Fit(b, e)
    ensures Fit(Then(items, Under(k, Cut(b))), managers.Then(targets.Then(e).Under(k)))
  {
    hide Fit, Own, StrayNames, Effect.Then, Effect.Under, Then, Under, Within, Cut;
    FitWithin(b, e);
    UnderFits(k, Cut(b), e);
    ThenFits(items, Under(k, Cut(b)), managers.Then(targets.Under(k)), e.Under(k));
    UnderThen(targets, e, k);
    Regroup(managers, targets.Under(k), e.Under(k), NOTHING);
    SameFit(Then(items, Under(k, Cut(b))), managers.Then(targets.Under(k)).Then(e.Under(k)),
            managers.Then(targets.Under(k).Then(e.Under(k))));
  }

  lemma {:induction false} CasesWithin(cases: seq<MatchCase>)
    ensures Within(CaseActs(cases), CaseEffect(cases))
    decreases cases
  {
    hide Fit, Within, Effect.Then, Own, StrayNames, OneCase, CaseOne;
    if cases == [] {
      NothingOwned();
      StillFits(NOTHING);
      FitWithin(STILL, NOTHING);
    } else {
      var front, last := cases[..|cases| - 1], cases[|cases| - 1];
      CasesWithin(front);
      CaseWithin(last);
      ThenWithin(CaseActs(front), OneCase(last), CaseEffect(front), CaseOne(last));
    }
  }

  lemma {:induction false} CaseWithin(c: MatchCase)
    ensures Within(OneCase(c), CaseOne(c))
    decreases c
  {
    hide Fit, Within, Effect.Then, Own, StrayNames, EffectOfOption, EffectOfAll, OptionActs, ActsAll, NameTakes,
         BindAll, Then, Cut;
    var names := iset{NameTakes(c.captures, Dynamic(PatternCapture))};
    NamesFit(c.captures, Dynamic(PatternCapture));
    OptionFits(c.guard);
    AllFit(c.body);
    ThenFits(names, OptionActs(c.guard), BindAll(c.captures, Dynamic(PatternCapture)), EffectOfOption(c.guard));
    var front, e :=
      Then(names, OptionActs(c.guard)), BindAll(c.captures, Dynamic(PatternCapture)).Then(EffectOfOption(c.guard));
    ThenFits(front, ActsAll(c.body), e, EffectOfAll(c.body));
    FitWithin(Then(front, ActsAll(c.body)), e.Then(EffectOfAll(c.body)));
  }

  /** Binding the name, the body, and unbinding the name. */
  lemma HandlerFits(name: string, body: iset<Trace>, pos: Position, e: Effect)
    requires Fit(body, e)
    ensures Fit(HandlerActs(Some(name), body, pos), Bind(name, Dynamic(ExceptTarget), pos).Then(e))
  {
    var bind := Bind(name, Dynamic(ExceptTarget), pos);
    var one := One(Takes(BindingFact(0, name, Dynamic(ExceptTarget), [], pos), 0));
    OneFits(name, Dynamic(ExceptTarget), pos, 0);
    ThenFits(one, body, bind, e);
    OwnThen(bind, e);
    UnboundFits(Then(one, body), BindingFact(0, name, Bound(Delete, None, true, false, false), [], pos), bind.Then(e));
  }

  lemma UnboundFits(t: iset<Trace>, b: BindingFact, e: Effect)
    requires Fit(t, e) && b.place == 0 && b.name in StrayNames(e)
    ensures Fit(Then(t, One(Takes(b, 0))), e)
  {
    hide Own, StrayNames;
    forall x | x in t ensures Whole(x + [Takes(b, 0)], Own(e)) && Only(x + [Takes(b, 0)], Own(e), StrayNames(e)) {
      assert forall a :: a in x + [Takes(b, 0)] <==> a in x || a == Takes(b, 0);
      forall g | g in Own(e) && Certain(g) ensures Taken(x + [Takes(b, 0)], g) { assert Taken(x, g); }
    }
  }

  lemma TryFits(b: iset<Trace>, handlers: iset<Trace>, c: iset<Trace>, e: Effect, f: Effect, g: Effect)
    requires Fit(b, e) && Within(handlers, f) && Within(c, g)
    ensures Fit(Under(TryControl, Then(Then(Cut(b), handlers), c)), e.Then(f).Then(g).Under(TryControl))
  {
    hide Fit, Own, StrayNames, Effect.Then, Effect.Under, Then, Under, Within, Cut;
    FitWithin(b, e);
    ThenWithin(Cut(b), handlers, e, f);
    ThenWithin(Then(Cut(b), handlers), c, e.Then(f), g);
    UnderFits(TryControl, Then(Then(Cut(b), handlers), c), e.Then(f).Then(g));
  }

  /** The walruses of a comprehension bind names of the scope around it. */
  lemma ComprehensionFits(t: iset<Trace>, e: Effect, f: Effect, kind: ScopeKind, name: string)
    requires Fit(t, e)
    ensures var all := e.Then(f.Inside(kind, name, {}, {})); Fit(Then(t, StrayActs(all)), all)
  {
    var all := e.Then(f.Inside(kind, name, {}, {}));
    InsideFits(t, e, f, kind, name, {}, {});
    forall y | y in StrayActs(all) ensures Only(y, Own(all), StrayNames(all)) {
      forall a | a in y ensures Recorded(a, Own(all), StrayNames(all)) { assert Stray(all, a); }
    }
    forall x, y | x in t && y in StrayActs(all)
      ensures Whole(x + y, Own(all)) && Only(x + y, Own(all), StrayNames(all))
    {
      JoinFits(x, y, Own(all), Own(all), StrayNames(all), StrayNames(all));
      assert Own(all) + Own(all) == Own(all) && StrayNames(all) + StrayNames(all) == StrayNames(all);
      forall g | g in Own(all) && Certain(g) ensures Taken(x + y, g) { assert Taken(x, g); }
    }
  }

  /** A bare annotation binds nothing. */
  lemma BareFits(target: iset<Trace>, annotation: iset<Trace>, e: Effect, f: Effect, names: seq<(string, Position)>,
                 how: Bound)
    requires Fit(target, e) && Fit(annotation, f) && how.kind.Annotation?
    ensures Fit(Then(target, annotation), f.Then(NOTHING).Then(e.Then(BindAll(names, how))))
  {
    hide Effect.Then, Own, StrayNames;
    var all := f.Then(NOTHING).Then(e.Then(BindAll(names, how)));
    ThenFits(target, annotation, e, f);
    NothingOwned();
    OwnThen(e, f);
    OwnThen(f, NOTHING);
    OwnThen(e, BindAll(names, how));
    OwnThen(f.Then(NOTHING), e.Then(BindAll(names, how)));
    BindAllBare(names, how);
    assert Own(e.Then(f)) <= Own(all) && StrayNames(e.Then(f)) <= StrayNames(all);
    MoreWithin(Then(target, annotation), e.Then(f), all);
    forall x | x in Then(target, annotation) ensures Whole(x, Own(all)) {
      assert Whole(x, Own(e.Then(f)));
    }
  }

  lemma {:induction false} BindAllBare(names: seq<(string, Position)>, how: Bound)
    requires how.kind.Annotation?
    ensures forall g :: g in Own(BindAll(names, how)) ==> !Certain(g)
  {
    hide Effect.Then, Own;
    if names == [] {
      NothingOwned();
    } else {
      var front, last := names[..|names| - 1], names[|names| - 1];
      BindAllBare(front, how);
      OwnThen(BindAll(front, how), Bind(last.0, how, last.1));
      assert Own(Bind(last.0, how, last.1)) == {BindingFact(0, last.0, how, [], last.1)} by {
        OwnBind(last.0, how, last.1);
      }
    }
  }

  lemma OwnBind(name: string, how: Bound, pos: Position)
    ensures Own(Bind(name, how, pos)) == {BindingFact(0, name, how, [], pos)}
  {
  }

  // ----- every piece of syntax -----

  /** A run of a piece of syntax takes exactly what the visitor records of it, in its own order. */
  lemma {:induction false} ActsFit(node: Node)
    ensures Fit(Acts(node), EffectOf(node))
    decreases node, 2
  {
    hide Fit, Within, Own, StrayNames, Effect.Then, Effect.Under, Effect.Inside, ActsAll, EffectOfAll, Then, Under,
         AssignActs, TargetsEffect, BindingActs, TargetEffect, NamedActs, BindTargets, ParameterActs, ParameterEffect,
         LooseActs, CaseActs, CaseEffect;
    match node {
      case Name(_, _) => NothingOwned(); StillFits(NOTHING);
      case Attribute(value, _) => ActsFit(value);
      case Display(elements) => AllFit(elements);
      case Starred(inner) => ActsFit(inner);
      case CallExpr(_, _, _) => CallFits(node);
      case LambdaExpr(parameters, result, _) =>
        ParametersFit(parameters);
        InsideFits(ParameterActs(parameters), ParameterEffect(parameters),
                   ParamNames(parameters.params).Then(EffectOf(result)), LambdaKind, "<lambda>", {}, {});
      case Comprehension(_, _, values, _) => if node.generators == [] { AllFit(values); } else { GeneratorsFit(node); }
      case IfExp(test, body, orelse) =>
        ActsFit(test);
        ActsFit(body);
        ActsFit(orelse);
        EitherFits(ExpressionBranch, Acts(test), Acts(body), Acts(orelse), EffectOf(test), EffectOf(body),
                   EffectOf(orelse));
      case BoolOp(operands) => if operands == [] { NothingOwned(); StillFits(NOTHING); } else { BoolOpFits(node); }
      case NamedExpr(target, value) =>
        ActsFit(value);
        NamedFits(target, Assigned(NamedExpression, value));
        ThenFits(Acts(value), NamedActs(target, Assigned(NamedExpression, value)),
                 EffectOf(value), BindTargets(target, Assigned(NamedExpression, value)));
      case _ => StatementFits(node);
    }
  }

  lemma {:induction false} StatementFits(node: Node)
    requires !node.Name? && !node.Attribute? && !node.Display? && !node.Starred? && !node.CallExpr? && !node.LambdaExpr?
    requires !node.Comprehension? && !node.IfExp? && !node.BoolOp? && !node.NamedExpr?
    ensures Fit(Acts(node), EffectOf(node))
    decreases node, 1
  {
    hide Fit, Within, Own, StrayNames, Effect.Then, Effect.Under, Effect.Inside, ActsAll, EffectOfAll, Then, Under,
         AssignActs, TargetsEffect, BindingActs, TargetEffect, NamedActs, BindTargets, LooseActs, CaseActs, CaseEffect;
    match node {
      case ClassDef(_, _, _, _, _, _) => ClassFits(node);
      case FunctionDef(_, _, _, _, _, _, _) => FunctionFits(node);
      case Import(aliases, pos) => ImportsFit(aliases, pos);
      case ImportFrom(base, level, aliases, pos) => FromsFit(base, level, aliases, pos);
      case GlobalStmt(_) => NothingOwned(); StillFits(NOTHING);
      case NonlocalStmt(_) => NothingOwned(); StillFits(NOTHING);
      case Assign(targets, value) =>
        ActsFit(value);
        AssignFits(targets, Assigned(Assignment, value));
        ThenFits(Acts(value), AssignActs(targets, Assigned(Assignment, value)),
                 EffectOf(value), TargetsEffect(targets, Assigned(Assignment, value)));
      case AnnAssign(_, _, _) => AnnAssignFits(node);
      case AugAssign(target, value) =>
        ActsFit(target);
        ActsFit(value);
        NamedFits(target, Dynamic(AugmentedAssignment));
        ThenFits(Acts(target), Acts(value), EffectOf(target), EffectOf(value));
        ThenFits(Then(Acts(target), Acts(value)), NamedActs(target, Dynamic(AugmentedAssignment)),
                 EffectOf(target).Then(EffectOf(value)), BindTargets(target, Dynamic(AugmentedAssignment)));
      case DeleteStmt(targets) => AssignFits(targets, Bound(Delete, None, true, false, false));
      case Branch(_, _, _, _) => BranchFits(node);
      case Loop(_, _, _, _, _) => LoopFits(node);
      case With(control, items, body) =>
        ItemsFit(items, control);
        AllFit(body);
        WithFits(control, ItemActs(items, control), ActsAll(body), ItemManagers(items), ItemTargets(items),
                 EffectOfAll(body));
      case Try(body, handlers, orelse) =>
        AllFit(body);
        LooseWithin(handlers);
        LooseWithin(orelse);
        TryFits(ActsAll(body), LooseActs(handlers), LooseActs(orelse), EffectOfAll(body), EffectOfAll(handlers),
                EffectOfAll(orelse));
      case Match(subject, cases) =>
        ActsFit(subject);
        CasesWithin(cases);
        UnderFits(MatchControl, CaseActs(cases), CaseEffect(cases));
        ThenFits(Acts(subject), Under(MatchControl, CaseActs(cases)), EffectOf(subject),
                 CaseEffect(cases).Under(MatchControl));
      case ExceptHandler(_, _, _, _) => ExceptFits(node);
      case Other(children) => AllFit(children);
    }
  }

  lemma {:induction false} BranchFits(node: Node)
    requires node.Branch?
    ensures Fit(Acts(node), EffectOf(node))
    decreases node, 0
  {
    hide Fit, Effect.Then, Effect.Under, ActsAll, EffectOfAll, Then, Under, TargetEffect, BindingActs;
    var Branch(control, test, body, orelse) := node;
    ActsFit(test);
    AllFit(body);
    AllFit(orelse);
    if control.WhileControl? {
      WhileFits(control, Acts(test), ActsAll(body), ActsAll(orelse), EffectOf(test), EffectOfAll(body),
                EffectOfAll(orelse));
    } else {
      EitherFits(control, Acts(test), ActsAll(body), ActsAll(orelse), EffectOf(test), EffectOfAll(body),
                 EffectOfAll(orelse));
    }
  }

  lemma {:induction false} LoopFits(node: Node)
    requires node.Loop?
    ensures Fit(Acts(node), EffectOf(node))
    decreases node, 0
  {
    hide Fit, Effect.Then, Effect.Under, ActsAll, EffectOfAll, Then, Under, TargetEffect, BindingActs;
    var Loop(control, target, iter, body, orelse) := node;
    ActsFit(iter);
    BindingFits(target, Dynamic(ForTarget));
    AllFit(body);
    AllFit(orelse);
    ForFits(control, Acts(iter), BindingActs(target, Dynamic(ForTarget)), ActsAll(body), ActsAll(orelse),
            EffectOf(iter), TargetEffect(target, Dynamic(ForTarget)), EffectOfAll(body), EffectOfAll(orelse));
  }

  lemma {:induction false} CallFits(node: Node)
    requires node.CallExpr?
    ensures Fit(Acts(node), EffectOf(node))
    decreases node, 0
  {
    hide Fit, Effect.Then, ActsAll, EffectOfAll, Then;
    var first, called :=
      One(Reads(CallFact(0, ExpressionName(node.func), [], node.pos))), Calls(ExpressionName(node.func), node.pos);
    ReadFits(ExpressionName(node.func), node.pos);
    ActsFit(node.func);
    AllFit(node.arguments);
    ThenFits(first, Acts(node.func), called, EffectOf(node.func));
    ThenFits(Then(first, Acts(node.func)), ActsAll(node.arguments), called.Then(EffectOf(node.func)),
             EffectOfAll(node.arguments));
  }

  lemma {:induction false} GeneratorsFit(node: Node)
    requires node.Comprehension? && node.generators != []
    ensures Fit(Acts(node), EffectOf(node))
    decreases node, 0
  {
    hide Fit, Effect.Then, Effect.Under, Effect.Inside, EffectOfAll, Then, StrayActs, FirstGenerator, GeneratorEffect;
    var inside :=
      FirstGenerator(node.generators[0]).Then(GeneratorEffect(node.generators)).Then(EffectOfAll(node.values))
        .Under(ComprehensionControl);
    IterFits(node.generators[0]);
    ComprehensionFits(FirstIter(node.generators[0]), EffectOf(node.generators[0].iter), inside, ComprehensionKind,
                      node.shape);
  }

  lemma {:induction false} IterFits(g: Generator)
    ensures Fit(FirstIter(g), EffectOf(g.iter))
    decreases g
  {
    ActsFit(g.iter);
  }

  lemma {:induction false} BoolOpFits(node: Node)
    requires node.BoolOp? && node.operands != []
    ensures Fit(Acts(node), EffectOf(node))
    decreases node, 0
  {
    hide Fit, Effect.Then, Effect.Under, Then, Under, OperandActs, OperandEffect;
    var operands := node.operands;
    ActsFit(operands[0]);
    OperandsWithin(operands);
    UnderFits(ShortCircuit, OperandActs(operands), OperandEffect(operands));
    ThenFits(Acts(operands[0]), Under(ShortCircuit, OperandActs(operands)), EffectOf(operands[0]),
             OperandEffect(operands).Under(ShortCircuit));
  }

  lemma {:induction false} ClassFits(node: Node)
    requires node.ClassDef?
    ensures Fit(Acts(node), EffectOf(node))
    decreases node, 0
  {
    hide Fit, Effect.Then, Effect.Inside, ActsAll, EffectOfAll, Then;
    AllFit(node.decorators);
    AllFit(node.bases);
    AllFit(node.keywords);
    OneFits(node.name, Defined(ClassBinding), node.pos, 0);
    HeaderFits(ActsAll(node.decorators), ActsAll(node.bases), ActsAll(node.keywords),
               One(Takes(BindingFact(0, node.name, Defined(ClassBinding), [], node.pos), 0)),
               EffectOfAll(node.decorators), EffectOfAll(node.bases), EffectOfAll(node.keywords),
               Bind(node.name, Defined(ClassBinding), node.pos));
    InsideFits(Acts(node), ClassHead(node), EffectOfAll(node.body), ClassKind, node.name, Declared(node.body, true),
               Declared(node.body, false));
  }

  lemma {:induction false} FunctionFits(node: Node)
    requires node.FunctionDef?
    ensures Fit(Acts(node), EffectOf(node))
    decreases node, 0
  {
    hide Fit, Effect.Then, Effect.Inside, ActsAll, EffectOfAll, Then, ParameterActs, ParameterEffect;
    var how := Defined(if node.isAsync then AsyncFunctionBinding else FunctionBinding);
    AllFit(node.decorators);
    ParametersFit(node.parameters);
    OptionFits(node.returned);
    OneFits(node.name, how, node.pos, 0);
    HeaderFits(ActsAll(node.decorators), ParameterActs(node.parameters), OptionActs(node.returned),
               One(Takes(BindingFact(0, node.name, how, [], node.pos), 0)), EffectOfAll(node.decorators),
               ParameterEffect(node.parameters), EffectOfOption(node.returned), Bind(node.name, how, node.pos));
    InsideFits(Acts(node), FunctionHead(node), ParamNames(node.parameters.params).Then(EffectOfAll(node.body)),
               if node.isAsync then AsyncFunctionKind else FunctionKind, node.name, Declared(node.body, true),
               Declared(node.body, false));
  }

  lemma {:induction false} AnnAssignFits(node: Node)
    requires node.AnnAssign?
    ensures Fit(Acts(node), EffectOf(node))
    decreases node, 0
  {
    hide Fit, Own, StrayNames, Effect.Then, Then, TargetActs, BindAll;
    ActsFit(node.annotation);
    match node.initial {
      case None =>
        var how := Bound(Annotation, None, true, false, false);
        ActsFit(node.target);
        BareFits(Acts(node.target), Acts(node.annotation), EffectOf(node.target), EffectOf(node.annotation),
                 BindingTargets(node.target), Shared(BindingTargets(node.target), how));
      case Some(value) =>
        var how := Assigned(AnnotatedAssignment, value);
        var a, b, c := EffectOf(node.annotation), EffectOf(value), TargetEffect(node.target, how);
        ActsFit(value);
        BindingFits(node.target, how);
        ThenFits(Acts(value), BindingActs(node.target, how), b, c);
        ThenFits(Then(Acts(value), BindingActs(node.target, how)), Acts(node.annotation), b.Then(c), a);
        Regroup(a, b, c, NOTHING);
        SameFit(Acts(node), a.Then(b.Then(c)), a.Then(b).Then(c));
    }
  }

  lemma {:induction false} ExceptFits(node: Node)
    requires node.ExceptHandler?
    ensures Fit(Acts(node), EffectOf(node))
    decreases node, 0
  {
    hide Fit, Own, StrayNames, Effect.Then, Then, ActsAll, EffectOfAll, HandlerActs, OptionActs, EffectOfOption;
    var a, b := EffectOfOption(node.caught), EffectOfAll(node.body);
    OptionFits(node.caught);
    AllFit(node.body);
    match node.bound {
      case None =>
        NothingOwned();
        NoName(ActsAll(node.body), node.pos);
        ThenFits(OptionActs(node.caught), ActsAll(node.body), a, b);
        OwnThen(a, NOTHING);
        OwnThen(a.Then(NOTHING), b);
        OwnThen(a, b);
        SameFit(Acts(node), a.Then(b), a.Then(NOTHING).Then(b));
      case Some(name) =>
        var bind := Bind(name, Dynamic(ExceptTarget), node.pos);
        HandlerFits(name, ActsAll(node.body), node.pos, b);
        ThenFits(OptionActs(node.caught), HandlerActs(node.bound, ActsAll(node.body), node.pos), a, bind.Then(b));
        Regroup(a, bind, b, NOTHING);
        SameFit(Acts(node), a.Then(bind.Then(b)), a.Then(bind).Then(b));
    }
  }

  lemma NoName(body: iset<Trace>, pos: Position)
    ensures HandlerActs(None, body, pos) == body
  {
  }
}
