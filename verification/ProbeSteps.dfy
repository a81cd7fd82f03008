/** The states of the fact collector: what holds in each of them, and what a step from one to another records. */
module ProbeSteps {
  import opened Common
  import opened ProbeFacts
  import opened PythonAst

  type Counters = map<(ScopeKind, Dotted), nat>

  /** The collector's fields at one moment. */
  datatype Snapshot = Snapshot(
    scopes: seq<Scope>,
    bindings: seq<Binding>,
    calls: seq<Call>,
    imports: seq<ImportFact>,
    stack: seq<Scope>,
    control: seq<Control>,
    counters: Counters,
    localNames: map<ScopeId, set<string>>)
  {
    ghost predicate HasTop() { |stack| > 0 && stack[|stack| - 1] in scopes }

    function Top(): Scope
      requires |stack| > 0
    {
      stack[|stack| - 1]
    }
  }

  const MODULE_RECORD := Scope(ModuleId, ModuleKind, None, None, None, {}, {}, {})

  const START := Snapshot([MODULE_RECORD], [], [], [], [MODULE_RECORD], [], map[], map[ModuleId := {}])

  function DeclarationIn(scope: Scope, name: string): Declaration {
    if scope.kind.ModuleKind? then Local
    else if name in scope.globals then Global
    else if name in scope.nonlocals then Nonlocal
    else Local
  }

  /** Function-like scopes skip a class they are defined in; every other scope looks in the one around it. */
  function LookupParentOf(kind: ScopeKind, around: Scope): Option<ScopeId> {
    if kind.FunctionLike() && around.kind.ClassKind? then around.lookupParent else Some(around.id)
  }

  /** A name as the scope around it qualifies it. */
  function QualifiedIn(scope: Scope, name: string): Dotted {
    match scope.qualified
    case None => [name]
    case Some(around) => around + [name]
  }

  /** How often a qualified name was used for a scope of a kind. */
  function Count(scopes: seq<Scope>, kind: ScopeKind, qualified: Dotted): nat {
    if scopes == [] then 0
    else
      var last := scopes[|scopes| - 1];
      Count(scopes[..|scopes| - 1], kind, qualified) +
        (if last.kind == kind && last.qualified == Some(qualified) then 1 else 0)
  }

  // ----- records, as the syntax and the scope they are in determine them -----

  /** The scope a fact stands for, numbered after the scopes before it. */
  function ScopeOf(before: seq<Scope>, around: Scope, f: ScopeFact): Scope {
    var qualified := QualifiedIn(around, f.name);
    Scope(Inner(f.kind, qualified, Count(before, f.kind, qualified) + 1), f.kind, Some(qualified), Some(around.id),
          LookupParentOf(f.kind, around), f.globals, f.nonlocals, f.locals)
  }

  function BindingOf(scope: Scope, control: seq<Control>, f: BindingFact): Binding {
    Binding(scope.id, f.name, f.how.kind, DeclarationIn(scope, f.name), f.how.value, f.how.dynamic, f.how.runtime,
            if f.how.defines then Some(QualifiedIn(scope, f.name)) else None, control + f.control, f.pos)
  }

  function CallOf(scope: Scope, control: seq<Control>, f: CallFact): Call {
    Call(f.callee, scope.id, control + f.control, f.pos)
  }

  function ImportOf(scope: Scope, f: ImportNote): ImportFact { f.fact.(scope := scope.id) }

  /**
   * The facts of a whole module, record by record, as its syntax determines them: place `k` is scope `k` of the list,
   * and scope 0 is `<module>`.
   */
  ghost predicate FactsOf(scopes: seq<Scope>, bindings: seq<Binding>, calls: seq<Call>, imports: seq<ImportFact>,
                          e: Effect) {
    && |scopes| == |e.scopes| + 1 && |bindings| == |e.bindings| && |calls| == |e.calls| && |imports| == |e.imports|
    && scopes[0] == MODULE_RECORD.(locals := e.names)
    && (forall i :: 0 <= i < |e.scopes| ==>
        e.scopes[i].around <= i && scopes[i + 1] == ScopeOf(scopes[..i + 1], scopes[e.scopes[i].around], e.scopes[i]))
    && (forall i :: 0 <= i < |bindings| ==>
        e.bindings[i].place < |scopes| && bindings[i] == BindingOf(scopes[e.bindings[i].place], [], e.bindings[i]))
    && (forall i :: 0 <= i < |calls| ==>
        e.calls[i].place < |scopes| && calls[i] == CallOf(scopes[e.calls[i].place], [], e.calls[i]))
    && (forall i :: 0 <= i < |imports| ==>
        e.imports[i].place < |scopes| && imports[i] == ImportOf(scopes[e.imports[i].place], e.imports[i]))
  }

  lemma {:induction false} ScopesDetermined(e: Effect, a: seq<Scope>, b: seq<Scope>, n: nat)
    requires |a| == |b| == |e.scopes| + 1 && a[0] == b[0] && n <= |e.scopes|
    requires forall i :: 0 <= i < |e.scopes| ==>
      e.scopes[i].around <= i && a[i + 1] == ScopeOf(a[..i + 1], a[e.scopes[i].around], e.scopes[i])
    requires forall i :: 0 <= i < |e.scopes| ==>
      e.scopes[i].around <= i && b[i + 1] == ScopeOf(b[..i + 1], b[e.scopes[i].around], e.scopes[i])
    ensures a[..n + 1] == b[..n + 1]
  {
    hide ScopeOf;
    if n > 0 {
      ScopesDetermined(e, a, b, n - 1);
      assert a[..n][e.scopes[n - 1].around] == b[..n][e.scopes[n - 1].around];
      assert a[..n + 1] == a[..n] + [a[n]] && b[..n + 1] == b[..n] + [b[n]];
    }
  }

  /** So the syntax determines the facts of a module completely. */
  lemma FactsDetermined(e: Effect, a: Snapshot, b: Snapshot)
    requires FactsOf(a.scopes, a.bindings, a.calls, a.imports, e)
      && FactsOf(b.scopes, b.bindings, b.calls, b.imports, e)
    ensures a.scopes == b.scopes && a.bindings == b.bindings && a.calls == b.calls && a.imports == b.imports
  {
    hide ScopeOf, BindingOf, CallOf, ImportOf;
    ScopesDetermined(e, a.scopes, b.scopes, |e.scopes|);
    assert a.scopes[..|a.scopes|] == a.scopes && b.scopes[..|b.scopes|] == b.scopes;
  }

  predicate KindFits(scope: Scope) {
    match scope.id
    case ModuleId => scope.kind == ModuleKind
    case Inner(kind, _, _) => scope.kind == kind
  }

  /** The kind of a scope can be read off its id. */
  lemma KindOfId(scopes: seq<Scope>, bindings: seq<Binding>, calls: seq<Call>, imports: seq<ImportFact>, e: Effect,
                 i: nat)
    requires FactsOf(scopes, bindings, calls, imports, e) && i < |scopes|
    ensures KindFits(scopes[i])
  {
    if i > 0 {
      assert scopes[i - 1 + 1] == ScopeOf(scopes[..i - 1 + 1], scopes[e.scopes[i - 1].around], e.scopes[i - 1]);
    }
  }

  ghost predicate LooksInClass(scopes: seq<Scope>, i: nat)
    requires i < |scopes|
  {
    exists j :: 0 <= j < |scopes| && Some(scopes[j].id) == scopes[i].lookupParent && scopes[j].kind.ClassKind?
  }

  /**
   * A function-like scope defined in a class skips that class, but only that one: it looks its names up in a class
   * exactly when the class around it is itself nested directly in a class.
   */
  lemma FunctionLooksInClassExactly(scopes: seq<Scope>, bindings: seq<Binding>, calls: seq<Call>,
                                    imports: seq<ImportFact>, e: Effect, i: nat)
    requires FactsOf(scopes, bindings, calls, imports, e) && i < |e.scopes| && e.scopes[i].kind.FunctionLike()
    ensures var around := e.scopes[i].around;
            LooksInClass(scopes, i + 1) <==>
              around > 0 && scopes[around].kind.ClassKind? && scopes[e.scopes[around - 1].around].kind.ClassKind?
  {
    hide FactsOf, Count;
    var p := e.scopes[i].around;
    PlacedIn(scopes, bindings, calls, imports, e, i);
    forall j | 0 <= j < |scopes| ensures KindFits(scopes[j]) {
      KindOfId(scopes, bindings, calls, imports, e, j);
    }
    if scopes[p].kind.ClassKind? { PlacedIn(scopes, bindings, calls, imports, e, p - 1); }
  }

  lemma PlacedIn(scopes: seq<Scope>, bindings: seq<Binding>, calls: seq<Call>, imports: seq<ImportFact>, e: Effect,
                 i: nat)
    requires FactsOf(scopes, bindings, calls, imports, e) && i < |e.scopes|
    ensures |scopes| == |e.scopes| + 1 && e.scopes[i].around <= i
    ensures scopes[i + 1] == ScopeOf(scopes[..i + 1], scopes[e.scopes[i].around], e.scopes[i])
    ensures scopes[0].kind == ModuleKind
  {
  }

  lemma FactsCounted(scopes: seq<Scope>, bindings: seq<Binding>, calls: seq<Call>, imports: seq<ImportFact>, e: Effect)
    requires FactsOf(scopes, bindings, calls, imports, e)
    ensures |scopes| == |e.scopes| + 1 && scopes[0] == MODULE_RECORD.(locals := e.names)
  {
  }

  const ORIGIN := Position(1, 0)

  /** `class A: class B: def m(self): ...` */
  const NESTED := ClassDef("A", [], [], [], [ClassDef("B", [], [], [], [METHOD], ORIGIN)], ORIGIN)

  const METHOD := FunctionDef(false, "m", [], Parameters([], [Param("self", None, ORIGIN)]), None, [], ORIGIN)

  lemma NothingThen(e: Effect)
    ensures NOTHING.Then(e) == e && e.Then(NOTHING) == e
  {
  }

  lemma EffectOfOne(node: Node)
    ensures EffectOfAll([node]) == EffectOf(node)
  {
    hide Effect.Then, EffectOf;
    assert [node][..0] == [];
    NothingThen(EffectOf(node));
  }

  /** A class of one statement, without decorators, bases or keywords. */
  lemma BareClass(name: string, statement: Node)
    ensures var globals, nonlocals := Declared([statement], true), Declared([statement], false);
            var inside := EffectOf(statement).Inside(ClassKind, name, globals, nonlocals);
            EffectOf(ClassDef(name, [], [], [], [statement], ORIGIN)) ==
              Bind(name, Defined(ClassBinding), ORIGIN).Then(inside)
  {
    hide Effect.Then, Effect.Inside;
    EffectOfOne(statement);
    NothingThen(Bind(name, Defined(ClassBinding), ORIGIN));
  }

  lemma MethodScope()
    ensures EffectOf(METHOD).scopes == [ScopeFact(0, FunctionKind, "m", {}, {}, {"self"})]
      && EffectOf(METHOD).names == {"m"}
    ensures Declared([METHOD], true) == {} && Declared([METHOD], false) == {}
  {
    var params := METHOD.parameters.params;
    assert params[..0] == [] && [METHOD][..0] == [];
    assert ParamNames(params) == NOTHING.Then(Bind("self", Dynamic(Parameter), ORIGIN));
    NothingThen(Bind("self", Dynamic(Parameter), ORIGIN));
    NothingThen(ParamNames(params));
    assert FunctionBody(METHOD).scopes == [ScopeFact(0, FunctionKind, "m", {}, {}, {"self"})];
    assert AnnotationEffect(params).scopes == [] && AnnotationEffect(params).names == {};
    assert FunctionHead(METHOD).scopes == [] && FunctionHead(METHOD).names == {"m"};
  }

  lemma NestedScopes()
    ensures EffectOfAll([NESTED]).scopes ==
            [ScopeFact(0, ClassKind, "A", {}, {}, {"B"}), ScopeFact(1, ClassKind, "B", {}, {}, {"m"}),
             ScopeFact(2, FunctionKind, "m", {}, {}, {"self"})]
  {
    hide EffectOf, EffectOfAll;
    var inner := NESTED.body[0];
    MethodScope();
    BareClass("B", METHOD);
    BareClass("A", inner);
    EffectOfOne(NESTED);
    assert [inner][..0] == [];
    assert Declared([inner], true) == {} && Declared([inner], false) == {};
    assert {"m"} - {} - {} == {"m"} && {"B"} - {} - {} == {"B"};
    assert EffectOf(inner).names == {"B"};
    assert EffectOf(inner).scopes ==
      [ScopeFact(0, ClassKind, "B", {}, {}, {"m"}), ScopeFact(1, FunctionKind, "m", {}, {}, {"self"})];
  }

  /** Whatever facts the visit of that module leaves, the method of `A.B` looks its names up in class `A`. */
  lemma NestedClassCounterexample(scopes: seq<Scope>, bindings: seq<Binding>, calls: seq<Call>,
                                  imports: seq<ImportFact>)
    requires FactsOf(scopes, bindings, calls, imports, EffectOfAll([NESTED]))
    ensures |scopes| == 4 && scopes[3].qualified == Some(["A", "B", "m"]) && scopes[3].kind == FunctionKind
    ensures scopes[3].lookupParent == Some(scopes[1].id) && scopes[1].qualified == Some(["A"])
      && scopes[1].kind == ClassKind
  {
    hide EffectOfAll, Count, FactsOf;
    NestedScopes();
    FactsCounted(scopes, bindings, calls, imports, EffectOfAll([NESTED]));
    PlacedIn(scopes, bindings, calls, imports, EffectOfAll([NESTED]), 0);
    PlacedIn(scopes, bindings, calls, imports, EffectOfAll([NESTED]), 1);
    PlacedIn(scopes, bindings, calls, imports, EffectOfAll([NESTED]), 2);
    assert QualifiedIn(scopes[1], "B") == ["A", "B"] && QualifiedIn(scopes[2], "m") == ["A", "B", "m"];
  }

  // ----- what every state keeps -----

  ghost predicate BoundLocally(bindings: seq<Binding>, id: ScopeId, name: string) {
    exists b :: b in bindings && b.scope == id && b.name == name && b.declaration == Local
  }

  ghost predicate Emitted(s: Snapshot, id: ScopeId) {
    exists scope :: scope in s.scopes && scope.id == id
  }

  function Counter(counters: Counters, kind: ScopeKind, qualified: Dotted): nat {
    if (kind, qualified) in counters then counters[(kind, qualified)] else 0
  }

  /** Scope `i` carries the next number of its kind and qualified name. */
  ghost predicate NumberedAt(scopes: seq<Scope>, i: nat)
    requires i < |scopes|
  {
    var x := scopes[i];
    x.qualified.Some? && x.id == Inner(x.kind, x.qualified.value, Count(scopes[..i], x.kind, x.qualified.value) + 1)
  }

  /** Ids number the scopes of each kind and qualified name, and the counters know how many there are. */
  ghost predicate Numbered(s: Snapshot) {
    && (forall i :: 0 < i < |s.scopes| ==> NumberedAt(s.scopes, i))
    && (forall kind, qualified :: Counter(s.counters, kind, qualified) == Count(s.scopes, kind, qualified))
  }

  /** Every record names a scope of the file, and a binding carries the declaration that scope gives its name. */
  ghost predicate RecordsPlaced(s: Snapshot) {
    && (forall b :: b in s.bindings ==> b.scope in s.localNames)
    && (forall c :: c in s.calls ==> c.scope in s.localNames)
    && (forall f :: f in s.imports ==> f.scope in s.localNames)
    && (forall b, scope :: b in s.bindings && scope in s.scopes && scope.id == b.scope ==>
          b.declaration == DeclarationIn(scope, b.name))
  }

  /** Each scope has its own id and its own set of local names. */
  ghost predicate Tracked(s: Snapshot) {
    && (forall i, j :: 0 <= i < j < |s.scopes| ==> s.scopes[i].id != s.scopes[j].id)
    && (forall i :: 0 <= i < |s.scopes| ==> s.scopes[i].id in s.localNames)
  }

  /** The local names of a scope are the names recorded there as local, and no others. */
  ghost predicate LocalsExact(s: Snapshot) {
    forall id, name :: id in s.localNames ==> (name in s.localNames[id] <==> BoundLocally(s.bindings, id, name))
  }

  /** `<module>` comes first, and every later scope looks its names up in an earlier one. */
  ghost predicate Rooted(s: Snapshot) {
    && ScopeTree(s.scopes) && s.scopes[0] == MODULE_RECORD
    && (forall i :: 0 < i < |s.scopes| ==> !s.scopes[i].kind.ModuleKind?)
  }

  ghost predicate Stacked(s: Snapshot) {
    |s.stack| > 0 && forall scope :: scope in s.stack ==> scope in s.scopes
  }

  /** What holds between any two steps of the visitor. */
  ghost predicate Consistent(s: Snapshot) {
    && Rooted(s) && Numbered(s) && Stacked(s) && Tracked(s)
    && RecordsPlaced(s) && LocalsExact(s)
    && (forall id :: id in s.localNames ==> Emitted(s, id))
  }

  lemma StartConsistent()
    ensures Consistent(START)
  {
    assert forall kind, qualified :: Count([MODULE_RECORD], kind, qualified) == 0 by {
      assert [MODULE_RECORD][..0] == [];
    }
    assert MODULE_RECORD in START.scopes;
  }

  function LocalsOf(s: Snapshot, id: ScopeId): set<string> {
    if id in s.localNames then s.localNames[id] else {}
  }

  // ----- one state against the next -----

  /** The scope at a place, seen from `a` once the visitor has come to `scopes`. */
  function Spot(a: Snapshot, scopes: seq<Scope>, place: nat): Scope
    requires |a.stack| > 0 && |a.scopes| + place <= |scopes|
  {
    if place == 0 then a.Top() else scopes[|a.scopes| + place - 1]
  }

  ghost predicate ScopeDone(a: Snapshot, b: Snapshot, i: nat, f: ScopeFact)
    requires |a.stack| > 0 && |a.scopes| + i < |b.scopes|
  {
    var n := |a.scopes| + i;
    f.around <= i
      && b.scopes[n].(locals := LocalsOf(b, b.scopes[n].id)) == ScopeOf(b.scopes[..n], Spot(a, b.scopes, f.around), f)
  }

  ghost predicate BindingDone(a: Snapshot, scopes: seq<Scope>, f: BindingFact, r: Binding)
    requires |a.stack| > 0
  {
    |a.scopes| + f.place <= |scopes| && r == BindingOf(Spot(a, scopes, f.place), a.control, f)
  }

  ghost predicate CallDone(a: Snapshot, scopes: seq<Scope>, f: CallFact, r: Call)
    requires |a.stack| > 0
  {
    |a.scopes| + f.place <= |scopes| && r == CallOf(Spot(a, scopes, f.place), a.control, f)
  }

  ghost predicate ImportDone(a: Snapshot, scopes: seq<Scope>, f: ImportNote, r: ImportFact)
    requires |a.stack| > 0
  {
    |a.scopes| + f.place <= |scopes| && r == ImportOf(Spot(a, scopes, f.place), f)
  }

  ghost predicate ScopesDone(a: Snapshot, b: Snapshot, facts: seq<ScopeFact>) {
    && |a.stack| > 0 && a.scopes <= b.scopes && |b.scopes| == |a.scopes| + |facts|
    && forall i: nat :: i < |facts| ==> ScopeDone(a, b, i, facts[i])
  }

  ghost predicate BindingsDone(a: Snapshot, b: Snapshot, facts: seq<BindingFact>) {
    && |a.stack| > 0 && a.bindings <= b.bindings && |b.bindings| == |a.bindings| + |facts|
    && forall i: nat :: i < |facts| ==> BindingDone(a, b.scopes, facts[i], b.bindings[|a.bindings| + i])
  }

  ghost predicate CallsDone(a: Snapshot, b: Snapshot, facts: seq<CallFact>) {
    && |a.stack| > 0 && a.calls <= b.calls && |b.calls| == |a.calls| + |facts|
    && forall i: nat :: i < |facts| ==> CallDone(a, b.scopes, facts[i], b.calls[|a.calls| + i])
  }

  ghost predicate ImportsDone(a: Snapshot, b: Snapshot, facts: seq<ImportNote>) {
    && |a.stack| > 0 && a.imports <= b.imports && |b.imports| == |a.imports| + |facts|
    && forall i: nat :: i < |facts| ==> ImportDone(a, b.scopes, facts[i], b.imports[|a.imports| + i])
  }

  ghost predicate LocalsDone(a: Snapshot, b: Snapshot, names: set<string>)
    requires |a.stack| > 0
  {
    && a.localNames.Keys <= b.localNames.Keys
    && (forall id :: id in a.localNames && id != a.Top().id ==> LocalsOf(b, id) == LocalsOf(a, id))
    && LocalsOf(b, a.Top().id) == LocalsOf(a, a.Top().id) + (names - a.Top().globals - a.Top().nonlocals)
  }

  /**
   * From `a` to `b` the visitor recorded exactly what the syntax predicts, and both stacks are back where they were.
   */
  ghost predicate Advance(a: Snapshot, b: Snapshot, e: Effect) {
    && a.HasTop()
    && b.stack == a.stack && b.control == a.control
    && ScopesDone(a, b, e.scopes) && BindingsDone(a, b, e.bindings) && CallsDone(a, b, e.calls)
    && ImportsDone(a, b, e.imports)
    && LocalsDone(a, b, e.names)
  }

  lemma AdvanceNothing(a: Snapshot)
    requires Consistent(a)
    ensures Advance(a, a, NOTHING)
  {
  }

  /** Two visits in a row do what the two pieces of syntax predict in a row. */
  lemma AdvanceThen(a: Snapshot, b: Snapshot, c: Snapshot, e: Effect, f: Effect)
    requires Tracked(b)
    requires Advance(a, b, e) && Advance(b, c, f)
    ensures Advance(a, c, e.Then(f))
  {
    hide ScopesDone, BindingsDone, CallsDone, ImportsDone, Tracked;
    ScopesThen(a, b, c, e, f);
    BindingsThen(a, b, c, e, f);
    CallsThen(a, b, c, e, f);
    ImportsThen(a, b, c, e, f);
    assert a.Top().id in a.localNames || a.Top().id !in a.localNames;
  }

  /** Places of the second visit, seen from before the first. */
  lemma SpotThen(a: Snapshot, b: Snapshot, scopes: seq<Scope>, n: nat, place: nat)
    requires |a.stack| > 0 && b.stack == a.stack && |b.scopes| == |a.scopes| + n && |b.scopes| + place <= |scopes|
    ensures |a.scopes| + Moved(place, n) <= |scopes| && Spot(a, scopes, Moved(place, n)) == Spot(b, scopes, place)
  {
  }

  lemma SpotStays(a: Snapshot, scopes: seq<Scope>, more: seq<Scope>, place: nat)
    requires |a.stack| > 0 && |a.scopes| + place <= |scopes| && scopes <= more
    ensures Spot(a, more, place) == Spot(a, scopes, place)
  {
  }

  lemma ScopesThen(a: Snapshot, b: Snapshot, c: Snapshot, e: Effect, f: Effect)
    requires Tracked(b) && a.HasTop() && b.stack == a.stack && LocalsDone(b, c, f.names)
    requires ScopesDone(a, b, e.scopes) && ScopesDone(b, c, f.scopes)
    ensures ScopesDone(a, c, e.Then(f).scopes)
  {
    hide ScopeOf, Tracked, LocalsDone, LocalsOf;
    var all := e.Then(f).scopes;
    forall i: nat | i < |all| ensures ScopeDone(a, c, i, all[i]) {
      var n := |a.scopes| + i;
      if i < |e.scopes| {
        assert ScopeDone(a, b, i, e.scopes[i]);
        LocalsStay(a, b, c, f, n);
        SpotStays(a, b.scopes, c.scopes, e.scopes[i].around);
        assert c.scopes[..n] == b.scopes[..n] && c.scopes[n] == b.scopes[n];
      } else {
        var g := f.scopes[i - |e.scopes|];
        assert ScopeDone(b, c, i - |e.scopes|, g);
        SpotThen(a, b, c.scopes, |e.scopes|, g.around);
        SameScopeOf(c.scopes[..n], Spot(b, c.scopes, g.around), g, Moved(g.around, |e.scopes|));
      }
    }
  }

  lemma SameScopeOf(before: seq<Scope>, around: Scope, f: ScopeFact, place: nat)
    ensures ScopeOf(before, around, f.(around := place)) == ScopeOf(before, around, f)
  {
  }

  /** A nested scope is complete once the visitor has left it. */
  lemma LocalsStay(a: Snapshot, b: Snapshot, c: Snapshot, f: Effect, n: nat)
    requires Tracked(b) && a.HasTop() && b.stack == a.stack
    requires a.scopes <= b.scopes && LocalsDone(b, c, f.names)
    requires |a.scopes| <= n < |b.scopes|
    ensures LocalsOf(c, b.scopes[n].id) == LocalsOf(b, b.scopes[n].id)
  {
    var t :| 0 <= t < |a.scopes| && a.scopes[t] == a.Top();
    assert b.scopes[t].id != b.scopes[n].id;
    assert b.scopes[n].id in b.localNames;
  }

  lemma BindingsThen(a: Snapshot, b: Snapshot, c: Snapshot, e: Effect, f: Effect)
    requires b.stack == a.stack && b.control == a.control && ScopesDone(a, b, e.scopes) && ScopesDone(b, c, f.scopes)
    requires BindingsDone(a, b, e.bindings) && BindingsDone(b, c, f.bindings)
    ensures BindingsDone(a, c, e.Then(f).bindings)
  {
    hide BindingOf;
    var all := e.Then(f).bindings;
    forall i: nat | i < |all| ensures BindingDone(a, c.scopes, all[i], c.bindings[|a.bindings| + i]) {
      if i < |e.bindings| {
        assert BindingDone(a, b.scopes, e.bindings[i], b.bindings[|a.bindings| + i]);
        SpotStays(a, b.scopes, c.scopes, e.bindings[i].place);
      } else {
        var g := f.bindings[i - |e.bindings|];
        assert BindingDone(b, c.scopes, g, c.bindings[|b.bindings| + (i - |e.bindings|)]);
        SpotThen(a, b, c.scopes, |e.scopes|, g.place);
        SameBindingOf(Spot(b, c.scopes, g.place), a.control, g, Moved(g.place, |e.scopes|));
      }
    }
  }

  lemma SameBindingOf(scope: Scope, control: seq<Control>, f: BindingFact, place: nat)
    ensures BindingOf(scope, control, f.(place := place)) == BindingOf(scope, control, f)
  {
  }

  lemma CallsThen(a: Snapshot, b: Snapshot, c: Snapshot, e: Effect, f: Effect)
    requires b.stack == a.stack && b.control == a.control && ScopesDone(a, b, e.scopes) && ScopesDone(b, c, f.scopes)
    requires CallsDone(a, b, e.calls) && CallsDone(b, c, f.calls)
    ensures CallsDone(a, c, e.Then(f).calls)
  {
    var all := e.Then(f).calls;
    forall i: nat | i < |all| ensures CallDone(a, c.scopes, all[i], c.calls[|a.calls| + i]) {
      if i < |e.calls| {
        assert CallDone(a, b.scopes, e.calls[i], b.calls[|a.calls| + i]);
        SpotStays(a, b.scopes, c.scopes, e.calls[i].place);
      } else {
        var g := f.calls[i - |e.calls|];
        assert CallDone(b, c.scopes, g, c.calls[|b.calls| + (i - |e.calls|)]);
        SpotThen(a, b, c.scopes, |e.scopes|, g.place);
      }
    }
  }

  lemma ImportsThen(a: Snapshot, b: Snapshot, c: Snapshot, e: Effect, f: Effect)
    requires b.stack == a.stack && ScopesDone(a, b, e.scopes) && ScopesDone(b, c, f.scopes)
    requires ImportsDone(a, b, e.imports) && ImportsDone(b, c, f.imports)
    ensures ImportsDone(a, c, e.Then(f).imports)
  {
    var all := e.Then(f).imports;
    forall i: nat | i < |all| ensures ImportDone(a, c.scopes, all[i], c.imports[|a.imports| + i]) {
      if i < |e.imports| {
        assert ImportDone(a, b.scopes, e.imports[i], b.imports[|a.imports| + i]);
        SpotStays(a, b.scopes, c.scopes, e.imports[i].place);
      } else {
        var g := f.imports[i - |e.imports|];
        assert ImportDone(b, c.scopes, g, c.imports[|b.imports| + (i - |e.imports|)]);
        SpotThen(a, b, c.scopes, |e.scopes|, g.place);
      }
    }
  }

  lemma EmittedStays(a: Snapshot, b: Snapshot, id: ScopeId)
    requires a.scopes <= b.scopes && Emitted(a, id)
    ensures Emitted(b, id)
  {
    var i :| 0 <= i < |a.scopes| && a.scopes[i].id == id;
    assert b.scopes[i] == a.scopes[i];
  }

  // ----- the collector's primitive steps, as functions of its fields -----

  function WithBinding(s: Snapshot, name: string, kind: BindingKind, value: Option<Dotted>, dynamic: bool,
                       runtime: bool, target: Option<Dotted>, pos: Position): Snapshot
    requires |s.stack| > 0
  {
    var top := s.Top();
    var declaration := DeclarationIn(top, name);
    s.(bindings :=
       s.bindings + [Binding(top.id, name, kind, declaration, value, dynamic, runtime, target, s.control, pos)],
       localNames := if declaration == Local then s.localNames[top.id := LocalsOf(s, top.id) + {name}]
                     else s.localNames)
  }

  /** A definition is recorded under the name its scope qualifies. */
  predicate TargetFits(s: Snapshot, name: string, target: Option<Dotted>)
    requires |s.stack| > 0
  {
    target.Some? ==> target.value == QualifiedIn(s.Top(), name)
  }

  lemma BindingRecorded(s: Snapshot, name: string, kind: BindingKind, value: Option<Dotted>, dynamic: bool,
                        runtime: bool, target: Option<Dotted>, pos: Position)
    requires Consistent(s)
    ensures var t := WithBinding(s, name, kind, value, dynamic, runtime, target, pos);
            && Consistent(t)
            && (TargetFits(s, name, target) ==>
                Advance(s, t, Bind(name, Bound(kind, value, dynamic, runtime, target.Some?), pos)))
  {
    var t := WithBinding(s, name, kind, value, dynamic, runtime, target, pos);
    assert s.Top() in s.stack;
    BindingConsistent(s, t, t.bindings[|s.bindings|]);
    if TargetFits(s, name, target) {
      BindingAdvance(s, t, t.bindings[|s.bindings|],
                     BindingFact(0, name, Bound(kind, value, dynamic, runtime, target.Some?), [], pos));
    }
  }

  ghost predicate OneBinding(s: Snapshot, t: Snapshot, b: Binding) {
    && s.HasTop() && b.scope == s.Top().id && b.scope in s.localNames
    && b.control == s.control && b.declaration == DeclarationIn(s.Top(), b.name)
    && t ==
         s.(bindings := s.bindings + [b],
            localNames := if b.declaration == Local then s.localNames[b.scope := s.localNames[b.scope] + {b.name}]
                          else s.localNames)
  }

  lemma BindingConsistent(s: Snapshot, t: Snapshot, b: Binding)
    requires Consistent(s) && OneBinding(s, t, b)
    ensures Consistent(t)
  {
    hide Numbered, Rooted, Stacked, Tracked, RecordsPlaced, LocalsExact;
    assert t.localNames.Keys == s.localNames.Keys;
    LocalAdded(s, t, b);
    BindingPlaced(s, t, b);
    SameScopes(s, t);
  }

  lemma BindingPlaced(s: Snapshot, t: Snapshot, b: Binding)
    requires Tracked(s) && RecordsPlaced(s) && OneBinding(s, t, b)
    ensures RecordsPlaced(t)
  {
    forall x | x in s.scopes && x.id == b.scope ensures x == s.Top() {
      SameId(s, x, s.Top());
    }
  }

  lemma BindingAdvance(s: Snapshot, t: Snapshot, b: Binding, f: BindingFact)
    requires OneBinding(s, t, b) && f.place == 0 && f.control == [] && b == BindingOf(s.Top(), s.control, f)
    requires s.Top().kind.ModuleKind? ==> s.Top().globals == s.Top().nonlocals == {}
    ensures Advance(s, t, Bind(f.name, f.how, f.pos))
  {
    assert BindingDone(s, t.scopes, f, b);
  }

  /** Ids tell scopes apart. */
  lemma SameId(s: Snapshot, x: Scope, y: Scope)
    requires Tracked(s) && x in s.scopes && y in s.scopes && x.id == y.id
    ensures x == y
  {
    var i :| 0 <= i < |s.scopes| && s.scopes[i] == x;
    var j :| 0 <= j < |s.scopes| && s.scopes[j] == y;
  }

  lemma LocalAdded(s: Snapshot, t: Snapshot, b: Binding)
    requires LocalsExact(s) && t.bindings == s.bindings + [b] && b.scope in s.localNames
    requires t.localNames == if b.declaration == Local then s.localNames[b.scope := s.localNames[b.scope] + {b.name}]
                             else s.localNames
    ensures LocalsExact(t)
  {
    forall id, n | id in t.localNames
      ensures n in t.localNames[id] <==> BoundLocally(t.bindings, id, n)
    {
      if BoundLocally(s.bindings, id, n) {
        var x :| x in s.bindings && x.scope == id && x.name == n && x.declaration == Local;
        assert x in t.bindings;
      }
      assert b in t.bindings;
    }
  }

  /** Steps that leave the scopes alone keep what is said of scopes. */
  lemma SameScopes(s: Snapshot, t: Snapshot)
    requires t.scopes == s.scopes && t.stack == s.stack && t.counters == s.counters
      && t.localNames.Keys == s.localNames.Keys
    ensures Rooted(s) ==> Rooted(t)
    ensures Numbered(s) ==> Numbered(t)
    ensures Stacked(s) ==> Stacked(t)
    ensures Tracked(s) ==> Tracked(t)
    ensures (forall id :: id in s.localNames ==> Emitted(s, id)) ==>
      (forall id :: id in t.localNames ==> Emitted(t, id))
  {
    assert forall id :: Emitted(s, id) <==> Emitted(t, id);
  }

  lemma CallRecorded(s: Snapshot, callee: Option<Dotted>, pos: Position)
    requires Consistent(s)
    ensures var t := s.(calls := s.calls + [Call(callee, s.Top().id, s.control, pos)]);
            Consistent(t) && Advance(s, t, Calls(callee, pos))
  {
    hide Numbered, Rooted, Stacked, Tracked;
    Basics(s);
    var t := s.(calls := s.calls + [Call(callee, s.Top().id, s.control, pos)]);
    SameScopes(s, t);
    assert s.control + [] == s.control;
    assert CallDone(s, t.scopes, CallFact(0, callee, [], pos), t.calls[|s.calls|]);
  }

  lemma ImportRecorded(s: Snapshot, f: ImportFact)
    requires Consistent(s)
    ensures var t := s.(imports := s.imports + [f.(scope := s.Top().id)]);
            Consistent(t) && Advance(s, t, Imports(f))
  {
    var t := s.(imports := s.imports + [f.(scope := s.Top().id)]);
    ImportConsistent(s, t);
    ImportAdvance(s, t, f);
  }

  lemma ImportConsistent(s: Snapshot, t: Snapshot)
    requires Consistent(s) && |t.imports| == |s.imports| + 1 && t == s.(imports := s.imports + [t.imports[|s.imports|]])
    requires t.imports[|s.imports|].scope == s.Top().id
    ensures Consistent(t)
  {
    hide Numbered, Rooted, Stacked, Tracked;
    Basics(s);
    SameScopes(s, t);
  }

  lemma ImportAdvance(s: Snapshot, t: Snapshot, f: ImportFact)
    requires Consistent(s) && t == s.(imports := s.imports + [f.(scope := s.Top().id)])
    ensures Advance(s, t, Imports(f))
  {
    hide Numbered, Rooted, RecordsPlaced, LocalsExact;
    assert s.Top() in s.stack;
    assert ImportDone(s, t.scopes, ImportNote(0, f), t.imports[|s.imports|]);
  }

  /** Under a pushed control keyword the records carry it, and nothing else changes. */
  lemma ControlPopped(a: Snapshot, k: Control, b: Snapshot, e: Effect)
    requires Advance(a.(control := a.control + [k]), b, e)
    ensures Advance(a, b.(control := a.control), e.Under(k))
  {
    hide ScopeOf;
    var pushed := a.(control := a.control + [k]);
    var c := b.(control := a.control);
    assert pushed.HasTop();
    forall i: nat | i < |e.scopes| ensures ScopeDone(a, c, i, e.scopes[i]) {
      assert ScopeDone(pushed, b, i, e.scopes[i]);
    }
    forall i: nat | i < |e.bindings|
      ensures BindingDone(a, c.scopes, e.Under(k).bindings[i], c.bindings[|a.bindings| + i])
    {
      assert BindingDone(pushed, b.scopes, e.bindings[i], b.bindings[|a.bindings| + i]);
      assert a.control + ([k] + e.bindings[i].control) == pushed.control + e.bindings[i].control;
    }
    forall i: nat | i < |e.calls| ensures CallDone(a, c.scopes, e.Under(k).calls[i], c.calls[|a.calls| + i]) {
      assert CallDone(pushed, b.scopes, e.calls[i], b.calls[|a.calls| + i]);
      assert a.control + ([k] + e.calls[i].control) == pushed.control + e.calls[i].control;
    }
    forall i: nat | i < |e.imports| ensures ImportDone(a, c.scopes, e.imports[i], c.imports[|a.imports| + i]) {
      assert ImportDone(pushed, b.scopes, e.imports[i], b.imports[|a.imports| + i]);
    }
  }

  lemma ControlKept(a: Snapshot, control: seq<Control>)
    requires Consistent(a)
    ensures Consistent(a.(control := control))
  {
    hide Numbered, Rooted, Stacked, Tracked;
    SameScopes(a, a.(control := control));
  }

  /** The record of a new scope: the next number of its kind and qualified name. */
  function NewScope(s: Snapshot, kind: ScopeKind, qualified: Dotted, globals: set<string>,
                    nonlocals: set<string>): Scope
    requires |s.stack| > 0
  {
    Scope(Inner(kind, qualified, Counter(s.counters, kind, qualified) + 1), kind, Some(qualified), Some(s.Top().id),
          LookupParentOf(kind, s.Top()), globals, nonlocals, {})
  }

  function Entered(s: Snapshot, kind: ScopeKind, qualified: Dotted, globals: set<string>,
                   nonlocals: set<string>): Snapshot
    requires |s.stack| > 0
  {
    var record := NewScope(s, kind, qualified, globals, nonlocals);
    s.(scopes := s.scopes + [record], stack := s.stack + [record],
       counters := s.counters[(kind, qualified) := Counter(s.counters, kind, qualified) + 1],
       localNames := s.localNames[record.id := {}])
  }

  lemma ScopeEntered(s: Snapshot, kind: ScopeKind, qualified: Dotted, globals: set<string>, nonlocals: set<string>)
    requires Consistent(s) && !kind.ModuleKind?
    ensures var t := Entered(s, kind, qualified, globals, nonlocals);
            Consistent(t) && t.HasTop() && NewScope(s, kind, qualified, globals, nonlocals).id !in s.localNames
  {
    var record := NewScope(s, kind, qualified, globals, nonlocals);
    var t := Entered(s, kind, qualified, globals, nonlocals);
    hide Numbered, LookupParentOf, Count;
    assert s.Top() in s.stack;
    NumberFresh(s, kind, qualified);
    assert record.id !in s.localNames;
    TreeGrows(s, record);
    NumberedGrows(s, t, record);
    PlacedGrows(s, t, record);
    forall id | id in t.localNames ensures Emitted(t, id) {
      if id == record.id { assert record in t.scopes; } else { EmittedStays(s, t, id); }
    }
    forall x | x in t.stack ensures x in t.scopes {
      assert x in s.stack || x == record;
    }
  }

  lemma PlacedGrows(s: Snapshot, t: Snapshot, record: Scope)
    requires RecordsPlaced(s) && LocalsExact(s) && record.id !in s.localNames
    requires t.scopes == s.scopes + [record] && t.localNames == s.localNames[record.id := {}]
    requires t.bindings == s.bindings && t.calls == s.calls && t.imports == s.imports
    ensures RecordsPlaced(t) && LocalsExact(t)
  {
    forall id, name | id in t.localNames ensures name in t.localNames[id] <==> BoundLocally(t.bindings, id, name) {}
    forall b, x | b in t.bindings && x in t.scopes && x.id == b.scope
      ensures b.declaration == DeclarationIn(x, b.name)
    {
      assert x in s.scopes || x == record;
    }
  }

  lemma {:induction false} CountBefore(scopes: seq<Scope>, i: nat)
    requires i < |scopes| && scopes[i].qualified.Some?
    ensures Count(scopes[..i], scopes[i].kind, scopes[i].qualified.value) <
      Count(scopes, scopes[i].kind, scopes[i].qualified.value)
  {
    var last := |scopes| - 1;
    if i < last {
      assert scopes[..last][..i] == scopes[..i];
      CountBefore(scopes[..last], i);
    }
  }

  /** A number not given out yet. */
  lemma NumberFresh(s: Snapshot, kind: ScopeKind, qualified: Dotted)
    requires Numbered(s) && |s.scopes| > 0 && s.scopes[0] == MODULE_RECORD
    ensures forall i :: 0 <= i < |s.scopes| ==>
      s.scopes[i].id != Inner(kind, qualified, Counter(s.counters, kind, qualified) + 1)
  {
    forall i | 0 < i < |s.scopes|
      ensures s.scopes[i].id != Inner(kind, qualified, Counter(s.counters, kind, qualified) + 1)
    {
      assert NumberedAt(s.scopes, i);
      CountBefore(s.scopes, i);
    }
  }

  lemma NumberedGrows(s: Snapshot, t: Snapshot, record: Scope)
    requires Numbered(s) && record.qualified.Some? && t.scopes == s.scopes + [record]
    requires record.id ==
      Inner(record.kind, record.qualified.value, Counter(s.counters, record.kind, record.qualified.value) + 1)
    requires t.counters ==
      s.counters[(record.kind, record.qualified.value) := Counter(s.counters, record.kind, record.qualified.value) + 1]
    ensures Numbered(t)
  {
    hide Count;
    forall i | 0 < i < |t.scopes| ensures NumberedAt(t.scopes, i) {
      assert t.scopes[..i] == s.scopes[..i];
      if i < |s.scopes| { assert NumberedAt(s.scopes, i); } else { assert t.scopes[..i] == s.scopes; }
    }
    forall kind, qualified ensures Counter(t.counters, kind, qualified) == Count(t.scopes, kind, qualified) {
      CountMore(s.scopes, record, kind, qualified);
    }
  }

  lemma CountMore(scopes: seq<Scope>, record: Scope, kind: ScopeKind, qualified: Dotted)
    ensures Count(scopes + [record], kind, qualified) ==
            Count(scopes, kind, qualified) +
              (if record.kind == kind && record.qualified == Some(qualified) then 1 else 0)
  {
    assert (scopes + [record])[..|scopes|] == scopes;
  }

  /** The lookup parent of a new scope is a scope that is already there. */
  lemma TreeGrows(s: Snapshot, record: Scope)
    requires ScopeTree(s.scopes) && s.scopes[0] == MODULE_RECORD && s.HasTop()
    requires record.lookupParent == LookupParentOf(record.kind, s.Top())
    requires forall i :: 0 <= i < |s.scopes| ==> s.scopes[i].id != record.id
    ensures ScopeTree(s.scopes + [record])
  {
    var scopes := s.scopes + [record];
    var t :| 0 <= t < |s.scopes| && s.scopes[t] == s.Top();
    assert scopes[t] == s.Top();
    forall i | 0 < i < |scopes| ensures LookupParentBefore(scopes, i) {
      if i < |s.scopes| {
        assert LookupParentBefore(s.scopes, i);
        var j :| 0 <= j < i && s.scopes[j].id == s.scopes[i].lookupParent.value;
        assert scopes[j].id == scopes[i].lookupParent.value;
      } else if record.kind.FunctionLike() && s.Top().kind.ClassKind? {
        assert t > 0;
        assert LookupParentBefore(s.scopes, t);
        var j :| 0 <= j < t && s.scopes[j].id == s.scopes[t].lookupParent.value;
        assert scopes[j].id == record.lookupParent.value;
      } else {
        assert scopes[t].id == record.lookupParent.value;
      }
    }
  }

  /** Entering a scope, doing the work inside it and leaving it is the nested scope the syntax predicts. */
  lemma ScopeLeft(a: Snapshot, b: Snapshot, kind: ScopeKind, name: string, globals: set<string>, nonlocals: set<string>,
                  e: Effect)
    requires Consistent(a) && Consistent(b) && !kind.ModuleKind?
    requires Advance(Entered(a, kind, QualifiedIn(a.Top(), name), globals, nonlocals), b, e)
    ensures var c := b.(stack := a.stack);
            Consistent(c) && Advance(a, c, e.Inside(kind, name, globals, nonlocals))
  {
    hide Advance, Numbered, Rooted, RecordsPlaced, LocalsExact, Tracked;
    var qualified := QualifiedIn(a.Top(), name);
    var inner := Entered(a, kind, qualified, globals, nonlocals);
    ScopeEntered(a, kind, qualified, globals, nonlocals);
    AdvanceExtends(inner, b, e);
    StackStays(inner, b.scopes);
    assert forall x :: x in a.stack ==> x in inner.stack;
    LeaveConsistent(b, a.stack);
    InsideAdvance(a, b, kind, name, globals, nonlocals, e);
  }

  lemma AdvanceExtends(a: Snapshot, b: Snapshot, e: Effect)
    requires Advance(a, b, e)
    ensures a.scopes <= b.scopes
  {
  }

  lemma StackStays(a: Snapshot, scopes: seq<Scope>)
    requires Stacked(a) && a.scopes <= scopes
    ensures forall x :: x in a.stack ==> x in scopes
  {
    forall x | x in a.stack ensures x in scopes {
      var i :| 0 <= i < |a.scopes| && a.scopes[i] == x;
      assert scopes[i] == x;
    }
  }

  lemma LeaveConsistent(b: Snapshot, stack: seq<Scope>)
    requires Consistent(b) && |stack| > 0 && forall x :: x in stack ==> x in b.scopes
    ensures Consistent(b.(stack := stack))
  {
    hide ScopeTree, NumberedAt, Count;
    var c := b.(stack := stack);
    assert forall id :: Emitted(b, id) <==> Emitted(c, id);
  }

  /** Places inside the new scope, seen from around it. */
  lemma SpotInside(a: Snapshot, inner: Snapshot, record: Scope, scopes: seq<Scope>, place: nat)
    requires |a.stack| > 0 && inner.scopes == a.scopes + [record] && |inner.stack| > 0 && inner.Top() == record
    requires inner.scopes <= scopes && |inner.scopes| + place <= |scopes|
    ensures Spot(inner, scopes, place) == Spot(a, scopes, place + 1)
  {
  }

  lemma InsideAdvance(a: Snapshot, b: Snapshot, kind: ScopeKind, name: string, globals: set<string>,
                      nonlocals: set<string>, e: Effect)
    requires Consistent(a)
    requires Advance(Entered(a, kind, QualifiedIn(a.Top(), name), globals, nonlocals), b, e)
    requires NewScope(a, kind, QualifiedIn(a.Top(), name), globals, nonlocals).id !in a.localNames
    ensures Advance(a, b.(stack := a.stack), e.Inside(kind, name, globals, nonlocals))
  {
    hide ScopesDone, BindingsDone, CallsDone, ImportsDone, Numbered, Rooted, RecordsPlaced, LocalsExact;
    var inner := Entered(a, kind, QualifiedIn(a.Top(), name), globals, nonlocals);
    Basics(a);
    InsideScopes(a, b, kind, name, globals, nonlocals, e);
    InsideBindings(a, b, kind, name, globals, nonlocals, e);
    InsideCalls(a, b, kind, name, globals, nonlocals, e);
    InsideImports(a, b, kind, name, globals, nonlocals, e);
    var c := b.(stack := a.stack);
    forall id | id in a.localNames ensures LocalsOf(c, id) == LocalsOf(a, id) {
      assert LocalsOf(b, id) == LocalsOf(inner, id);
    }
  }

  lemma InsideScopes(a: Snapshot, b: Snapshot, kind: ScopeKind, name: string, globals: set<string>,
                     nonlocals: set<string>, e: Effect)
    requires |a.stack| > 0 && Numbered(a)
    requires var inner := Entered(a, kind, QualifiedIn(a.Top(), name), globals, nonlocals);
             ScopesDone(inner, b, e.scopes) && LocalsDone(inner, b, e.names)
    ensures ScopesDone(a, b.(stack := a.stack), e.Inside(kind, name, globals, nonlocals).scopes)
  {
    hide ScopeOf, NewScope, ScopeDone, LocalsDone, Numbered;
    var inner := Entered(a, kind, QualifiedIn(a.Top(), name), globals, nonlocals);
    var c := b.(stack := a.stack);
    var all := e.Inside(kind, name, globals, nonlocals).scopes;
    assert a.scopes <= inner.scopes <= b.scopes;
    InsideFirst(a, b, kind, name, globals, nonlocals, e);
    forall i: nat | i < |all| ensures ScopeDone(a, c, i, all[i]) {
      if i > 0 { InsideLater(a, b, inner, e, i - 1); }
    }
  }

  lemma InsideFirst(a: Snapshot, b: Snapshot, kind: ScopeKind, name: string, globals: set<string>,
                    nonlocals: set<string>, e: Effect)
    requires |a.stack| > 0 && Numbered(a)
    requires var inner := Entered(a, kind, QualifiedIn(a.Top(), name), globals, nonlocals);
             inner.scopes <= b.scopes && LocalsDone(inner, b, e.names)
    ensures ScopeDone(a, b.(stack := a.stack), 0, e.Inside(kind, name, globals, nonlocals).scopes[0])
  {
    hide Count, LookupParentOf, NumberedAt;
    var inner := Entered(a, kind, QualifiedIn(a.Top(), name), globals, nonlocals);
    var record := inner.Top();
    var n := |a.scopes|;
    assert inner.scopes[n] == record && b.scopes[n] == record && b.scopes[..n] == a.scopes;
    assert LocalsOf(inner, record.id) == {};
  }

  lemma InsideLater(a: Snapshot, b: Snapshot, inner: Snapshot, e: Effect, j: nat)
    requires |a.stack| > 0 && |inner.stack| > 0 && inner.scopes == a.scopes + [inner.Top()] && inner.scopes <= b.scopes
    requires |b.scopes| == |inner.scopes| + |e.scopes| && j < |e.scopes| && ScopeDone(inner, b, j, e.scopes[j])
    ensures ScopeDone(a, b.(stack := a.stack), j + 1, e.scopes[j].(around := e.scopes[j].around + 1))
  {
    hide ScopeOf;
    var f := e.scopes[j];
    SpotInside(a, inner, inner.Top(), b.scopes, f.around);
    SameScopeOf(b.scopes[..|inner.scopes| + j], Spot(inner, b.scopes, f.around), f, f.around + 1);
  }

  lemma InsideBindings(a: Snapshot, b: Snapshot, kind: ScopeKind, name: string, globals: set<string>,
                       nonlocals: set<string>, e: Effect)
    requires |a.stack| > 0
    requires var inner := Entered(a, kind, QualifiedIn(a.Top(), name), globals, nonlocals);
             ScopesDone(inner, b, e.scopes) && BindingsDone(inner, b, e.bindings)
    ensures BindingsDone(a, b.(stack := a.stack), e.Inside(kind, name, globals, nonlocals).bindings)
  {
    hide BindingOf, ScopeDone;
    var inner := Entered(a, kind, QualifiedIn(a.Top(), name), globals, nonlocals);
    var all := e.Inside(kind, name, globals, nonlocals).bindings;
    forall i: nat | i < |all| ensures BindingDone(a, b.scopes, all[i], b.bindings[|a.bindings| + i]) {
      var f := e.bindings[i];
      assert BindingDone(inner, b.scopes, f, b.bindings[|a.bindings| + i]);
      SpotInside(a, inner, inner.Top(), b.scopes, f.place);
      SameBindingOf(Spot(inner, b.scopes, f.place), a.control, f, f.place + 1);
    }
  }

  lemma InsideCalls(a: Snapshot, b: Snapshot, kind: ScopeKind, name: string, globals: set<string>,
                    nonlocals: set<string>, e: Effect)
    requires |a.stack| > 0
    requires var inner := Entered(a, kind, QualifiedIn(a.Top(), name), globals, nonlocals);
             ScopesDone(inner, b, e.scopes) && CallsDone(inner, b, e.calls)
    ensures CallsDone(a, b.(stack := a.stack), e.Inside(kind, name, globals, nonlocals).calls)
  {
    hide ScopeDone;
    var inner := Entered(a, kind, QualifiedIn(a.Top(), name), globals, nonlocals);
    var all := e.Inside(kind, name, globals, nonlocals).calls;
    forall i: nat | i < |all| ensures CallDone(a, b.scopes, all[i], b.calls[|a.calls| + i]) {
      assert CallDone(inner, b.scopes, e.calls[i], b.calls[|a.calls| + i]);
      SpotInside(a, inner, inner.Top(), b.scopes, e.calls[i].place);
    }
  }

  lemma InsideImports(a: Snapshot, b: Snapshot, kind: ScopeKind, name: string, globals: set<string>,
                      nonlocals: set<string>, e: Effect)
    requires |a.stack| > 0
    requires var inner := Entered(a, kind, QualifiedIn(a.Top(), name), globals, nonlocals);
             ScopesDone(inner, b, e.scopes) && ImportsDone(inner, b, e.imports)
    ensures ImportsDone(a, b.(stack := a.stack), e.Inside(kind, name, globals, nonlocals).imports)
  {
    hide ScopeDone;
    var inner := Entered(a, kind, QualifiedIn(a.Top(), name), globals, nonlocals);
    var all := e.Inside(kind, name, globals, nonlocals).imports;
    forall i: nat | i < |all| ensures ImportDone(a, b.scopes, all[i], b.imports[|a.imports| + i]) {
      assert ImportDone(inner, b.scopes, e.imports[i], b.imports[|a.imports| + i]);
      SpotInside(a, inner, inner.Top(), b.scopes, e.imports[i].place);
    }
  }

  lemma Basics(s: Snapshot)
    requires Consistent(s)
    ensures Tracked(s) && s.HasTop() && s.Top().id in s.localNames
  {
    assert s.Top() in s.stack;
    var i :| 0 <= i < |s.scopes| && s.scopes[i] == s.Top();
  }

  /** `AdvanceThen` between consistent moments. */
  lemma Compose(a: Snapshot, b: Snapshot, c: Snapshot, e: Effect, f: Effect)
    requires Consistent(b) && Advance(a, b, e) && Advance(b, c, f)
    ensures Advance(a, c, e.Then(f))
  {
    hide Advance;
    Basics(b);
    AdvanceThen(a, b, c, e, f);
  }

  lemma StacksKept(a: Snapshot, b: Snapshot, e: Effect)
    requires Advance(a, b, e)
    ensures b.stack == a.stack && b.control == a.control
  {
  }

  // ----- the finished module -----

  /** Each scope record with its local names copied in. */
  ghost predicate Completed(done: Snapshot, scopes: seq<Scope>) {
    |scopes| == |done.scopes| && forall i :: 0 <= i < |scopes| ==>
      scopes[i] == done.scopes[i].(locals := LocalsOf(done, done.scopes[i].id))
  }

  lemma {:induction false} SameCount(a: seq<Scope>, b: seq<Scope>, kind: ScopeKind, qualified: Dotted)
    requires |a| == |b| && forall i :: 0 <= i < |a| ==> a[i].kind == b[i].kind && a[i].qualified == b[i].qualified
    ensures Count(a, kind, qualified) == Count(b, kind, qualified)
  {
    if a != [] { SameCount(a[..|a| - 1], b[..|b| - 1], kind, qualified); }
  }

  /** The facts of a module once its visit is over. */
  lemma Finished(done: Snapshot, scopes: seq<Scope>, e: Effect)
    requires Consistent(done) && Advance(START, done, e) && Completed(done, scopes)
    ensures FactsOf(scopes, done.bindings, done.calls, done.imports, e)
  {
    hide Consistent, ScopeOf, BindingOf, CallOf, ImportOf;
    Basics(done);
    assert START.stack[0] == MODULE_RECORD;
    forall i: nat | i < |e.scopes|
      ensures e.scopes[i].around <= i
        && scopes[i + 1] == ScopeOf(scopes[..i + 1], scopes[e.scopes[i].around], e.scopes[i])
    {
      assert ScopeDone(START, done, i, e.scopes[i]);
      SpotIn(done, scopes, e.scopes[i].around);
      ScopeOfCompleted(done.scopes[..i + 1], scopes[..i + 1], Spot(START, done.scopes, e.scopes[i].around),
                       scopes[e.scopes[i].around], e.scopes[i]);
    }
    forall i: nat | i < |e.bindings|
      ensures e.bindings[i].place < |scopes|
        && done.bindings[i] == BindingOf(scopes[e.bindings[i].place], [], e.bindings[i])
    {
      assert BindingDone(START, done.scopes, e.bindings[i], done.bindings[|START.bindings| + i]);
      SpotIn(done, scopes, e.bindings[i].place);
      BindingOfCompleted(Spot(START, done.scopes, e.bindings[i].place), scopes[e.bindings[i].place], e.bindings[i]);
    }
    forall i: nat | i < |e.calls|
      ensures e.calls[i].place < |scopes| && done.calls[i] == CallOf(scopes[e.calls[i].place], [], e.calls[i])
    {
      assert CallDone(START, done.scopes, e.calls[i], done.calls[|START.calls| + i]);
      SpotIn(done, scopes, e.calls[i].place);
      CallOfCompleted(Spot(START, done.scopes, e.calls[i].place), scopes[e.calls[i].place], e.calls[i]);
    }
    forall i: nat | i < |e.imports|
      ensures e.imports[i].place < |scopes| && done.imports[i] == ImportOf(scopes[e.imports[i].place], e.imports[i])
    {
      assert ImportDone(START, done.scopes, e.imports[i], done.imports[|START.imports| + i]);
      SpotIn(done, scopes, e.imports[i].place);
      ImportOfCompleted(Spot(START, done.scopes, e.imports[i].place), scopes[e.imports[i].place], e.imports[i]);
    }
  }

  lemma SpotIn(done: Snapshot, scopes: seq<Scope>, place: nat)
    requires Completed(done, scopes) && START.scopes <= done.scopes && 1 + place <= |scopes|
    ensures Spot(START, done.scopes, place) == done.scopes[place]
    ensures scopes[place] == done.scopes[place].(locals := LocalsOf(done, done.scopes[place].id))
  {
    assert START.Top() == START.scopes[0] == done.scopes[0];
  }

  lemma ScopeOfCompleted(before: seq<Scope>, after: seq<Scope>, x: Scope, y: Scope, f: ScopeFact)
    requires |before| == |after| && forall i :: 0 <= i < |before| ==>
      before[i].kind == after[i].kind && before[i].qualified == after[i].qualified
    requires y == x.(locals := y.locals)
    ensures ScopeOf(before, x, f) == ScopeOf(after, y, f)
  {
    SameCount(before, after, f.kind, QualifiedIn(x, f.name));
  }

  lemma BindingOfCompleted(x: Scope, y: Scope, f: BindingFact)
    requires y == x.(locals := y.locals)
    ensures BindingOf(x, [], f) == BindingOf(y, [], f)
  {
  }

  lemma CallOfCompleted(x: Scope, y: Scope, f: CallFact)
    requires y == x.(locals := y.locals)
    ensures CallOf(x, [], f) == CallOf(y, [], f)
  {
  }

  lemma ImportOfCompleted(x: Scope, y: Scope, f: ImportNote)
    requires y == x.(locals := y.locals)
    ensures ImportOf(x, f) == ImportOf(y, f)
  {
  }

  lemma FinishedTree(done: Snapshot, scopes: seq<Scope>)
    requires Rooted(done) && Completed(done, scopes)
    ensures ScopeTree(scopes)
    ensures forall i :: 0 <= i < |scopes| ==> (scopes[i].lookupParent == None <==> i == 0)
  {
    forall i | 0 < i < |scopes| ensures LookupParentBefore(scopes, i) && scopes[i].lookupParent.Some? {
      assert LookupParentBefore(done.scopes, i);
      var j :| 0 <= j < i && done.scopes[j].id == done.scopes[i].lookupParent.value;
      assert scopes[j].id == scopes[i].lookupParent.value;
    }
  }

  lemma FinishedLocals(done: Snapshot, scopes: seq<Scope>)
    requires Tracked(done) && LocalsExact(done) && Completed(done, scopes)
    ensures forall scope, name :: scope in scopes ==>
      (name in scope.locals <==> BoundLocally(done.bindings, scope.id, name))
  {
    forall scope, name | scope in scopes ensures name in scope.locals <==> BoundLocally(done.bindings, scope.id, name) {
      var i :| 0 <= i < |scopes| && scopes[i] == scope;
      assert done.scopes[i].id in done.localNames;
    }
  }

  lemma FinishedRecords(done: Snapshot, scopes: seq<Scope>)
    requires Consistent(done) && Completed(done, scopes)
    ensures ScopeTree(scopes)
    ensures forall i :: 0 <= i < |scopes| ==> (scopes[i].lookupParent == None <==> i == 0)
    ensures forall scope, name :: scope in scopes ==>
      (name in scope.locals <==> BoundLocally(done.bindings, scope.id, name))
  {
    hide Rooted, Numbered, Stacked, Tracked, LocalsExact, RecordsPlaced, Completed, ScopeTree;
    FinishedTree(done, scopes);
    FinishedLocals(done, scopes);
  }
}
