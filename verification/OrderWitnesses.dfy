/** Small modules whose calls are read at a moment that is not the moment of their position. */
module OrderWitnesses {
  import opened Common
  import opened ProbeFacts
  import opened PythonAst
  import opened ProbeSteps
  import opened ExecutionOrder
  import opened ExecutionRecords
  import opened PythonLinker
  import opened LinkerEvidence
  import opened LinkerForward
  import opened LinkerTraces
  import W = LinkerWitnesses

  const MODULE := Scope(ModuleId, ModuleKind, None, None, None, {}, {}, {"f", "g"})

  /** The index holds the module's own records of a name, one event each. */
  ghost predicate IndexedAs(ctx: Context, body: seq<Node>, name: string, facts: seq<BindingFact>) {
    && (forall g :: g in facts <==> g in Own(EffectOfAll(body)) && g.name == name)
    && |EventsOf(ctx, ModuleId, name)| == |facts|
    && forall k :: 0 <= k < |facts| ==> EventsOf(ctx, ModuleId, name)[k].fact == BindingOf(MODULE, [], facts[k])
  }

  /** An index of a module for `f` and `g`. */
  function Index(f: seq<Event>, g: seq<Event>): Context {
    Context([MODULE], map[(ModuleId, "f") := f, (ModuleId, "g") := g], map[], map[])
  }

  lemma IndexSound(f: seq<Event>, g: seq<Event>)
    requires forall e :: e in f ==> e.fact.scope == ModuleId && e.fact.name == "f" && SoundImport(e) && KeyedImport(e)
    requires forall e :: e in g ==> e.fact.scope == ModuleId && e.fact.name == "g" && SoundImport(e) && KeyedImport(e)
    ensures Comparable(Index(f, g), MODULE, []) && WellFormed(Index(f, g))
    ensures EventsOf(Index(f, g), ModuleId, "f") == f && EventsOf(Index(f, g), ModuleId, "g") == g
  {
    assert MODULE in Index(f, g).scopes by { assert Index(f, g).scopes[0] == MODULE; }
  }

  lemma InThen(a: iset<Trace>, b: iset<Trace>, x: Trace, y: Trace, z: Trace)
    requires x in a && y in b && z == x + y
    ensures z in Then(a, b)
  {
  }

  /** A list of statements, one trace each. */
  lemma InAll(nodes: seq<Node>, node: Node, all: seq<Node>, x: Trace, y: Trace, z: Trace)
    requires x in ActsAll(nodes) && y in Acts(node) && all == nodes + [node] && z == x + y
    ensures z in ActsAll(all)
    ensures Own(EffectOfAll(all)) == Own(EffectOfAll(nodes)) + Own(EffectOf(node))
  {
    hide Acts, EffectOf, Own, StrayNames, Effect.Then;
    assert all[..|all| - 1] == nodes && all[|all| - 1] == node;
    OwnThen(EffectOfAll(nodes), EffectOf(node));
  }

  lemma NoActs()
    ensures ActsAll([]) == STILL && [] in STILL && EffectOfAll([]) == NOTHING && Own(NOTHING) == {}
  {
  }

  lemma EventIs(ctx: Context, f: BindingFact, e: Event)
    requires e in EventsOf(ctx, ModuleId, f.name) && e.fact == BindingOf(MODULE, [], f)
    requires forall x :: x in EventsOf(ctx, ModuleId, f.name) && x.fact == e.fact ==> x == e
    ensures EventFor(ctx, MODULE, [], f) == e
  {
  }

  // ----- functions -----

  const NO_STATEMENTS: seq<Node> := []

  function Parameterless(name: string, pos: Position): Node {
    FunctionDef(false, name, [], Parameters([], []), None, [], pos)
  }

  /** `def name(x=default): pass` */
  function WithDefault(name: string, default: Node, pos: Position): Node {
    FunctionDef(false, name, [], Parameters([default], [Param("x", None, pos)]), None, [], pos)
  }

  function DefFact(name: string, pos: Position): BindingFact { BindingFact(0, name, Defined(FunctionBinding), [], pos) }

  /** The defaults run, then the function is bound. */
  lemma FunctionActs(node: Node, x: Trace)
    requires node.FunctionDef? && !node.isAsync && node.decorators == [] && node.returned == None
      && x in ParameterActs(node.parameters)
    ensures x + [Takes(DefFact(node.name, node.pos), 0)] in Acts(node)
  {
    hide ParameterActs;
    var one := One(Takes(DefFact(node.name, node.pos), 0));
    var take := Takes(DefFact(node.name, node.pos), 0);
    NoActs();
    InThen(STILL, ParameterActs(node.parameters), [], x, x);
    InThen(Then(STILL, ParameterActs(node.parameters)), STILL, x, [], x);
    InThen(Then(Then(STILL, ParameterActs(node.parameters)), STILL), one, x, [take], x + [take]);
    FunctionTraces(node);
  }

  lemma FunctionTraces(node: Node)
    requires node.FunctionDef? && !node.isAsync && node.decorators == [] && node.returned == None
    ensures Acts(node) ==
      Then(Then(Then(STILL, ParameterActs(node.parameters)), STILL), One(Takes(DefFact(node.name, node.pos), 0)))
  {
    hide ParameterActs;
  }

  lemma FunctionRecords(node: Node)
    requires node.FunctionDef? && !node.isAsync && node.decorators == [] && node.returned == None
    ensures Own(EffectOf(node)) == {DefFact(node.name, node.pos)} + Own(ParameterEffect(node.parameters))
  {
    hide Own, StrayNames, Effect.Then, Effect.Inside, ParameterEffect, ParamNames;
    var bind, e := Bind(node.name, Defined(FunctionBinding), node.pos), ParameterEffect(node.parameters);
    NothingOwned();
    OwnBind(node.name, Defined(FunctionBinding), node.pos);
    OwnThen(bind, NOTHING);
    OwnThen(bind.Then(NOTHING), e);
    OwnThen(bind.Then(NOTHING).Then(e), NOTHING);
    assert FunctionHead(node) == bind.Then(NOTHING).Then(e).Then(NOTHING);
    OwnInside(ParamNames(node.parameters.params).Then(EffectOfAll(node.body)), FunctionKind, node.name,
              Declared(node.body, true), Declared(node.body, false));
    OwnThen(FunctionHead(node), FunctionBody(node));
  }

  lemma ParameterlessActs(name: string, pos: Position)
    ensures [Takes(DefFact(name, pos), 0)] in Acts(Parameterless(name, pos))
    ensures Own(EffectOf(Parameterless(name, pos))) == {DefFact(name, pos)}
  {
    hide Acts, EffectOf, Own, Effect.Then;
    NoActs();
    InThen(STILL, STILL, [], [], []);
    NoParameters();
    FunctionActs(Parameterless(name, pos), []);
    FunctionRecords(Parameterless(name, pos));
    NothingOwned();
    OwnThen(NOTHING, NOTHING);
    assert [] + [Takes(DefFact(name, pos), 0)] == [Takes(DefFact(name, pos), 0)];
  }

  lemma NoParameters()
    ensures ParameterActs(Parameters([], [])) == Then(STILL, STILL)
      && ParameterEffect(Parameters([], [])) == NOTHING.Then(NOTHING)
  {
    hide Then;
  }

  lemma WithDefaultActs(name: string, default: Node, pos: Position, x: Trace)
    requires x in Acts(default)
    ensures x + [Takes(DefFact(name, pos), 0)] in Acts(WithDefault(name, default, pos))
    ensures Own(EffectOf(WithDefault(name, default, pos))) == {DefFact(name, pos)} + Own(EffectOf(default))
  {
    hide Acts, EffectOf, Own, StrayNames, Effect.Then;
    var node := WithDefault(name, default, pos);
    var params := node.parameters.params;
    NoActs();
    InAll([], default, [default], [], x, x);
    InThen(STILL, STILL, [], [], []);
    BareParameter(node.parameters.params[0]);
    InThen(ActsAll([default]), AnnotationActs(params), x, [], x);
    FunctionActs(node, x);
    FunctionRecords(node);
    NothingOwned();
    OwnThen(NOTHING, NOTHING);
    OwnThen(EffectOfAll([default]), AnnotationEffect(params));
  }

  lemma BareParameter(param: Param)
    requires param.annotation == None
    ensures AnnotationActs([param]) == Then(STILL, STILL) && AnnotationEffect([param]) == NOTHING.Then(NOTHING)
  {
    hide Then;
    assert [param][..0] == [];
  }

  /** A call of a name without arguments. */
  function CallOfName(name: string, pos: Position): Node { CallExpr(Name(name, pos), [], pos) }

  lemma CallActs(name: string, pos: Position)
    ensures [Reads(CallFact(0, Some([name]), [], pos))] in Acts(CallOfName(name, pos))
    ensures Own(EffectOf(CallOfName(name, pos))) == {}
  {
    hide Own, StrayNames, Effect.Then;
    var call := Reads(CallFact(0, Some([name]), [], pos));
    NoActs();
    InThen(One(call), STILL, [call], [], [call]);
    InThen(Then(One(call), STILL), STILL, [call], [], [call]);
    CallTraces(name, pos);
    NothingOwned();
    NothingRecorded(PlainImport([name], None, ModuleId, pos), Some([name]), pos);
    OwnThen(Calls(Some([name]), pos), NOTHING);
    OwnThen(Calls(Some([name]), pos).Then(NOTHING), NOTHING);
  }

  lemma CallTraces(name: string, pos: Position)
    ensures Acts(CallOfName(name, pos)) == Then(Then(One(Reads(CallFact(0, Some([name]), [], pos))), STILL), STILL)
    ensures EffectOf(CallOfName(name, pos)) == Calls(Some([name]), pos).Then(NOTHING).Then(NOTHING)
  {
    hide Then, Effect.Then;
    assert Acts(Name(name, pos)) == STILL && EffectOf(Name(name, pos)) == NOTHING;
  }

  // ----- a default argument -----

  /** `from lib import f`, then `def f(x=f()): pass`. */
  const IMPORT := ImportFrom(Some(["lib"]), 0, [FromAlias("f", None)], Position(1, 0))
  const CALL_F := CallOfName("f", Position(2, 8))
  const DEFAULTED := [IMPORT, WithDefault("f", CALL_F, Position(2, 0))]
  const IMPORT_FACT := BindingFact(0, "f", Bound(ImportBinding, None, false, true, false), [], Position(1, 0))
  const OWN_FACT := DefFact("f", Position(2, 0))
  const LIB := FileRecord(["lib"], "lib.py", "src", false)
  const LIB_F := SymbolTarget(["f"], SymbolRecord(LIB, Position(1, 0)))
  const OWN_F := SymbolTarget(["f"], SymbolRecord(W.FILE, Position(2, 0)))
  const IMPORTED := Event(BindingOf(MODULE, [], IMPORT_FACT), Some(["f"]), Some(InternalSymbol), {LIB_F})
  const OWN := Event(BindingOf(MODULE, [], OWN_FACT), None, None, {OWN_F})

  lemma DefaultedRun()
    ensures Reaches(ModuleCode(DEFAULTED), [Takes(IMPORT_FACT, 0)], CallFact(0, Some(["f"]), [], Position(2, 8)))
    ensures Own(EffectOfAll(DEFAULTED)) == {IMPORT_FACT, OWN_FACT}
  {
    hide Acts, EffectOf, Own, ActsAll, EffectOfAll;
    var call, take, own :=
      Reads(CallFact(0, Some(["f"]), [], Position(2, 8))), Takes(IMPORT_FACT, 0), Takes(OWN_FACT, 0);
    var def := WithDefault("f", CALL_F, Position(2, 0));
    ImportActsOne();
    CallActs("f", Position(2, 8));
    WithDefaultActs("f", CALL_F, Position(2, 0), [call]);
    NoActs();
    InAll([], IMPORT, [IMPORT], [], [take], [take]);
    InAll([IMPORT], def, DEFAULTED, [take], [call] + [own], [take] + [call] + [own]);
    assert [take] + [call] + [own] in CodeActs(ModuleCode(DEFAULTED));
  }

  lemma ImportActsOne()
    ensures [Takes(IMPORT_FACT, 0)] in Acts(IMPORT)
    ensures Own(EffectOf(IMPORT)) == {IMPORT_FACT}
  {
    var aliases := IMPORT.fromAliases;
    assert aliases[..0] == [];
    NoActs();
    InThen(STILL, One(Takes(IMPORT_FACT, 0)), [], [Takes(IMPORT_FACT, 0)], [Takes(IMPORT_FACT, 0)]);
    ImportRecords();
  }

  lemma ImportRecords()
    ensures Own(EffectOf(IMPORT)) == {IMPORT_FACT}
  {
    hide Own, StrayNames, Effect.Then;
    var aliases := IMPORT.fromAliases;
    var noted := Imports(FromImport(Some(["lib"]), 0, "f", None, ModuleId, Position(1, 0)));
    var bind := Bind("f", IMPORT_FACT.how, Position(1, 0));
    assert aliases[..0] == [];
    NothingOwned();
    NothingRecorded(FromImport(Some(["lib"]), 0, "f", None, ModuleId, Position(1, 0)), None, Position(1, 0));
    OwnBind("f", IMPORT_FACT.how, Position(1, 0));
    OwnThen(noted, bind);
    OwnThen(NOTHING, noted.Then(bind));
  }

  lemma DefaultedRecords()
    ensures IndexedAs(Index([IMPORTED, OWN], []), DEFAULTED, "f", [IMPORT_FACT, OWN_FACT])
  {
    hide Own, EffectOfAll;
    DefaultedRun();
    IndexSound([IMPORTED, OWN], []);
  }

  /**
   * The default runs before the function is bound: the call reaches `lib.f`, and the resolver names the new function.
   */
  lemma DefaultCounterexample()
    ensures var ctx, before := Index([IMPORTED, OWN], []), [Takes(IMPORT_FACT, 0)];
            var f := CallFact(0, Some(["f"]), [], Position(2, 8));
            var r := ResolveCall(ctx, CallOf(MODULE, [], f));
            && Reaches(ModuleCode(DEFAULTED), before, f) && IndexedAs(ctx, DEFAULTED, "f", [IMPORT_FACT, OWN_FACT])
            && Comparable(ctx, MODULE, []) && r.state == Candidate && r.targets == {OWN_F}
            && Evaluate(ctx, MODULE, StoreAfter(ctx, MODULE, [], {}, before), ["f"], f.pos).value == Definition(LIB_F)
  {
    hide Evaluate, Run, ResolveCall, HistoryOf, EffectOfAll, ActsAll;
    var ctx, before, f :=
      Index([IMPORTED, OWN], []), [Takes(IMPORT_FACT, 0)], CallFact(0, Some(["f"]), [], Position(2, 8));
    DefaultedRun();
    DefaultedRecords();
    IndexSound([IMPORTED, OWN], []);
    W.BothElapsed(IMPORTED, OWN, f.pos);
    PickedDefinition(ctx, MODULE, "f", f, OWN, OWN_F);
    EventIs(ctx, IMPORT_FACT, IMPORTED);
    StoreOne(ctx, before, IMPORT_FACT);
    assert Names(IMPORTED, LIB_F);
    EvaluatedBound(ctx, MODULE, StoreAfter(ctx, MODULE, [], {}, before), ["f"], f.pos);
    assert ["f"][1..] == [];
  }

  /** After one binding. */
  lemma StoreOne(ctx: Context, before: Trace, g: BindingFact)
    requires WellFormed(ctx) && before == [Takes(g, 0)]
    ensures StoreAfter(ctx, MODULE, [], {}, before) ==
      Execute(ctx, MODULE, Store(map[], {}), Store(map[], {}), EventFor(ctx, MODULE, [], g))
  {
    hide Execute, EventFor;
    StoreMore(ctx, MODULE, [], {}, [], g);
    assert [] + [Takes(g, 0)] == before;
    assert HistoryOf(ctx, MODULE, [], []) == [];
  }

  // ----- two definitions and a walrus -----

  const G_FACT := DefFact("g", Position(1, 0))
  const F_FACT := DefFact("f", Position(2, 0))
  const G := SymbolTarget(["g"], SymbolRecord(W.FILE, Position(1, 0)))
  const F := SymbolTarget(["f"], SymbolRecord(W.FILE, Position(2, 0)))
  const G_DEF := Event(BindingOf(MODULE, [], G_FACT), None, None, {G})
  const F_DEF := Event(BindingOf(MODULE, [], F_FACT), None, None, {F})
  const DEFINITIONS := [Parameterless("g", Position(1, 0)), Parameterless("f", Position(2, 0))]

  function WalrusFact(pos: Position): BindingFact {
    BindingFact(0, "f", Bound(NamedExpression, Some(["g"]), false, true, false), [], pos)
  }

  lemma DefinitionsRun()
    ensures [Takes(G_FACT, 0), Takes(F_FACT, 0)] in ActsAll(DEFINITIONS)
      && Own(EffectOfAll(DEFINITIONS)) == {G_FACT, F_FACT}
  {
    hide Acts, EffectOf, Own, ActsAll, EffectOfAll;
    var g, f := Parameterless("g", Position(1, 0)), Parameterless("f", Position(2, 0));
    ParameterlessActs("g", Position(1, 0));
    ParameterlessActs("f", Position(2, 0));
    NoActs();
    InAll([], g, [g], [], [Takes(G_FACT, 0)], [Takes(G_FACT, 0)]);
    InAll([g], f, DEFINITIONS, [Takes(G_FACT, 0)], [Takes(F_FACT, 0)], [Takes(G_FACT, 0), Takes(F_FACT, 0)]);
  }

  /** After both definitions the walrus binds `f` to what `g` stands for. */
  lemma WalrusStore(ctx: Context, walrus: BindingFact, pos: Position)
    requires WellFormed(ctx) && EventsOf(ctx, ModuleId, "g") == [G_DEF] && walrus == WalrusFact(pos)
    requires EventFor(ctx, MODULE, [], F_FACT) == F_DEF
    requires EventFor(ctx, MODULE, [], walrus).targets == {}
    ensures var store := StoreAfter(ctx, MODULE, [], {}, [Takes(G_FACT, 0), Takes(F_FACT, 0), Takes(walrus, 0)]);
            "f" in store.names && store.names["f"].value == Definition(G)
  {
    hide EventFor, Evaluate, StoreAfter;
    EventIs(ctx, G_FACT, G_DEF);
    var one, two := [Takes(G_FACT, 0)], [Takes(G_FACT, 0), Takes(F_FACT, 0)];
    var event := EventFor(ctx, MODULE, [], walrus);
    StoreOne(ctx, one, G_FACT);
    StoreMore(ctx, MODULE, [], {}, one, F_FACT);
    assert one + [Takes(F_FACT, 0)] == two;
    StoreMore(ctx, MODULE, [], {}, two, walrus);
    assert two + [Takes(walrus, 0)] == [Takes(G_FACT, 0), Takes(F_FACT, 0), Takes(walrus, 0)];
    assert Names(G_DEF, G) && Names(F_DEF, F);
    var store := StoreAfter(ctx, MODULE, [], {}, two);
    assert store.names["g"].value == Definition(G);
    EvaluatedBound(ctx, MODULE, store, ["g"], event.fact.pos);
    assert ["g"][1..] == [];
    assert Copies(event) && !PlainImported(event);
  }

  // ----- the test of a conditional expression -----

  /** `f() if (f := g) else 0`, below both definitions. */
  const WALRUS := NamedExpr(Name("f", Position(3, 8)), Name("g", Position(3, 13)))
  const CHOICE := IfExp(WALRUS, CallOfName("f", Position(3, 0)), Other([]))
  const TESTED := DEFINITIONS + [CHOICE]
  const WALRUS_FACT := WalrusFact(Position(3, 8))
  const WALRUS_EVENT := Event(BindingOf(MODULE, [], WALRUS_FACT), None, None, {})
  const CHOSEN := CallFact(0, Some(["f"]), [ExpressionBranch], Position(3, 0))

  lemma WalrusActs()
    ensures [Takes(WALRUS_FACT, 0)] in Acts(WALRUS) && Own(EffectOf(WALRUS)) == {WALRUS_FACT}
  {
    hide Own, StrayNames, Effect.Then;
    var names := BindingTargets(WALRUS.target);
    var how := Assigned(NamedExpression, WALRUS.value);
    assert names == [("f", Position(3, 8))] && names[..0] == [];
    assert NameTakes(names, Shared(names, how)) == [Takes(WALRUS_FACT, 0)];
    InThen(STILL, NamedActs(WALRUS.target, how), [], [Takes(WALRUS_FACT, 0)], [Takes(WALRUS_FACT, 0)]);
    NothingOwned();
    OwnBind("f", how, Position(3, 8));
    OwnThen(NOTHING, Bind("f", how, Position(3, 8)));
    OwnThen(NOTHING, NOTHING.Then(Bind("f", how, Position(3, 8))));
    assert BindTargets(WALRUS.target, how) == NOTHING.Then(Bind("f", how, Position(3, 8)));
  }

  lemma ChoiceActs()
    ensures [Takes(WALRUS_FACT, 0), Reads(CHOSEN)] in Acts(CHOICE) && Own(EffectOf(CHOICE)) == {WALRUS_FACT}
  {
    hide Own, EffectOf, Then, Under;
    WalrusActs();
    CallActs("f", Position(3, 0));
    ChosenActs();
    InThen(Acts(WALRUS), Under(ExpressionBranch, Acts(CHOICE.body1) + Acts(CHOICE.orelse1)), [Takes(WALRUS_FACT, 0)],
           [Reads(CHOSEN)], [Takes(WALRUS_FACT, 0), Reads(CHOSEN)]);
    ChoiceRecords();
  }

  lemma ChosenActs()
    requires [Reads(CallFact(0, Some(["f"]), [], Position(3, 0)))] in Acts(CHOICE.body1)
    ensures [Reads(CHOSEN)] in Under(ExpressionBranch, Acts(CHOICE.body1) + Acts(CHOICE.orelse1))
  {
    hide Acts;
    var call := [Reads(CallFact(0, Some(["f"]), [], Position(3, 0)))];
    assert [ExpressionBranch] + [] == [ExpressionBranch];
    assert TraceUnder(ExpressionBranch, call) == [Reads(CHOSEN)];
    assert call in Acts(CHOICE.body1) + Acts(CHOICE.orelse1);
  }

  lemma ChoiceRecords()
    requires Own(EffectOf(WALRUS)) == {WALRUS_FACT} && Own(EffectOf(CHOICE.body1)) == {}
    ensures Own(EffectOf(CHOICE)) == {WALRUS_FACT}
  {
    hide Own, StrayNames, Effect.Then, Effect.Under;
    var e, f := EffectOf(WALRUS), EffectOf(CHOICE.body1);
    ChoiceUnfolds();
    EitherRecords(e, f);
  }

  lemma ChoiceUnfolds()
    ensures EffectOf(CHOICE) == EffectOf(WALRUS).Then(EffectOf(CHOICE.body1).Then(NOTHING).Under(ExpressionBranch))
  {
    hide Effect.Then, Effect.Under;
    assert EffectOf(CHOICE.orelse1) == NOTHING;
  }

  lemma EitherRecords(e: Effect, f: Effect)
    requires Own(f) == {}
    ensures Own(e.Then(f.Then(NOTHING).Under(ExpressionBranch))) == Own(e)
  {
    hide Own, StrayNames, Effect.Then, Effect.Under;
    NoActs();
    OwnThen(f, NOTHING);
    NoneUnder(f.Then(NOTHING));
    OwnThen(e, f.Then(NOTHING).Under(ExpressionBranch));
  }

  lemma NoneUnder(e: Effect)
    requires Own(e) == {}
    ensures Own(e.Under(ExpressionBranch)) == {}
  {
    var under := e.Under(ExpressionBranch);
    forall g | g in under.bindings ensures g.place != 0 {
      var i :| 0 <= i < |under.bindings| && under.bindings[i] == g;
      assert e.bindings[i] !in Own(e) && e.bindings[i] in e.bindings;
    }
  }

  lemma TestedRun()
    ensures Reaches(ModuleCode(TESTED), [Takes(G_FACT, 0), Takes(F_FACT, 0), Takes(WALRUS_FACT, 0)], CHOSEN)
    ensures Own(EffectOfAll(TESTED)) == {G_FACT, F_FACT, WALRUS_FACT}
  {
    hide Acts, EffectOf, Own, ActsAll, EffectOfAll;
    var before := [Takes(G_FACT, 0), Takes(F_FACT, 0), Takes(WALRUS_FACT, 0)];
    DefinitionsRun();
    ChoiceActs();
    InAll(DEFINITIONS, CHOICE, TESTED, [Takes(G_FACT, 0), Takes(F_FACT, 0)], [Takes(WALRUS_FACT, 0), Reads(CHOSEN)],
          before + [Reads(CHOSEN)] + []);
  }

  /**
   * The test runs first and binds `f` further to the right: the call reaches `g`, and the resolver names the old `f`.
   */
  lemma TestCounterexample()
    ensures var ctx := Index([F_DEF, WALRUS_EVENT], [G_DEF]);
            var before := [Takes(G_FACT, 0), Takes(F_FACT, 0), Takes(WALRUS_FACT, 0)];
            var r := ResolveCall(ctx, CallOf(MODULE, [], CHOSEN));
            && Reaches(ModuleCode(TESTED), before, CHOSEN)
            && IndexedAs(ctx, TESTED, "f", [F_FACT, WALRUS_FACT]) && IndexedAs(ctx, TESTED, "g", [G_FACT])
            && Comparable(ctx, MODULE, []) && r.state == Candidate && r.targets == {F}
            && Evaluate(ctx, MODULE, StoreAfter(ctx, MODULE, [], {}, before), ["f"], CHOSEN.pos).value == Definition(G)
  {
    hide Evaluate, StoreAfter, ResolveCall, EffectOfAll, Reaches, Own;
    var ctx, before :=
      Index([F_DEF, WALRUS_EVENT], [G_DEF]), [Takes(G_FACT, 0), Takes(F_FACT, 0), Takes(WALRUS_FACT, 0)];
    TestedRun();
    IndexSound([F_DEF, WALRUS_EVENT], [G_DEF]);
    assert EventsBefore([F_DEF, WALRUS_EVENT], CHOSEN.pos) == [F_DEF] by { OneBefore(F_DEF, WALRUS_EVENT, CHOSEN.pos); }
    PickedAlone(ctx, CHOSEN, F_DEF, F);
    EventIs(ctx, F_FACT, F_DEF);
    EventIs(ctx, WALRUS_FACT, WALRUS_EVENT);
    WalrusStore(ctx, WALRUS_FACT, Position(3, 8));
    EvaluatedBound(ctx, MODULE, StoreAfter(ctx, MODULE, [], {}, before), ["f"], CHOSEN.pos);
    assert ["f"][1..] == [];
  }

  lemma OneBefore(a: Event, b: Event, pos: Position)
    requires a.fact.pos.Before(pos) && !b.fact.pos.Before(pos)
    ensures EventsBefore([a, b], pos) == [a]
  {
    assert [a, b][1..] == [b] && [b][1..] == [];
  }

  lemma PickedAlone(ctx: Context, call: CallFact, e: Event, t: Target)
    requires Comparable(ctx, MODULE, []) && call.callee == Some(["f"])
      && EventsBefore(EventsOf(ctx, ModuleId, "f"), call.pos) == [e]
    requires e.targets == {t} && t.SymbolTarget? && e.fact.control == [] && DefinitionKind(e.fact.kind)
    ensures var r := ResolveCall(ctx, CallOf(MODULE, [], call)); r.state == Candidate && r.targets == {t}
  {
    hide ResolveCall;
    PickedDefinition(ctx, MODULE, "f", call, e, t);
  }

  // ----- a right-hand side -----

  /** `def f(): ...`, then `f = f()`. */
  const ASSIGNMENT := Assign([Name("f", Position(2, 0))], CallOfName("f", Position(2, 4)))
  const ASSIGNED := [Parameterless("f", Position(1, 0)), ASSIGNMENT]
  const OLD_FACT := DefFact("f", Position(1, 0))
  const NEW_FACT := BindingFact(0, "f", Bound(Assignment, None, true, true, false), [], Position(2, 0))
  const OLD := SymbolTarget(["f"], SymbolRecord(W.FILE, Position(1, 0)))
  const OLD_DEF := Event(BindingOf(MODULE, [], OLD_FACT), None, None, {OLD})
  const NEW_EVENT := Event(BindingOf(MODULE, [], NEW_FACT), None, None, {})
  const RIGHT := CallFact(0, Some(["f"]), [], Position(2, 4))

  lemma AssignmentActs()
    ensures [Reads(RIGHT), Takes(NEW_FACT, 0)] in Acts(ASSIGNMENT) && Own(EffectOf(ASSIGNMENT)) == {NEW_FACT}
  {
    hide Own, StrayNames, Effect.Then, Then;
    var target, how := ASSIGNMENT.targets[0], Assigned(Assignment, ASSIGNMENT.value);
    CallActs("f", Position(2, 4));
    assert ASSIGNMENT.targets[..0] == [] && BindingTargets(target) == [("f", Position(2, 0))]
      && [("f", Position(2, 0))][..0] == [];
    assert [Takes(NEW_FACT, 0)] in TargetActs(target, Shared(BindingTargets(target), how), TakesIn([]));
    assert [] + [Takes(NEW_FACT, 0)] == [Takes(NEW_FACT, 0)];
    assert [Takes(NEW_FACT, 0)] in AssignActs(ASSIGNMENT.targets, how);
    InThen(Acts(ASSIGNMENT.value), AssignActs(ASSIGNMENT.targets, how), [Reads(RIGHT)], [Takes(NEW_FACT, 0)],
           [Reads(RIGHT), Takes(NEW_FACT, 0)]);
    NothingOwned();
    OwnBind("f", how, Position(2, 0));
    OwnThen(NOTHING, Bind("f", how, Position(2, 0)));
    OwnThen(NOTHING, BindTargets(target, how));
    OwnThen(NOTHING, TargetEffect(target, how));
    OwnThen(EffectOf(ASSIGNMENT.value), TargetsEffect(ASSIGNMENT.targets, how));
  }

  lemma AssignedRun()
    ensures Reaches(ModuleCode(ASSIGNED), [Takes(OLD_FACT, 0)], RIGHT)
      && Own(EffectOfAll(ASSIGNED)) == {OLD_FACT, NEW_FACT}
  {
    hide Acts, EffectOf, Own, ActsAll, EffectOfAll;
    var f, old_ := Parameterless("f", Position(1, 0)), [Takes(OLD_FACT, 0)];
    ParameterlessActs("f", Position(1, 0));
    AssignmentActs();
    NoActs();
    InAll([], f, [f], [], old_, old_);
    InAll([f], ASSIGNMENT, ASSIGNED, old_, [Reads(RIGHT), Takes(NEW_FACT, 0)],
          old_ + [Reads(RIGHT)] + [Takes(NEW_FACT, 0)]);
  }

  /**
   * The right-hand side runs before the name is bound again: the call reaches the function, and the resolver does not
   * say so.
   */
  lemma AssignmentCounterexample()
    ensures var ctx, before := Index([OLD_DEF, NEW_EVENT], []), [Takes(OLD_FACT, 0)];
            && Reaches(ModuleCode(ASSIGNED), before, RIGHT) && IndexedAs(ctx, ASSIGNED, "f", [OLD_FACT, NEW_FACT])
            && Comparable(ctx, MODULE, []) && ResolveCall(ctx, CallOf(MODULE, [], RIGHT)).state == Unresolved
            && Evaluate(ctx, MODULE, StoreAfter(ctx, MODULE, [], {}, before), ["f"], RIGHT.pos).value == Definition(OLD)
  {
    hide Evaluate, StoreAfter, EffectOfAll, Reaches, Own, ResolveName, ApplySuffix;
    var ctx, before := Index([OLD_DEF, NEW_EVENT], []), [Takes(OLD_FACT, 0)];
    AssignedRun();
    IndexSound([OLD_DEF, NEW_EVENT], []);
    W.BothElapsed(OLD_DEF, NEW_EVENT, RIGHT.pos);
    BoundAnswer(ctx, MODULE, "f", RIGHT.pos);
    W.NoSuffix(ctx, "f", Settled(NEW_EVENT));
    assert ResolveEvent(ctx, NEW_EVENT, {}) == Settled(NEW_EVENT);
    EventIs(ctx, OLD_FACT, OLD_DEF);
    StoreOne(ctx, before, OLD_FACT);
    assert Names(OLD_DEF, OLD);
    EvaluatedBound(ctx, MODULE, StoreAfter(ctx, MODULE, [], {}, before), ["f"], RIGHT.pos);
    assert ["f"][1..] == [];
  }

  // ----- a walrus in a comprehension -----

  /** `[(f := g) for _ in xs]`, then `f()`, below both definitions. */
  const INNER := NamedExpr(Name("f", Position(3, 2)), Name("g", Position(3, 7)))
  const GENERATOR := Generator(Name("_", Position(3, 14)), Name("xs", Position(3, 19)), [])
  const LISTED := Comprehension("<listcomp>", [GENERATOR], [INNER], Position(3, 0))
  const LATER := CallOfName("f", Position(4, 0))
  const COMPREHENDED := DEFINITIONS + [LISTED] + [LATER]
  const INNER_FACT := WalrusFact(Position(3, 2))
  const BEHIND := CallFact(0, Some(["f"]), [], Position(4, 0))

  /** Its records: the target and the walrus, both in the comprehension's own scope. */
  function InnerEffect(): Effect {
    Bind("_", Dynamic(ComprehensionTarget),
         Position(3, 14)).Then(Bind("f", WalrusFact(Position(3, 2)).how, Position(3, 2)))
      .Under(ComprehensionControl).Inside(ComprehensionKind, "<listcomp>", {}, {})
  }

  const INNER_RECORD := INNER_FACT.(place := 1, control := [ComprehensionControl])

  lemma ListedEffect()
    ensures EffectOf(LISTED) == InnerEffect()
  {
    hide Effect.Then, Effect.Under, Effect.Inside;
    var how, walrus := Dynamic(ComprehensionTarget), Assigned(NamedExpression, INNER.value);
    var a, b := Bind("_", how, Position(3, 14)), Bind("f", walrus, Position(3, 2));
    OneTarget(GENERATOR.target, "_", Position(3, 14), how);
    OneTarget(INNER.target, "f", Position(3, 2), walrus);
    NothingThen(a);
    NothingThen(b);
    assert FirstGenerator(GENERATOR) == a;
    assert EffectOf(INNER) == b;
    EffectOfOne(INNER);
    var inside := a.Then(b).Under(ComprehensionControl).Inside(ComprehensionKind, "<listcomp>", {}, {});
    NothingThen(inside);
    ListedUnfolds(a, b);
  }

  lemma OneTarget(target: Node, name: string, pos: Position, how: Bound)
    requires target == Name(name, pos)
    ensures BindTargets(target, how) == Bind(name, how, pos) && EffectOf(target) == NOTHING
  {
    hide Effect.Then;
    var names := BindingTargets(target);
    assert names == [(name, pos)] && names[..0] == [];
    assert BindAll(names, how) == NOTHING.Then(Bind(name, how, pos));
    NothingThen(Bind(name, how, pos));
  }

  lemma ListedUnfolds(a: Effect, b: Effect)
    requires FirstGenerator(GENERATOR) == a && EffectOfAll([INNER]) == b && a.Then(NOTHING) == a
    ensures EffectOf(LISTED) ==
      NOTHING.Then(a.Then(b).Under(ComprehensionControl).Inside(ComprehensionKind, "<listcomp>", {}, {}))
  {
    hide Effect.Then, Effect.Under, Effect.Inside, FirstGenerator, EffectOfAll;
    assert EffectOf(GENERATOR.iter) == NOTHING && GeneratorEffect([GENERATOR]) == NOTHING;
  }

  lemma InnerRecords()
    ensures InnerEffect().scopes == [ScopeFact(0, ComprehensionKind, "<listcomp>", {}, {}, {"_", "f"})]
    ensures |InnerEffect().bindings| == 2 && InnerEffect().bindings[1] == INNER_RECORD
      && InnerEffect().bindings[0].place == 1
  {
    var a, b := Bind("_", Dynamic(ComprehensionTarget), Position(3, 14)), Bind("f", INNER_FACT.how, Position(3, 2));
    var e := a.Then(b);
    assert e.names == {"_", "f"} && e.scopes == [] && e.bindings == [a.bindings[0], INNER_FACT];
    var under := e.Under(ComprehensionControl);
    assert [ComprehensionControl] + [] == [ComprehensionControl];
    assert under.names == {"_", "f"} && under.scopes == []
      && under.bindings[1] == INNER_FACT.(control := [ComprehensionControl]);
    assert {"_", "f"} - {} - {} == {"_", "f"};
  }

  lemma ListedStray()
    ensures Stray(EffectOf(LISTED), Takes(INNER_FACT, 0)) && Own(EffectOf(LISTED)) == {}
  {
    hide EffectOf, InnerEffect;
    var e := EffectOf(LISTED);
    ListedEffect();
    InnerRecords();
    assert e.scopes[0].around == 0 && Shadows(e, 0) == {};
    assert Shadows(e, 1) == {"_", "f"} && Through(e, 1);
    assert INNER_RECORD in e.bindings by { assert e.bindings[1] == INNER_RECORD; }
    assert StrayHow(e, INNER_RECORD) == INNER_FACT.how;
    forall g | g in e.bindings ensures g.place == 1 {}
  }

  lemma ListedActs()
    ensures [Takes(INNER_FACT, 0)] in Acts(LISTED) && Own(EffectOf(LISTED)) == {}
  {
    hide Own, EffectOf, Stray;
    ListedStray();
    assert [Takes(INNER_FACT, 0)] in StrayActs(EffectOf(LISTED));
    assert [] in FirstIter(GENERATOR);
    InThen(FirstIter(GENERATOR), StrayActs(EffectOf(LISTED)), [], [Takes(INNER_FACT, 0)], [Takes(INNER_FACT, 0)]);
  }

  lemma ComprehendedRun()
    ensures Reaches(ModuleCode(COMPREHENDED), [Takes(G_FACT, 0), Takes(F_FACT, 0), Takes(INNER_FACT, 0)], BEHIND)
    ensures Own(EffectOfAll(COMPREHENDED)) == {G_FACT, F_FACT}
  {
    hide Acts, EffectOf, Own, ActsAll, EffectOfAll;
    var two, three := [Takes(G_FACT, 0), Takes(F_FACT, 0)], [Takes(G_FACT, 0), Takes(F_FACT, 0), Takes(INNER_FACT, 0)];
    DefinitionsRun();
    ListedActs();
    CallActs("f", Position(4, 0));
    InAll(DEFINITIONS, LISTED, DEFINITIONS + [LISTED], two, [Takes(INNER_FACT, 0)], three);
    InAll(DEFINITIONS + [LISTED], LATER, COMPREHENDED, three, [Reads(BEHIND)], three + [Reads(BEHIND)] + []);
  }

  /**
   * The walrus is recorded in the comprehension and binds outside: the call reaches `g`, and the resolver names the old
   * `f`.
   */
  lemma ComprehensionCounterexample()
    ensures var ctx, before := Index([F_DEF], [G_DEF]), [Takes(G_FACT, 0), Takes(F_FACT, 0), Takes(INNER_FACT, 0)];
            var r := ResolveCall(ctx, CallOf(MODULE, [], BEHIND));
            && Reaches(ModuleCode(COMPREHENDED), before, BEHIND)
            && IndexedAs(ctx, COMPREHENDED, "f", [F_FACT]) && IndexedAs(ctx, COMPREHENDED, "g", [G_FACT])
            && Comparable(ctx, MODULE, []) && r.state == Candidate && r.targets == {F}
            && Evaluate(ctx, MODULE, StoreAfter(ctx, MODULE, [], {}, before), ["f"], BEHIND.pos).value == Definition(G)
  {
    hide Evaluate, StoreAfter, ResolveCall, EffectOfAll, Reaches, Own;
    var ctx, before := Index([F_DEF], [G_DEF]), [Takes(G_FACT, 0), Takes(F_FACT, 0), Takes(INNER_FACT, 0)];
    ComprehendedRun();
    IndexSound([F_DEF], [G_DEF]);
    assert EventsBefore([F_DEF], BEHIND.pos) == [F_DEF] by { assert [F_DEF][1..] == []; }
    PickedAlone(ctx, BEHIND, F_DEF, F);
    EventIs(ctx, F_FACT, F_DEF);
    WalrusStore(ctx, INNER_FACT, Position(3, 2));
    EvaluatedBound(ctx, MODULE, StoreAfter(ctx, MODULE, [], {}, before), ["f"], BEHIND.pos);
    assert ["f"][1..] == [];
  }
}
