/** Small files on which backward resolution and forward execution part. */
module LinkerWitnesses {
  import opened Common
  import opened ProbeFacts
  import opened PythonLinker
  import opened LinkerEvidence
  import opened LinkerForward
  import opened LinkerTraces
  import opened ProbeSteps
  import opened PythonAst

  const FILE := FileRecord(["m"], "m.py", "src", false)

  function Defined(scope: ScopeId, name: string, t: Target, pos: Position): Event {
    Event(Binding(scope, name, FunctionBinding, Local, None, false, true, Some([name]), [], pos), None, None, {t})
  }

  function Imported(path: Dotted, t: Target, pos: Position): Event {
    Event(Binding(ModuleId, path[0], ImportBinding, Local, Some(path), false, true, None, [], pos), Some(path),
          Some(InternalModule), {t})
  }

  function ModuleScope(names: set<string>): Scope { Scope(ModuleId, ModuleKind, None, None, None, {}, {}, names) }

  lemma OneScope(names: set<string>)
    ensures ScopeTree([ModuleScope(names)]) && IndexOf([ModuleScope(names)], ModuleId) == 0
  {
    IndexOfUnique([ModuleScope(names)], 0);
  }

  /** Two events that took effect one after the other. */
  function Both(a: Event, b: Event): History { [Took(a, 0), Took(b, 1)] }

  lemma RunTwo(ctx: Context, scope: Scope, a: Event, b: Event)
    requires WellFormed(ctx)
    ensures var one := Execute(ctx, scope, Store(map[], {}), Store(map[], {}), a);
            Run(ctx, scope, {}, Both(a, b), 2) == Execute(ctx, scope, one, one, b)
  {
    hide Execute;
    assert Run(ctx, scope, {}, Both(a, b), 1) ==
      Execute(ctx, scope, Run(ctx, scope, {}, Both(a, b), 0), Run(ctx, scope, {}, Both(a, b), 0), a);
  }

  /** Both events lie before the call. */
  lemma BothElapsed(a: Event, b: Event, pos: Position)
    requires a.fact.pos.Before(b.fact.pos) && b.fact.pos.Before(pos) && a.fact.pos.Before(pos)
    ensures EventsBefore([a, b], pos) == [a, b] && Last([a, b]) == b
  {
    assert [a, b][1..] == [b] && [b][1..] == [];
  }

  // ----- an unbound class local -----

  const MODULE_F := SymbolTarget(["f"], SymbolRecord(FILE, Position(1, 0)))
  const OUTER_F := SymbolTarget(["outer", "f"], SymbolRecord(FILE, Position(3, 2)))
  const CLASS_F := SymbolTarget(["outer", "C", "f"], SymbolRecord(FILE, Position(6, 4)))
  const OUTER :=
    Scope(Inner(FunctionKind, ["outer"], 1), FunctionKind, Some(["outer"]), Some(ModuleId), Some(ModuleId), {}, {},
          {"f"})
  const CLASS :=
    Scope(Inner(ClassKind, ["outer", "C"], 1), ClassKind, Some(["outer", "C"]), Some(OUTER.id), Some(OUTER.id), {}, {},
          {"f"})
  const CLASS_DEF := Defined(CLASS.id, "f", CLASS_F, Position(6, 4))
  const NESTED := Context(
    [ModuleScope({"f"}), OUTER, CLASS],
    map[(ModuleId, "f") := [Defined(ModuleId, "f", MODULE_F, Position(1, 0))],
        (OUTER.id, "f") := [Defined(OUTER.id, "f", OUTER_F, Position(3, 2))],
        (CLASS.id, "f") := [CLASS_DEF]],
    map[], map[])

  lemma NestedScopes()
    ensures ScopeTree(NESTED.scopes)
    ensures IndexOf(NESTED.scopes, ModuleId) == 0 && IndexOf(NESTED.scopes, OUTER.id) == 1
      && IndexOf(NESTED.scopes, CLASS.id) == 2
  {
    var s := NESTED.scopes;
    assert s[1].lookupParent.value == s[0].id && s[2].lookupParent.value == s[1].id;
    assert LookupParentBefore(s, 1) && LookupParentBefore(s, 2);
    IndexOfUnique(s, 0);
    IndexOfUnique(s, 1);
    IndexOfUnique(s, 2);
  }

  lemma NestedPass()
    ensures Comparable(NESTED, CLASS, [])
  {
    NestedScopes();
    assert CLASS in NESTED.scopes by { assert NESTED.scopes[2] == CLASS; }
    forall name ensures EventsOf(NESTED, CLASS.id, name) == if name == "f" then [CLASS_DEF] else [] {}
  }

  /**
   * A class inside a function calls `f()` before it binds its own `f`: execution reaches the module's `f`, the resolver
   * names the function's.
   */
  lemma ClassLocalCounterexample()
    ensures var call := Call(Some(["f"]), CLASS.id, [], Position(5, 4));
            && Comparable(NESTED, CLASS, [])
            && ResolveCall(NESTED, call).state == Candidate && ResolveCall(NESTED, call).targets == {OUTER_F}
            && Evaluate(NESTED, CLASS, Run(NESTED, CLASS, {}, [], 0), ["f"], call.pos).value == Definition(MODULE_F)
  {
    var ctx, pos := NESTED, Position(5, 4);
    NestedPass();
    NestedScopes();
    var outer, global_ := ctx.events[(OUTER.id, "f")][0], ctx.events[(ModuleId, "f")][0];
    assert EventsOf(ctx, OUTER.id, "f") == [outer] && EventsOf(ctx, ModuleId, "f") == [global_];
    assert ResolveName(ctx, "f", OUTER.id, pos, {}, true) == Settled(outer);
    assert ResolveName(ctx, "f", ModuleId, pos, {}, true) == Settled(global_);
    assert EventsBefore(EventsOf(ctx, CLASS.id, "f"), pos) == [];
    UnboundAnswer(ctx, CLASS, "f", pos);
    SettledOne(outer, OUTER_F);
    SettledOne(global_, MODULE_F);
    assert ["f"][1..] == [];
    assert Elsewhere(ctx, "f", ModuleId, pos) == View(Seen(Definition(MODULE_F), [global_]), {});
    WholeText(ctx, "f", Settled(outer), OUTER_F);
  }

  // ----- two imports of one package -----

  const PACKAGE := FileRecord(["p"], "p/__init__.py", "src", true)
  const PART_B := FileRecord(["p", "b"], "p/b.py", "src", false)
  const PART_C := FileRecord(["p", "c"], "p/c.py", "src", false)
  const B_F := SymbolTarget(["f"], SymbolRecord(PART_B, Position(1, 0)))
  const P_B := SymbolTarget(["b"], SymbolRecord(PACKAGE, Position(1, 0)))
  const IMPORT_B := Imported(["p", "b"], ModuleTarget(PART_B), Position(1, 0))
  const IMPORT_C := Imported(["p", "c"], ModuleTarget(PART_C), Position(2, 0))
  const IMPORT_P := Imported(["p"], ModuleTarget(PACKAGE), Position(2, 0))
  const SYMBOLS: SymbolIndex := map[["p", "b"] := map["f" := [B_F.record]], ["p"] := map["b" := [P_B.record]]]

  /** A file that imports `p.b` and then something else of `p`. */
  function Importing(second: Event): Context {
    Context([ModuleScope({"p"})], map[(ModuleId, "p") := [IMPORT_B, second]], map[], SYMBOLS)
  }

  lemma SymbolsStand()
    ensures KeyedSymbols(SYMBOLS) && ModuleSymbols(SYMBOLS, ["p", "b"], "f") == {B_F}
      && ModuleSymbols(SYMBOLS, ["p"], "b") == {P_B}
  {
    assert ["p"] != ["p", "b"];
  }

  lemma ImportingPass(second: Event)
    requires second == IMPORT_C || second == IMPORT_P
    ensures Comparable(Importing(second), ModuleScope({"p"}), Both(IMPORT_B, second))
    ensures EventsOf(Importing(second), ModuleId, "p") == [IMPORT_B, second]
  {
    var ctx := Importing(second);
    OneScope({"p"});
    SymbolsStand();
    forall name ensures EventsOf(ctx, ModuleId, name) == if name == "p" then [IMPORT_B, second] else [] {}
    assert ctx.scopes[0] in ctx.scopes;
  }

  /** The names and modules after both imports. */
  lemma ImportingRun(second: Event)
    requires second == IMPORT_C || second == IMPORT_P
    ensures WellFormed(Importing(second))
    ensures var store := Run(Importing(second), ModuleScope({"p"}), {}, Both(IMPORT_B, second), 2);
            "p" in store.names && store.names["p"].value == Module(["p"])
              && store.loaded == {["p"], ["p", "b"]} + Prefixes(second.fact.value.value)
  {
    hide Run, Evaluate, Comparable, Prefixes;
    ImportingPass(second);
    PassWellFormed(Importing(second), ModuleScope({"p"}), Both(IMPORT_B, second));
    RunTwo(Importing(second), ModuleScope({"p"}), IMPORT_B, second);
    PrefixesOfTwo("p", "b");
    assert ["p", "b"][..1] == ["p"] && second.fact.value.value[..1] == ["p"];
  }

  lemma PassWellFormed(ctx: Context, scope: Scope, history: History)
    requires Comparable(ctx, scope, history)
    ensures WellFormed(ctx) && scope in ctx.scopes && scope.globals == {} && scope.nonlocals == {}
  {
  }

  lemma PrefixesOfTwo(a: string, b: string)
    ensures Prefixes([a, b]) == {[a], [a, b]} && Prefixes([a]) == {[a]}
  {
    assert [a, b][..1] == [a] && [a, b][..2] == [a, b] && [a][..1] == [a];
  }

  /** `import p.b; import p.c; p.b.f()`: execution finds `p.b.f`, the resolver only looks along `p.c`. */
  lemma ImportPathCounterexample()
    ensures var ctx, scope, history := Importing(IMPORT_C), ModuleScope({"p"}), Both(IMPORT_B, IMPORT_C);
            var call := Call(Some(["p", "b", "f"]), ModuleId, [], Position(3, 0));
            && Comparable(ctx, scope, history)
            && ResolveCall(ctx, call).state == Unresolved && ResolveCall(ctx, call).reason == ImportPatternMismatch
            && Evaluate(ctx, scope, Run(ctx, scope, {}, history, 2), ["p", "b", "f"], call.pos).value == Definition(B_F)
  {
    hide Comparable, Run, Evaluate, ResolveName, ApplySuffix;
    ImportingPass(IMPORT_C);
    ImportingRun(IMPORT_C);
    BothElapsed(IMPORT_B, IMPORT_C, Position(3, 0));
    OtherPathTold();
    var store := Run(Importing(IMPORT_C), ModuleScope({"p"}), {}, Both(IMPORT_B, IMPORT_C), 2);
    EvaluatedBound(Importing(IMPORT_C), ModuleScope({"p"}), store, ["p", "b", "f"], Position(3, 0));
    PrefixesOfTwo("p", "c");
    OtherPathSeen(store.loaded);
  }

  lemma OtherPathTold()
    requires WellFormed(Importing(IMPORT_C))
    ensures var r := ResolveCall(Importing(IMPORT_C), Call(Some(["p", "b", "f"]), ModuleId, [], Position(3, 0)));
            r.state == Unresolved && r.reason == ImportPatternMismatch
  {
    hide ResolveName;
    var text: Dotted := ["p", "b", "f"];
    ImportingTold(IMPORT_C);
    assert text[1] != ["p", "c"][1];
  }

  lemma ImportingTold(second: Event)
    requires WellFormed(Importing(second)) && (second == IMPORT_C || second == IMPORT_P)
    ensures ResolveName(Importing(second), "p", ModuleId, Position(3, 0), {}, false) == ResolveImport(second)
  {
    hide ResolveName, Comparable;
    ImportingPass(second);
    PassWellFormed(Importing(second), ModuleScope({"p"}), Both(IMPORT_B, second));
    BothElapsed(IMPORT_B, second, Position(3, 0));
    BoundAnswer(Importing(second), ModuleScope({"p"}), "p", Position(3, 0));
  }

  lemma OtherPathSeen(loaded: set<seq<string>>)
    requires loaded == {["p"], ["p", "b"], ["p", "c"]}
    ensures Walk(SYMBOLS, loaded, Module(["p"]), ["p", "b", "f"][1..]) == Definition(B_F)
  {
    SymbolsStand();
    assert ["p", "b", "f"][1..] == ["b", "f"] && ["b", "f"][1..] == ["f"] && ["f"][1..] == [];
    assert ["p"] + ["b"] == ["p", "b"] && ["p", "b"] + ["f"] == ["p", "b", "f"];
    assert |["p", "b", "f"]| == 3;
    assert Step(SYMBOLS, loaded, Module(["p"]), "b") == Module(["p", "b"]);
    assert Step(SYMBOLS, loaded, Module(["p", "b"]), "f") == Definition(B_F);
  }

  /**
   * `import p.b; import p; p.b()`, with a `b` defined in the package itself: execution has the submodule, the resolver
   * the definition.
   */
  lemma SubmoduleCounterexample()
    ensures var ctx, scope, history := Importing(IMPORT_P), ModuleScope({"p"}), Both(IMPORT_B, IMPORT_P);
            var call := Call(Some(["p", "b"]), ModuleId, [], Position(3, 0));
            && Comparable(ctx, scope, history)
            && ResolveCall(ctx, call).state == Candidate && ResolveCall(ctx, call).targets == {P_B}
            && Evaluate(ctx, scope, Run(ctx, scope, {}, history, 2), ["p", "b"], call.pos).value == Module(["p", "b"])
  {
    hide Comparable, Run, Evaluate, ResolveName, ApplySuffix;
    ImportingPass(IMPORT_P);
    ImportingRun(IMPORT_P);
    BothElapsed(IMPORT_B, IMPORT_P, Position(3, 0));
    SubmoduleTold();
    var store := Run(Importing(IMPORT_P), ModuleScope({"p"}), {}, Both(IMPORT_B, IMPORT_P), 2);
    EvaluatedBound(Importing(IMPORT_P), ModuleScope({"p"}), store, ["p", "b"], Position(3, 0));
    assert ["p", "b"][1..] == ["b"] && ["b"][1..] == [];
    assert ["p"] + ["b"] == ["p", "b"];
    assert Step(SYMBOLS, store.loaded, Module(["p"]), "b") == Module(["p", "b"]);
  }

  lemma SubmoduleTold()
    requires WellFormed(Importing(IMPORT_P))
    ensures var r := ResolveCall(Importing(IMPORT_P), Call(Some(["p", "b"]), ModuleId, [], Position(3, 0)));
            r.state == Candidate && r.targets == {P_B}
  {
    hide ResolveName;
    var text: Dotted := ["p", "b"];
    ImportingTold(IMPORT_P);
    SymbolsStand();
    var root := ResolveImport(IMPORT_P);
    assert root.targets == {ModuleTarget(PACKAGE)};
    assert ["p"] < text && text[1..] == ["b"] && ["b"][1..] == [];
    assert (set t, r | t in root.targets && t.ModuleTarget? && r in ModuleSymbols(SYMBOLS, t.file.modul, "b") :: r) ==
      {P_B};
  }

  // ----- a bare annotation -----

  const F_DEF := Defined(ModuleId, "f", MODULE_F, Position(1, 0))
  const F_NOTE :=
    Event(Binding(ModuleId, "f", Annotation, Local, None, false, false, None, [], Position(2, 0)), None, None, {})
  const ANNOTATED := Context([ModuleScope({"f"})], map[(ModuleId, "f") := [F_DEF, F_NOTE]], map[], map[])

  /** A bare annotation behind a definition: the name still holds the function, and the resolver no longer says so. */
  lemma AnnotationCounterexample()
    ensures var call := Call(Some(["f"]), ModuleId, [], Position(3, 0));
            var scope, history := ModuleScope({"f"}), Both(F_DEF, F_NOTE);
            && Comparable(ANNOTATED, scope, history)
            && ResolveCall(ANNOTATED, call).state == Unresolved
            && Evaluate(ANNOTATED, scope, Run(ANNOTATED, scope, {}, history, 2), ["f"], call.pos).value ==
                 Definition(MODULE_F)
  {
    hide Comparable, Run, Evaluate, ResolveName, ApplySuffix;
    AnnotatedPass();
    var ctx, scope, pos := ANNOTATED, ModuleScope({"f"}), Position(3, 0);
    PassWellFormed(ctx, scope, Both(F_DEF, F_NOTE));
    BothElapsed(F_DEF, F_NOTE, pos);
    BoundAnswer(ctx, scope, "f", pos);
    assert ResolveEvent(ctx, F_NOTE, {}) == Settled(F_NOTE);
    NoSuffix(ctx, "f", Settled(F_NOTE));
    RunTwo(ctx, scope, F_DEF, F_NOTE);
    assert Names(F_DEF, MODULE_F);
    var store := Run(ctx, scope, {}, Both(F_DEF, F_NOTE), 2);
    assert store.names["f"].value == Definition(MODULE_F);
    EvaluatedBound(ctx, scope, store, ["f"], pos);
    assert ["f"][1..] == [];
  }

  lemma NoSuffix(ctx: Context, name: string, root: Resolution)
    requires root.state == Unresolved && root.targets == {}
    ensures ApplySuffix(ctx.symbols, [name], root, false).state == Unresolved
  {
    CandidateFromUnresolvedRoot(ctx.symbols, [name], root, false);
  }

  lemma AnnotatedPass()
    ensures Comparable(ANNOTATED, ModuleScope({"f"}), Both(F_DEF, F_NOTE))
      && EventsOf(ANNOTATED, ModuleId, "f") == [F_DEF, F_NOTE]
  {
    OneScope({"f"});
    forall name ensures EventsOf(ANNOTATED, ModuleId, name) == if name == "f" then [F_DEF, F_NOTE] else [] {}
    assert ANNOTATED.scopes[0] in ANNOTATED.scopes;
  }

  // ----- one object by two bindings -----

  const AGAIN :=
    Event(Binding(ModuleId, "f", ImportBinding, Local, None, false, true, None, [WhileControl], Position(4, 2)),
          Some(["f"]), Some(InternalSymbol), {MODULE_F})
  const REPEATED := Context([ModuleScope({"f"})], map[(ModuleId, "f") := [F_DEF, AGAIN]], map[], map[])

  /**
   * `def f` and a loop that calls `f()` and then imports the same `f` again: in its second round the name holds what
   * the resolver says, but by another binding than the one it gives as its proof.
   */
  lemma TwoBindings()
    ensures var call := CallFact(0, Some(["f"]), [], Position(3, 2));
            var scope, history := ModuleScope({"f"}), Both(F_DEF, AGAIN);
            var r := ResolveCall(REPEATED, CallOf(scope, [], call));
            && Comparable(REPEATED, scope, history) && r.state == Candidate && r.targets == {MODULE_F}
            && Evaluate(REPEATED, scope, Run(REPEATED, scope, {}, history, 2), ["f"], call.pos) ==
                 Seen(Definition(MODULE_F), [AGAIN])
            && Misled(REPEATED, scope, {}, history, 2, ["f"], call.pos)
  {
    hide Run, Evaluate, ResolveCall, LoadedAt;
    var ctx, scope, call := REPEATED, ModuleScope({"f"}), CallFact(0, Some(["f"]), [], Position(3, 2));
    RepeatedPass();
    PassWellFormed(ctx, scope, Both(F_DEF, AGAIN));
    assert EventsBefore([F_DEF, AGAIN], call.pos) == [F_DEF] by {
      assert [F_DEF, AGAIN][1..] == [AGAIN] && [AGAIN][1..] == [];
    }
    PickedDefinition(ctx, scope, "f", call, F_DEF, MODULE_F);
    RunTwo(ctx, scope, F_DEF, AGAIN);
    assert Names(AGAIN, MODULE_F);
    var store := Run(ctx, scope, {}, Both(F_DEF, AGAIN), 2);
    assert store.names["f"] == Seen(Definition(MODULE_F), [AGAIN]);
    EvaluatedBound(ctx, scope, store, ["f"], call.pos);
    assert ["f"][1..] == [];
  }

  lemma RepeatedPass()
    ensures Comparable(REPEATED, ModuleScope({"f"}), Both(F_DEF, AGAIN))
      && EventsOf(REPEATED, ModuleId, "f") == [F_DEF, AGAIN]
  {
    OneScope({"f"});
    forall name ensures EventsOf(REPEATED, ModuleId, name) == if name == "f" then [F_DEF, AGAIN] else [] {}
    assert REPEATED.scopes[0] in REPEATED.scopes;
  }
}
