/** The fact collector: a syntax visitor that keeps a scope stack, a control stack and growing fact lists. */
module StructuralProbe {
  import opened Common
  import opened ProbeFacts
  import opened PythonAst
  import opened ProbeSteps

  class FactCollector {
    var scopes: seq<Scope>
    var bindings: seq<Binding>
    var calls: seq<Call>
    var imports: seq<ImportFact>
    var stack: seq<Scope>
    var control: seq<Control>
    var counters: Counters
    var localNames: map<ScopeId, set<string>>

    function Now(): Snapshot
      reads this
    {
      Snapshot(scopes, bindings, calls, imports, stack, control, counters, localNames)
    }

    ghost predicate Valid()
      reads this
    {
      Consistent(Now())
    }

    constructor ()
      ensures Valid()
      ensures Now() == START
    {
      scopes := [MODULE_RECORD];
      bindings := [];
      calls := [];
      imports := [];
      stack := [MODULE_RECORD];
      control := [];
      counters := map[];
      localNames := map[ModuleId := {}];
      new;
      StartConsistent();
    }

    method RecordBinding(name: string, kind: BindingKind, value: Option<Dotted>, dynamic: bool, runtime: bool,
                         target: Option<Dotted>, pos: Position)
      requires Valid()
      modifies this
      ensures Valid() && Now() == WithBinding(old(Now()), name, kind, value, dynamic, runtime, target, pos)
      ensures TargetFits(old(Now()), name, target) ==>
                Advance(old(Now()), Now(), Bind(name, Bound(kind, value, dynamic, runtime, target.Some?), pos))
    {
      hide Consistent, Advance, Bind;
      Basics(Now());
      BindingRecorded(Now(), name, kind, value, dynamic, runtime, target, pos);
      var top := stack[|stack| - 1];
      var declaration := DeclarationIn(top, name);
      if declaration == Local {
        localNames := localNames[top.id := localNames[top.id] + {name}];
      }
      bindings := bindings + [Binding(top.id, name, kind, declaration, value, dynamic, runtime, target, control, pos)];
    }

    /** A value belongs to the target only when the target binds a single name. */
    method RecordTargets(target: Node, kind: BindingKind, value: Option<Dotted>, dynamic: bool, runtime: bool)
      requires Valid()
      modifies this
      ensures Valid() && Advance(old(Now()), Now(), BindTargets(target, Bound(kind, value, dynamic, runtime, false)))
    {
      hide Consistent, Advance, WithBinding, Effect.Then, Effect.Under, Effect.Inside, Bind;
      var names := BindingTargets(target);
      ghost var how := Shared(names, Bound(kind, value, dynamic, runtime, false));
      var single := |names| == 1;
      ghost var start := Now();
      AdvanceNothing(start);
      for i := 0 to |names|
        invariant Valid() && Advance(start, Now(), BindAll(names[..i], how))
      {
        ghost var before := Now();
        assert names[..i + 1][..i] == names[..i];
        Basics(before);
        RecordBinding(names[i].0, kind, if single then value else None, dynamic || !single, runtime, None, names[i].1);
        Compose(start, before, Now(), BindAll(names[..i], how), Bind(names[i].0, how, names[i].1));
      }
      assert names[..|names|] == names;
    }

    method PushControl(k: Control)
      requires Valid()
      modifies this`control
      ensures Valid() && Now() == old(Now()).(control := old(control) + [k])
    {
      hide Consistent;
      ControlKept(Now(), control + [k]);
      control := control + [k];
    }

    /** `a` is the moment before the push, `e` what happened since. */
    method PopControl(ghost a: Snapshot, ghost k: Control, ghost e: Effect)
      requires Valid() && Advance(a.(control := a.control + [k]), Now(), e)
      modifies this`control
      ensures Valid() && Advance(a, Now(), e.Under(k))
    {
      hide Consistent, Advance, WithBinding, Effect.Then, Effect.Under, Effect.Inside;
      StacksKept(a.(control := a.control + [k]), Now(), e);
      ControlPopped(a, k, Now(), e);
      ControlKept(Now(), a.control);
      control := control[..|control| - 1];
    }

    method EnterScope(kind: ScopeKind, qualified: Dotted, globals: set<string>, nonlocals: set<string>)
      requires Valid() && !kind.ModuleKind?
      modifies this
      ensures Valid() && Now() == Entered(old(Now()), kind, qualified, globals, nonlocals)
    {
      hide Consistent;
      Basics(Now());
      ScopeEntered(Now(), kind, qualified, globals, nonlocals);
      var around := stack[|stack| - 1];
      var count := (if (kind, qualified) in counters then counters[(kind, qualified)] else 0) + 1;
      counters := counters[(kind, qualified) := count];
      var record := Scope(Inner(kind, qualified, count), kind, Some(qualified), Some(around.id),
                          LookupParentOf(kind, around), globals, nonlocals, {});
      scopes := scopes + [record];
      stack := stack + [record];
      localNames := localNames[record.id := {}];
    }

    /** `a` is the moment before the scope was entered, `e` what happened inside it. */
    method LeaveScope(ghost a: Snapshot, ghost kind: ScopeKind, ghost name: string,
                      ghost globals: set<string>, ghost nonlocals: set<string>, ghost e: Effect)
      requires Valid() && Consistent(a) && !kind.ModuleKind? && |a.stack| > 0
      requires Advance(Entered(a, kind, QualifiedIn(a.Top(), name), globals, nonlocals), Now(), e)
      modifies this`stack
      ensures Valid() && Advance(a, Now(), e.Inside(kind, name, globals, nonlocals))
    {
      hide Consistent, Advance, WithBinding, Effect.Then, Effect.Under, Effect.Inside;
      ScopeLeft(a, Now(), kind, name, globals, nonlocals, e);
      StacksKept(Entered(a, kind, QualifiedIn(a.Top(), name), globals, nonlocals), Now(), e);
      stack := stack[..|stack| - 1];
    }

    function Qualified(name: string): Dotted
      requires |stack| > 0
      reads this
    {
      QualifiedIn(stack[|stack| - 1], name)
    }

    method VisitAll(nodes: seq<Node>)
      requires Valid()
      modifies this
      ensures Valid() && Advance(old(Now()), Now(), EffectOfAll(nodes))
      decreases nodes
    {
      hide Consistent, Advance, WithBinding, Effect.Then, Effect.Under, Effect.Inside;
      ghost var start := Now();
      AdvanceNothing(start);
      for i := 0 to |nodes|
        invariant Valid() && Advance(start, Now(), EffectOfAll(nodes[..i]))
      {
        ghost var before := Now();
        assert nodes[..i + 1][..i] == nodes[..i];
        Visit(nodes[i]);
        Compose(start, before, Now(), EffectOfAll(nodes[..i]), EffectOf(nodes[i]));
      }
      assert nodes[..|nodes|] == nodes;
    }

    method VisitOption(node: Option<Node>)
      requires Valid()
      modifies this
      ensures Valid() && Advance(old(Now()), Now(), EffectOfOption(node))
      decreases node
    {
      hide Consistent, Advance, WithBinding, Effect.Then, Effect.Under, Effect.Inside;
      match node {
        case None => AdvanceNothing(Now());
        case Some(n) => Visit(n);
      }
    }

    method VisitParam(param: Param)
      requires Valid()
      modifies this
      ensures Valid() && Advance(old(Now()), Now(), EffectOfOption(param.annotation))
      decreases param
    {
      VisitOption(param.annotation);
    }

    method VisitParameterExpressions(p: Parameters)
      requires Valid()
      modifies this
      ensures Valid() && Advance(old(Now()), Now(), ParameterEffect(p))
      decreases p
    {
      hide Consistent, Advance, WithBinding, Effect.Then, Effect.Under, Effect.Inside;
      ghost var first := Now();
      VisitAll(p.defaults);
      ghost var start := Now();
      AdvanceNothing(start);
      for i := 0 to |p.params|
        invariant Valid() && Advance(start, Now(), AnnotationEffect(p.params[..i]))
      {
        ghost var before := Now();
        assert p.params[..i + 1][..i] == p.params[..i];
        VisitParam(p.params[i]);
        Compose(start, before, Now(), AnnotationEffect(p.params[..i]), EffectOfOption(p.params[i].annotation));
      }
      assert p.params[..|p.params|] == p.params;
      Compose(first, start, Now(), EffectOfAll(p.defaults), AnnotationEffect(p.params));
    }

    method RecordParameters(params: seq<Param>)
      requires Valid()
      modifies this
      ensures Valid() && Advance(old(Now()), Now(), ParamNames(params))
    {
      hide Consistent, Advance, WithBinding, Effect.Then, Effect.Under, Effect.Inside;
      ghost var start := Now();
      AdvanceNothing(start);
      for i := 0 to |params|
        invariant Valid() && Advance(start, Now(), ParamNames(params[..i]))
      {
        ghost var before := Now();
        assert params[..i + 1][..i] == params[..i];
        Basics(before);
        RecordBinding(params[i].name, Parameter, None, true, true, None, params[i].pos);
        Compose(start, before, Now(), ParamNames(params[..i]), Bind(params[i].name, Dynamic(Parameter), params[i].pos));
      }
      assert params[..|params|] == params;
    }

    method VisitClass(node: Node)
      requires Valid() && node.ClassDef?
      modifies this
      ensures Valid() && Advance(old(Now()), Now(), EffectOf(node))
      decreases node, 0
    {
      hide Consistent, Advance, WithBinding, Effect.Then, Effect.Under, Effect.Inside, ClassHead;
      Basics(Now());
      ghost var s0 := Now();
      var qualified := Qualified(node.name);
      VisitClassHead(node, qualified);
      ghost var s1 := Now();
      var globals, nonlocals := Declared(node.body, true), Declared(node.body, false);
      Basics(s1);
      EnterScope(ClassKind, qualified, globals, nonlocals);
      VisitAll(node.body);
      LeaveScope(s1, ClassKind, node.name, globals, nonlocals, EffectOfAll(node.body));
      Compose(s0, s1, Now(), ClassHead(node), EffectOfAll(node.body).Inside(ClassKind, node.name, globals, nonlocals));
    }

    /** What is visited around the class: its binding, decorators, bases, keywords. */
    method VisitClassHead(node: Node, qualified: Dotted)
      requires Valid() && node.ClassDef? && |stack| > 0 && qualified == Qualified(node.name)
      modifies this
      ensures Valid() && Advance(old(Now()), Now(), ClassHead(node)) && stack == old(stack)
      decreases node, 0, 0
    {
      hide Consistent, Advance, WithBinding, Effect.Then, Effect.Under, Effect.Inside;
      Basics(Now());
      ghost var s0 := Now();
      RecordBinding(node.name, ClassBinding, None, false, true, Some(qualified), node.pos);
      ghost var s1 := Now();
      VisitAll(node.decorators);
      ghost var s2 := Now();
      VisitAll(node.bases);
      ghost var s3 := Now();
      VisitAll(node.keywords);
      ghost var e1 := Bind(node.name, Defined(ClassBinding), node.pos);
      ghost var e2 := e1.Then(EffectOfAll(node.decorators));
      ghost var e3 := e2.Then(EffectOfAll(node.bases));
      Compose(s0, s1, s2, e1, EffectOfAll(node.decorators));
      Compose(s0, s2, s3, e2, EffectOfAll(node.bases));
      Compose(s0, s3, Now(), e3, EffectOfAll(node.keywords));
      Basics(Now());
      StacksKept(s0, Now(), ClassHead(node));
    }

    method VisitFunction(node: Node)
      requires Valid() && node.FunctionDef?
      modifies this
      ensures Valid() && Advance(old(Now()), Now(), EffectOf(node))
      decreases node, 0
    {
      hide Consistent, Advance, WithBinding, Effect.Then, Effect.Under, Effect.Inside;
      Basics(Now());
      ghost var s0 := Now();
      var qualified := Qualified(node.name);
      VisitFunctionHead(node, qualified);
      ghost var s1 := Now();
      VisitFunctionBody(node, if node.isAsync then AsyncFunctionKind else FunctionKind, qualified);
      Compose(s0, s1, Now(), FunctionHead(node), FunctionBody(node));
    }

    /** What is visited around the function: its binding, decorators, defaults, annotations. */
    method VisitFunctionHead(node: Node, qualified: Dotted)
      requires Valid() && node.FunctionDef? && |stack| > 0 && qualified == Qualified(node.name)
      modifies this
      ensures Valid() && Advance(old(Now()), Now(), FunctionHead(node)) && stack == old(stack)
      decreases node, 0, 0
    {
      hide Consistent, Advance, WithBinding, Effect.Then, Effect.Under, Effect.Inside;
      Basics(Now());
      ghost var s0 := Now();
      var binding := if node.isAsync then AsyncFunctionBinding else FunctionBinding;
      RecordBinding(node.name, binding, None, false, true, Some(qualified), node.pos);
      ghost var s1 := Now();
      VisitAll(node.decorators);
      ghost var s2 := Now();
      VisitParameterExpressions(node.parameters);
      ghost var s3 := Now();
      VisitOption(node.returned);
      ghost var e1 := Bind(node.name, Defined(binding), node.pos);
      ghost var e2 := e1.Then(EffectOfAll(node.decorators));
      ghost var e3 := e2.Then(ParameterEffect(node.parameters));
      Compose(s0, s1, s2, e1, EffectOfAll(node.decorators));
      Compose(s0, s2, s3, e2, ParameterEffect(node.parameters));
      Compose(s0, s3, Now(), e3, EffectOfOption(node.returned));
      Basics(Now());
      StacksKept(s0, Now(), FunctionHead(node));
    }

    /** What is visited inside it: its parameters and its body. */
    method VisitFunctionBody(node: Node, kind: ScopeKind, qualified: Dotted)
      requires Valid() && node.FunctionDef? && kind == if node.isAsync then AsyncFunctionKind else FunctionKind
      requires |stack| > 0 && qualified == Qualified(node.name)
      modifies this
      ensures Valid() && Advance(old(Now()), Now(), FunctionBody(node))
      decreases node, 0, 0
    {
      hide Consistent, Advance, WithBinding, Effect.Then, Effect.Under, Effect.Inside;
      Basics(Now());
      ghost var s0 := Now();
      var globals, nonlocals := Declared(node.body, true), Declared(node.body, false);
      EnterScope(kind, qualified, globals, nonlocals);
      ghost var s1 := Now();
      RecordParameters(node.parameters.params);
      ghost var s2 := Now();
      VisitAll(node.body);
      ghost var inside := ParamNames(node.parameters.params).Then(EffectOfAll(node.body));
      Compose(s1, s2, Now(), ParamNames(node.parameters.params), EffectOfAll(node.body));
      LeaveScope(s0, kind, node.name, globals, nonlocals, inside);
    }

    method VisitLambda(node: Node)
      requires Valid() && node.LambdaExpr?
      modifies this
      ensures Valid() && Advance(old(Now()), Now(), EffectOf(node))
      decreases node, 0
    {
      hide Consistent, Advance, WithBinding, Effect.Then, Effect.Under, Effect.Inside;
      ghost var s0 := Now();
      VisitParameterExpressions(node.parameters);
      ghost var s1 := Now();
      Basics(s1);
      var qualified := Qualified("<lambda>");
      EnterScope(LambdaKind, qualified, {}, {});
      ghost var s2 := Now();
      RecordParameters(node.parameters.params);
      ghost var s3 := Now();
      Visit(node.lambdaBody);
      ghost var inside := ParamNames(node.parameters.params).Then(EffectOf(node.lambdaBody));
      Compose(s2, s3, Now(), ParamNames(node.parameters.params), EffectOf(node.lambdaBody));
      LeaveScope(s1, LambdaKind, "<lambda>", {}, {}, inside);
      Compose(s0, s1, Now(), ParameterEffect(node.parameters), inside.Inside(LambdaKind, "<lambda>", {}, {}));
    }

    /** A target is visited as an expression, then bound. */
    method VisitTarget(target: Node, kind: BindingKind, value: Option<Dotted>, dynamic: bool, runtime: bool)
      requires Valid()
      modifies this
      ensures Valid() && Advance(old(Now()), Now(), TargetEffect(target, Bound(kind, value, dynamic, runtime, false)))
      decreases target, 2
    {
      hide Consistent, Advance, WithBinding, Effect.Then, Effect.Under, Effect.Inside;
      ghost var s0 := Now();
      Visit(target);
      ghost var s1 := Now();
      RecordTargets(target, kind, value, dynamic, runtime);
      Compose(s0, s1, Now(), EffectOf(target), BindTargets(target, Bound(kind, value, dynamic, runtime, false)));
    }

    method VisitTargets(targets: seq<Node>, kind: BindingKind, value: Option<Dotted>, dynamic: bool, runtime: bool)
      requires Valid()
      modifies this
      ensures Valid() && Advance(old(Now()), Now(), TargetsEffect(targets, Bound(kind, value, dynamic, runtime, false)))
      decreases targets
    {
      hide Consistent, Advance, WithBinding, Effect.Then, Effect.Under, Effect.Inside;
      ghost var start, how := Now(), Bound(kind, value, dynamic, runtime, false);
      AdvanceNothing(start);
      for i := 0 to |targets|
        invariant Valid() && Advance(start, Now(), TargetsEffect(targets[..i], how))
      {
        ghost var before := Now();
        assert targets[..i + 1][..i] == targets[..i];
        VisitTarget(targets[i], kind, value, dynamic, runtime);
        Compose(start, before, Now(), TargetsEffect(targets[..i], how), TargetEffect(targets[i], how));
      }
      assert targets[..|targets|] == targets;
    }

    method VisitGenerator(g: Generator)
      requires Valid()
      modifies this
      ensures Valid() && Advance(old(Now()), Now(), LaterGenerator(g))
      decreases g
    {
      hide Consistent, Advance, WithBinding, Effect.Then, Effect.Under, Effect.Inside;
      ghost var s0 := Now();
      Visit(g.iter);
      ghost var s1 := Now();
      VisitTarget(g.target, ComprehensionTarget, None, true, true);
      ghost var s2 := Now();
      VisitAll(g.conditions);
      Compose(s0, s1, s2, EffectOf(g.iter), TargetEffect(g.target, Dynamic(ComprehensionTarget)));
      Compose(s0, s2, Now(), EffectOf(g.iter).Then(TargetEffect(g.target, Dynamic(ComprehensionTarget))),
              EffectOfAll(g.conditions));
    }

    /** The generators after the first, in order. */
    method VisitGenerators(generators: seq<Generator>)
      requires Valid() && |generators| > 0
      modifies this
      ensures Valid() && Advance(old(Now()), Now(), GeneratorEffect(generators))
      decreases generators
    {
      hide Consistent, Advance, WithBinding, Effect.Then, Effect.Under, Effect.Inside;
      ghost var start := Now();
      AdvanceNothing(start);
      for i := 1 to |generators|
        invariant Valid() && Advance(start, Now(), GeneratorEffect(generators[..i]))
      {
        ghost var before := Now();
        var g := generators[i];
        assert generators[..i + 1][..i] == generators[..i];
        VisitGenerator(g);
        Compose(start, before, Now(), GeneratorEffect(generators[..i]), LaterGenerator(g));
      }
      assert generators[..|generators|] == generators;
    }

    method VisitComprehension(node: Node)
      requires Valid() && node.Comprehension?
      modifies this
      ensures Valid() && Advance(old(Now()), Now(), EffectOf(node))
      decreases node, 0, 1
    {
      hide Consistent, Advance, WithBinding, Effect.Then, Effect.Under, Effect.Inside;
      if node.generators == [] {
        VisitAll(node.values);
        return;
      }
      ghost var s0 := Now();
      var first := node.generators[0];
      VisitIter(first);
      ghost var s1 := Now();
      Basics(s1);
      var qualified := Qualified(node.shape);
      EnterScope(ComprehensionKind, qualified, {}, {});
      ghost var s2 := Now();
      PushControl(ComprehensionControl);
      ghost var inside := VisitInsideComprehension(node);
      PopControl(s2, ComprehensionControl, inside);
      inside := inside.Under(ComprehensionControl);
      LeaveScope(s1, ComprehensionKind, node.shape, {}, {}, inside);
      Compose(s0, s1, Now(), EffectOf(first.iter), inside.Inside(ComprehensionKind, node.shape, {}, {}));
    }

    method VisitIter(g: Generator)
      requires Valid()
      modifies this
      ensures Valid() && Advance(old(Now()), Now(), EffectOf(g.iter))
      decreases g
    {
      Visit(g.iter);
    }

    method VisitInsideComprehension(node: Node) returns (ghost inside: Effect)
      requires Valid() && node.Comprehension? && node.generators != []
      modifies this
      ensures inside ==
        FirstGenerator(node.generators[0]).Then(GeneratorEffect(node.generators)).Then(EffectOfAll(node.values))
      ensures Valid() && Advance(old(Now()), Now(), inside)
      decreases node, 0, 0
    {
      hide Consistent, Advance, WithBinding, Effect.Then, Effect.Under, Effect.Inside;
      ghost var s0 := Now();
      ghost var e1 := VisitFirst(node.generators[0]);
      ghost var s1 := Now();
      VisitGenerators(node.generators);
      ghost var s2 := Now();
      VisitAll(node.values);
      ghost var e2 := e1.Then(GeneratorEffect(node.generators));
      inside := e2.Then(EffectOfAll(node.values));
      Compose(s0, s1, s2, e1, GeneratorEffect(node.generators));
      Compose(s0, s2, Now(), e2, EffectOfAll(node.values));
    }

    method VisitFirst(first: Generator) returns (ghost e: Effect)
      requires Valid()
      modifies this
      ensures e == FirstGenerator(first)
      ensures Valid() && Advance(old(Now()), Now(), e)
      decreases first
    {
      hide Consistent, Advance, WithBinding, Effect.Then, Effect.Under, Effect.Inside;
      ghost var s0 := Now();
      VisitTarget(first.target, ComprehensionTarget, None, true, true);
      ghost var s1 := Now();
      VisitAll(first.conditions);
      e := TargetEffect(first.target, Dynamic(ComprehensionTarget)).Then(EffectOfAll(first.conditions));
      Compose(s0, s1, Now(), TargetEffect(first.target, Dynamic(ComprehensionTarget)), EffectOfAll(first.conditions));
    }

    method RecordImport(fact: ImportFact)
      requires Valid()
      modifies this`imports
      ensures Valid() && Advance(old(Now()), Now(), Imports(fact))
    {
      hide Consistent, Advance, WithBinding, Effect.Then, Effect.Under, Effect.Inside;
      Basics(Now());
      ImportRecorded(Now(), fact);
      imports := imports + [fact.(scope := stack[|stack| - 1].id)];
    }

    /** `import` records the clause as an import first, then the name it binds. */
    method VisitAlias(alias: Alias, pos: Position)
      requires Valid()
      modifies this
      ensures Valid() && Advance(old(Now()), Now(), AliasOne(alias, pos))
    {
      hide Consistent, Advance, WithBinding, Effect.Then, Effect.Under, Effect.Inside, Bind, Imports;
      ghost var s0 := Now();
      var fact := PlainImport(alias.path, alias.asName, ModuleId, pos);
      RecordImport(fact);
      ghost var s1 := Now();
      Basics(s1);
      RecordBinding(AliasName(alias), ImportBinding, Some(alias.path), false, true, None, pos);
      Compose(s0, s1, Now(), Imports(fact),
              Bind(AliasName(alias), Bound(ImportBinding, Some(alias.path), false, true, false), pos));
    }

    method VisitImport(node: Node)
      requires Valid() && node.Import?
      modifies this
      ensures Valid() && Advance(old(Now()), Now(), EffectOf(node))
    {
      hide Consistent, Advance, AliasOne;
      ghost var start := Now();
      AdvanceNothing(start);
      for i := 0 to |node.aliases|
        invariant Valid() && Advance(start, Now(), AliasEffect(node.aliases[..i], node.pos))
      {
        ghost var before := Now();
        assert node.aliases[..i + 1][..i] == node.aliases[..i];
        VisitAlias(node.aliases[i], node.pos);
        Compose(start, before, Now(), AliasEffect(node.aliases[..i], node.pos), AliasOne(node.aliases[i], node.pos));
      }
      assert node.aliases[..|node.aliases|] == node.aliases;
    }

    method VisitFromAlias(base: Option<Dotted>, level: nat, alias: FromAlias, pos: Position)
      requires Valid()
      modifies this
      ensures Valid() && Advance(old(Now()), Now(), FromAliasOne(base, level, alias, pos))
    {
      hide Consistent, Advance, WithBinding, Effect.Then, Effect.Under, Effect.Inside, Bind, Imports;
      ghost var s0 := Now();
      var fact := FromImport(base, level, alias.name, alias.asName, ModuleId, pos);
      RecordImport(fact);
      if alias.name != "*" {
        ghost var s1 := Now();
        var name := if alias.asName.Some? then alias.asName.value else alias.name;
        Basics(s1);
        RecordBinding(name, ImportBinding, None, false, true, None, pos);
        Compose(s0, s1, Now(), Imports(fact), Bind(name, Bound(ImportBinding, None, false, true, false), pos));
      }
    }

    method VisitImportFrom(node: Node)
      requires Valid() && node.ImportFrom?
      modifies this
      ensures Valid() && Advance(old(Now()), Now(), EffectOf(node))
    {
      hide Consistent, Advance, FromAliasOne;
      ghost var start := Now();
      AdvanceNothing(start);
      for i := 0 to |node.fromAliases|
        invariant Valid()
          && Advance(start, Now(), FromAliasEffect(node.base, node.level, node.fromAliases[..i], node.pos))
      {
        ghost var before := Now();
        assert node.fromAliases[..i + 1][..i] == node.fromAliases[..i];
        VisitFromAlias(node.base, node.level, node.fromAliases[i], node.pos);
        Compose(start, before, Now(), FromAliasEffect(node.base, node.level, node.fromAliases[..i], node.pos),
                FromAliasOne(node.base, node.level, node.fromAliases[i], node.pos));
      }
      assert node.fromAliases[..|node.fromAliases|] == node.fromAliases;
    }

    method VisitCall(node: Node)
      requires Valid() && node.CallExpr?
      modifies this
      ensures Valid() && Advance(old(Now()), Now(), EffectOf(node))
      decreases node, 0
    {
      hide Consistent, Advance, WithBinding, Effect.Then, Effect.Under, Effect.Inside;
      ghost var s0 := Now();
      Basics(s0);
      var callee := ExpressionName(node.func);
      CallRecorded(s0, callee, node.pos);
      calls := calls + [Call(callee, stack[|stack| - 1].id, control, node.pos)];
      ghost var s1 := Now();
      Visit(node.func);
      ghost var s2 := Now();
      VisitAll(node.arguments);
      ghost var e1 := Calls(callee, node.pos);
      Compose(s0, s1, s2, e1, EffectOf(node.func));
      Compose(s0, s2, Now(), e1.Then(EffectOf(node.func)), EffectOfAll(node.arguments));
    }

    /** A test, then two blocks under a control keyword: `if` and `while`. */
    method VisitBranch(node: Node)
      requires Valid() && node.Branch?
      modifies this
      ensures Valid() && Advance(old(Now()), Now(), EffectOf(node))
      decreases node, 0
    {
      hide Consistent, Advance, WithBinding, Effect.Then, Effect.Under, Effect.Inside, EffectOfAll, TargetEffect;
      ghost var s0 := Now();
      Visit(node.test);
      ghost var s1 := Now();
      PushControl(node.control);
      ghost var s2 := Now();
      VisitAll(node.body);
      ghost var s3 := Now();
      VisitAll(node.orelse);
      ghost var e1, e2, e3 := EffectOf(node.test), EffectOfAll(node.body), EffectOfAll(node.orelse);
      Compose(s2, s3, Now(), e2, e3);
      PopControl(s1, node.control, e2.Then(e3));
      Compose(s0, s1, Now(), e1, e2.Then(e3).Under(node.control));
    }

    method VisitIfExp(node: Node)
      requires Valid() && node.IfExp?
      modifies this
      ensures Valid() && Advance(old(Now()), Now(), EffectOf(node))
      decreases node, 0
    {
      hide Consistent, Advance, WithBinding, Effect.Then, Effect.Under, Effect.Inside, EffectOfAll, TargetEffect;
      ghost var s0 := Now();
      Visit(node.test);
      ghost var s1 := Now();
      PushControl(ExpressionBranch);
      ghost var s2 := Now();
      Visit(node.body1);
      ghost var s3 := Now();
      Visit(node.orelse1);
      ghost var e1, e2, e3 := EffectOf(node.test), EffectOf(node.body1), EffectOf(node.orelse1);
      Compose(s2, s3, Now(), e2, e3);
      PopControl(s1, ExpressionBranch, e2.Then(e3));
      Compose(s0, s1, Now(), e1, e2.Then(e3).Under(ExpressionBranch));
    }

    /** The first operand always runs; the others are under short circuit. */
    method VisitBoolOp(node: Node)
      requires Valid() && node.BoolOp?
      modifies this
      ensures Valid() && Advance(old(Now()), Now(), EffectOf(node))
      decreases node, 0
    {
      hide Consistent, Advance, WithBinding, Effect.Then, Effect.Under, Effect.Inside;
      ghost var s0 := Now();
      AdvanceNothing(s0);
      if node.operands == [] { return; }
      Visit(node.operands[0]);
      ghost var s1 := Now();
      PushControl(ShortCircuit);
      ghost var s2 := Now();
      AdvanceNothing(s2);
      for i := 1 to |node.operands|
        invariant Valid() && Advance(s2, Now(), OperandEffect(node.operands[..i]))
      {
        ghost var before := Now();
        assert node.operands[..i + 1][..i] == node.operands[..i];
        Visit(node.operands[i]);
        Compose(s2, before, Now(), OperandEffect(node.operands[..i]), EffectOf(node.operands[i]));
      }
      assert node.operands[..|node.operands|] == node.operands;
      PopControl(s1, ShortCircuit, OperandEffect(node.operands));
      Compose(s0, s1, Now(), EffectOf(node.operands[0]), OperandEffect(node.operands).Under(ShortCircuit));
    }

    method VisitLoop(node: Node)
      requires Valid() && node.Loop?
      modifies this
      ensures Valid() && Advance(old(Now()), Now(), EffectOf(node))
      decreases node, 0
    {
      hide Consistent, Advance, WithBinding, Effect.Then, Effect.Under, Effect.Inside, EffectOfAll, TargetEffect;
      ghost var s0 := Now();
      Visit(node.iter);
      ghost var s1 := Now();
      PushControl(node.control);
      ghost var s2 := Now();
      VisitTarget(node.target, ForTarget, None, true, true);
      ghost var s3 := Now();
      VisitAll(node.body);
      ghost var s4 := Now();
      VisitAll(node.orelse);
      ghost var e1, e2, e3, e4 :=
        EffectOf(node.iter), TargetEffect(node.target, Dynamic(ForTarget)), EffectOfAll(node.body),
          EffectOfAll(node.orelse);
      Compose(s2, s3, s4, e2, e3);
      Compose(s2, s4, Now(), e2.Then(e3), e4);
      PopControl(s1, node.control, e2.Then(e3).Then(e4));
      Compose(s0, s1, Now(), e1, e2.Then(e3).Then(e4).Under(node.control));
    }

    method VisitManager(item: WithItem)
      requires Valid()
      modifies this
      ensures Valid() && Advance(old(Now()), Now(), ManagerEffect(item))
      decreases item
    {
      Visit(item.manager);
    }

    method VisitVars(item: WithItem)
      requires Valid()
      modifies this
      ensures Valid() && Advance(old(Now()), Now(), VarsEffect(item))
      decreases item
    {
      hide Consistent, Advance, WithBinding, Effect.Then, Effect.Under, Effect.Inside;
      match item.vars {
        case None => AdvanceNothing(Now());
        case Some(target) => VisitTarget(target, WithTarget, None, true, true);
      }
    }

    method VisitManagers(items: seq<WithItem>)
      requires Valid()
      modifies this
      ensures Valid() && Advance(old(Now()), Now(), ItemManagers(items))
      decreases items
    {
      hide Consistent, Advance, WithBinding, Effect.Then, Effect.Under, Effect.Inside;
      ghost var start := Now();
      AdvanceNothing(start);
      for i := 0 to |items|
        invariant Valid() && Advance(start, Now(), ItemManagers(items[..i]))
      {
        ghost var before := Now();
        assert items[..i + 1][..i] == items[..i];
        VisitManager(items[i]);
        Compose(start, before, Now(), ItemManagers(items[..i]), ManagerEffect(items[i]));
      }
      assert items[..|items|] == items;
    }

    method VisitItemTargets(items: seq<WithItem>)
      requires Valid()
      modifies this
      ensures Valid() && Advance(old(Now()), Now(), ItemTargets(items))
      decreases items
    {
      hide Consistent, Advance, WithBinding, Effect.Then, Effect.Under, Effect.Inside;
      ghost var start := Now();
      AdvanceNothing(start);
      for i := 0 to |items|
        invariant Valid() && Advance(start, Now(), ItemTargets(items[..i]))
      {
        ghost var before := Now();
        assert items[..i + 1][..i] == items[..i];
        VisitVars(items[i]);
        Compose(start, before, Now(), ItemTargets(items[..i]), VarsEffect(items[i]));
      }
      assert items[..|items|] == items;
    }

    /** Managers are evaluated before the block; targets and body are under the control keyword. */
    method VisitWith(node: Node)
      requires Valid() && node.With?
      modifies this
      ensures Valid() && Advance(old(Now()), Now(), EffectOf(node))
      decreases node, 0
    {
      hide Consistent, Advance, WithBinding, Effect.Then, Effect.Under, Effect.Inside, EffectOfAll, TargetEffect;
      ghost var s0 := Now();
      VisitManagers(node.items);
      ghost var s1 := Now();
      PushControl(node.control);
      ghost var s2 := Now();
      VisitItemTargets(node.items);
      ghost var s3 := Now();
      VisitAll(node.body);
      ghost var e1, e2, e3 := ItemManagers(node.items), ItemTargets(node.items), EffectOfAll(node.body);
      Compose(s2, s3, Now(), e2, e3);
      PopControl(s1, node.control, e2.Then(e3));
      Compose(s0, s1, Now(), e1, e2.Then(e3).Under(node.control));
    }

    method VisitTry(node: Node)
      requires Valid() && node.Try?
      modifies this
      ensures Valid() && Advance(old(Now()), Now(), EffectOf(node))
      decreases node, 0
    {
      hide Consistent, Advance, WithBinding, Effect.Then, Effect.Under, Effect.Inside, EffectOfAll, TargetEffect;
      ghost var s0 := Now();
      PushControl(TryControl);
      ghost var s1 := Now();
      VisitAll(node.body);
      ghost var s2 := Now();
      VisitAll(node.handlers);
      ghost var s3 := Now();
      VisitAll(node.orelse);
      ghost var e1, e2, e3 := EffectOfAll(node.body), EffectOfAll(node.handlers), EffectOfAll(node.orelse);
      Compose(s1, s2, s3, e1, e2);
      Compose(s1, s3, Now(), e1.Then(e2), e3);
      PopControl(s0, TryControl, e1.Then(e2).Then(e3));
    }

    method VisitHandler(node: Node)
      requires Valid() && node.ExceptHandler?
      modifies this
      ensures Valid() && Advance(old(Now()), Now(), EffectOf(node))
      decreases node, 0
    {
      hide Consistent, Advance, WithBinding, Effect.Then, Effect.Under, Effect.Inside, EffectOfAll, TargetEffect;
      ghost var s0 := Now();
      VisitOption(node.caught);
      ghost var s1 := Now();
      ghost var e2 := NOTHING;
      AdvanceNothing(s1);
      if node.bound.Some? {
        Basics(s1);
        RecordBinding(node.bound.value, ExceptTarget, None, true, true, None, node.pos);
        e2 := Bind(node.bound.value, Dynamic(ExceptTarget), node.pos);
      }
      ghost var s2 := Now();
      VisitAll(node.body);
      Compose(s0, s1, s2, EffectOfOption(node.caught), e2);
      Compose(s0, s2, Now(), EffectOfOption(node.caught).Then(e2), EffectOfAll(node.body));
    }

    method VisitCase(c: MatchCase)
      requires Valid()
      modifies this
      ensures Valid() && Advance(old(Now()), Now(), CaseOne(c))
      decreases c
    {
      hide Consistent, Advance, WithBinding, Effect.Then, Effect.Under, Effect.Inside;
      ghost var start, how := Now(), Dynamic(PatternCapture);
      AdvanceNothing(start);
      for i := 0 to |c.captures|
        invariant Valid() && Advance(start, Now(), BindAll(c.captures[..i], how))
      {
        ghost var before := Now();
        assert c.captures[..i + 1][..i] == c.captures[..i];
        Basics(before);
        RecordBinding(c.captures[i].0, PatternCapture, None, true, true, None, c.captures[i].1);
        Compose(start, before, Now(), BindAll(c.captures[..i], how), Bind(c.captures[i].0, how, c.captures[i].1));
      }
      assert c.captures[..|c.captures|] == c.captures;
      ghost var s1 := Now();
      VisitOption(c.guard);
      ghost var s2 := Now();
      VisitAll(c.body);
      ghost var e1, e2 := BindAll(c.captures, how), EffectOfOption(c.guard);
      Compose(start, s1, s2, e1, e2);
      Compose(start, s2, Now(), e1.Then(e2), EffectOfAll(c.body));
    }

    method VisitCases(cases: seq<MatchCase>)
      requires Valid()
      modifies this
      ensures Valid() && Advance(old(Now()), Now(), CaseEffect(cases))
      decreases cases
    {
      hide Consistent, Advance, WithBinding, Effect.Then, Effect.Under, Effect.Inside;
      ghost var start := Now();
      AdvanceNothing(start);
      for i := 0 to |cases|
        invariant Valid() && Advance(start, Now(), CaseEffect(cases[..i]))
      {
        ghost var before := Now();
        var c := cases[i];
        assert cases[..i + 1][..i] == cases[..i];
        VisitCase(c);
        Compose(start, before, Now(), CaseEffect(cases[..i]), CaseOne(c));
      }
      assert cases[..|cases|] == cases;
    }

    method VisitMatch(node: Node)
      requires Valid() && node.Match?
      modifies this
      ensures Valid() && Advance(old(Now()), Now(), EffectOf(node))
      decreases node, 0
    {
      hide Consistent, Advance, WithBinding, Effect.Then, Effect.Under, Effect.Inside, EffectOfAll, TargetEffect;
      ghost var s0 := Now();
      Visit(node.subject);
      ghost var s1 := Now();
      PushControl(MatchControl);
      VisitCases(node.cases);
      PopControl(s1, MatchControl, CaseEffect(node.cases));
      Compose(s0, s1, Now(), EffectOf(node.subject), CaseEffect(node.cases).Under(MatchControl));
    }

    method VisitAssign(node: Node)
      requires Valid() && node.Assign?
      modifies this
      ensures Valid() && Advance(old(Now()), Now(), EffectOf(node))
      decreases node, 0
    {
      hide Consistent, Advance, WithBinding, Effect.Then, Effect.Under, Effect.Inside;
      ghost var s0 := Now();
      Visit(node.value);
      ghost var s1 := Now();
      var value := ExpressionName(node.value);
      VisitTargets(node.targets, Assignment, value, value == None, true);
      Compose(s0, s1, Now(), EffectOf(node.value), TargetsEffect(node.targets, Assigned(Assignment, node.value)));
    }

    method VisitAnnAssign(node: Node)
      requires Valid() && node.AnnAssign?
      modifies this
      ensures Valid() && Advance(old(Now()), Now(), EffectOf(node))
      decreases node, 0
    {
      hide Consistent, Advance, WithBinding, Effect.Then, Effect.Under, Effect.Inside;
      ghost var s0 := Now();
      Visit(node.annotation);
      ghost var s1 := Now();
      VisitOption(node.initial);
      ghost var s2 := Now();
      var value := if node.initial.Some? then ExpressionName(node.initial.value) else None;
      var kind := if node.initial.Some? then AnnotatedAssignment else Annotation;
      VisitTarget(node.target, kind, value, value == None, node.initial.Some?);
      Compose(s0, s1, s2, EffectOf(node.annotation), EffectOfOption(node.initial));
      Compose(s0, s2, Now(), EffectOf(node.annotation).Then(EffectOfOption(node.initial)),
              TargetEffect(node.target, Bound(kind, value, value == None, node.initial.Some?, false)));
    }

    method VisitAugAssign(node: Node)
      requires Valid() && node.AugAssign?
      modifies this
      ensures Valid() && Advance(old(Now()), Now(), EffectOf(node))
      decreases node, 0
    {
      hide Consistent, Advance, WithBinding, Effect.Then, Effect.Under, Effect.Inside;
      ghost var s0 := Now();
      Visit(node.target);
      ghost var s1 := Now();
      Visit(node.value);
      ghost var s2 := Now();
      RecordTargets(node.target, AugmentedAssignment, None, true, true);
      Compose(s0, s1, s2, EffectOf(node.target), EffectOf(node.value));
      Compose(s0, s2, Now(), EffectOf(node.target).Then(EffectOf(node.value)),
              BindTargets(node.target, Dynamic(AugmentedAssignment)));
    }

    method VisitNamedExpr(node: Node)
      requires Valid() && node.NamedExpr?
      modifies this
      ensures Valid() && Advance(old(Now()), Now(), EffectOf(node))
      decreases node, 0
    {
      hide Consistent, Advance, WithBinding, Effect.Then, Effect.Under, Effect.Inside;
      ghost var s0 := Now();
      Visit(node.value);
      ghost var s1 := Now();
      var value := ExpressionName(node.value);
      RecordTargets(node.target, NamedExpression, value, value == None, true);
      Compose(s0, s1, Now(), EffectOf(node.value), BindTargets(node.target, Assigned(NamedExpression, node.value)));
    }

    method Visit(node: Node)
      requires Valid()
      modifies this
      ensures Valid() && Advance(old(Now()), Now(), EffectOf(node))
      decreases node, 1
    {
      hide Consistent, Advance, WithBinding, Effect.Then, Effect.Under, Effect.Inside;
      AdvanceNothing(Now());
      match node {
        case Name(_, _) =>
        case Attribute(value, _) => Visit(value);
        case Display(elements) => VisitAll(elements);
        case Starred(inner) => Visit(inner);
        case CallExpr(_, _, _) => VisitCall(node);
        case LambdaExpr(_, _, _) => VisitLambda(node);
        case Comprehension(_, _, _, _) => VisitComprehension(node);
        case IfExp(_, _, _) => VisitIfExp(node);
        case BoolOp(_) => VisitBoolOp(node);
        case NamedExpr(_, _) => VisitNamedExpr(node);
        case ClassDef(_, _, _, _, _, _) => VisitClass(node);
        case FunctionDef(_, _, _, _, _, _, _) => VisitFunction(node);
        case Import(_, _) => VisitImport(node);
        case ImportFrom(_, _, _, _) => VisitImportFrom(node);
        case GlobalStmt(_) =>
        case NonlocalStmt(_) =>
        case Assign(_, _) => VisitAssign(node);
        case AnnAssign(_, _, _) => VisitAnnAssign(node);
        case AugAssign(_, _) => VisitAugAssign(node);
        case DeleteStmt(targets) => VisitTargets(targets, Delete, None, true, false);
        case Branch(_, _, _, _) => VisitBranch(node);
        case Loop(_, _, _, _, _) => VisitLoop(node);
        case With(_, _, _) => VisitWith(node);
        case Try(_, _, _) => VisitTry(node);
        case ExceptHandler(_, _, _, _) => VisitHandler(node);
        case Match(_, _) => VisitMatch(node);
        case Other(children) => VisitAll(children);
      }
    }

    /** Copies each scope's local names into its record. */
    method Finish()
      requires Valid()
      modifies this`scopes
      ensures Completed(old(Now()), scopes)
    {
      var i := 0;
      while i < |scopes|
        invariant 0 <= i <= |scopes| == |old(scopes)|
        invariant forall j :: 0 <= j < i ==> scopes[j] == old(scopes[j]).(locals := old(LocalsOf(Now(), scopes[j].id)))
        invariant forall j :: i <= j < |scopes| ==> scopes[j] == old(scopes[j])
      {
        assert scopes[i].id in localNames;
        scopes := scopes[i := scopes[i].(locals := localNames[scopes[i].id])];
        i := i + 1;
      }
    }

    /**
     * Visiting a module: both stacks come back, and every fact is the one the syntax determines - with the local names
     * of each scope - in a tree of scopes rooted at `<module>`.
     */
    method VisitModule(body: seq<Node>)
      requires Valid() && Now() == START
      modifies this
      ensures stack == START.stack && control == []
      ensures FactsOf(scopes, bindings, calls, imports, EffectOfAll(body))
      ensures ScopeTree(scopes)
      ensures forall i :: 0 <= i < |scopes| ==> (scopes[i].lookupParent == None <==> i == 0)
      ensures forall scope, name :: scope in scopes ==>
        (name in scope.locals <==> BoundLocally(bindings, scope.id, name))
    {
      hide Consistent, Advance, BoundLocally, ScopeTree, FactsOf, Completed;
      VisitAll(body);
      ghost var done := Now();
      StacksKept(START, done, EffectOfAll(body));
      Finish();
      Finished(done, scopes, EffectOfAll(body));
      FinishedRecords(done, scopes);
    }
  }
}
