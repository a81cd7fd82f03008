/** The Python syntax the structural probe distinguishes, and what it declares and binds. */
module PythonAst {
  import opened Common
  import opened ProbeFacts

  datatype Alias = Alias(path: Dotted, asName: Option<string>)

  datatype FromAlias = FromAlias(name: string, asName: Option<string>)

  datatype Param = Param(name: string, annotation: Option<Node>, pos: Position)

  /** Default expressions, and the parameters in the order they are recorded. */
  datatype Parameters = Parameters(defaults: seq<Node>, params: seq<Param>)

  datatype Generator = Generator(target: Node, iter: Node, conditions: seq<Node>)

  datatype WithItem = WithItem(manager: Node, vars: Option<Node>)

  /** One `case`: the names its pattern captures, each once, then its guard and body. */
  datatype MatchCase = MatchCase(captures: seq<(string, Position)>, guard: Option<Node>, body: seq<Node>)

  datatype Node =
    // expressions
    | Name(id: string, pos: Position)
    | Attribute(value: Node, attr: string)
    | Display(elements: seq<Node>)                                  // tuple or list
    | Starred(inner: Node)
    | CallExpr(func: Node, arguments: seq<Node>, pos: Position)
    | LambdaExpr(parameters: Parameters, lambdaBody: Node, pos: Position)
    | Comprehension(shape: string, generators: seq<Generator>, values: seq<Node>, pos: Position)
    | IfExp(test: Node, body1: Node, orelse1: Node)
    | BoolOp(operands: seq<Node>)
    | NamedExpr(target: Node, value: Node)
    // statements
    | ClassDef(name: string, decorators: seq<Node>, bases: seq<Node>, keywords: seq<Node>, body: seq<Node>,
               pos: Position)
    | FunctionDef(isAsync: bool, name: string, decorators: seq<Node>, parameters: Parameters, returned: Option<Node>,
                  body: seq<Node>, pos: Position)
    | Import(aliases: seq<Alias>, pos: Position)
    | ImportFrom(base: Option<Dotted>, level: nat, fromAliases: seq<FromAlias>, pos: Position)
    | GlobalStmt(names: set<string>)
    | NonlocalStmt(names: set<string>)
    | Assign(targets: seq<Node>, value: Node)
    | AnnAssign(target: Node, annotation: Node, initial: Option<Node>)
    | AugAssign(target: Node, value: Node)
    | DeleteStmt(targets: seq<Node>)
    | Branch(control: Control, test: Node, body: seq<Node>, orelse: seq<Node>)              // if, while
    | Loop(control: Control, target: Node, iter: Node, body: seq<Node>, orelse: seq<Node>)  // for, async for
    | With(control: Control, items: seq<WithItem>, body: seq<Node>)                         // with, async with
    | Try(body: seq<Node>, handlers: seq<Node>, orelse: seq<Node>)                          // orelse, then finally
    | ExceptHandler(caught: Option<Node>, bound: Option<string>, body: seq<Node>, pos: Position)
    | Match(subject: Node, cases: seq<MatchCase>)
    // every other node is visited child by child
    | Other(children: seq<Node>)

  /** A dotted name, if the expression is one. */
  function ExpressionName(node: Node): Option<Dotted> {
    match node
    case Name(id, _) => Some([id])
    case Attribute(value, attr) =>
      (match ExpressionName(value)
       case Some(path) => Some(path + [attr])
       case None => None)
    case _ => None
  }

  /** The names an assignment target binds, left to right. */
  function BindingTargets(node: Node): seq<(string, Position)> {
    match node
    case Name(id, pos) => [(id, pos)]
    case Display(elements) => TargetsOfAll(elements)
    case Starred(inner) => BindingTargets(inner)
    case _ => []
  }

  function TargetsOfAll(nodes: seq<Node>): seq<(string, Position)> {
    if nodes == [] then []
    else TargetsOfAll(nodes[..|nodes| - 1]) + BindingTargets(nodes[|nodes| - 1])
  }

  /** The `global` (or `nonlocal`) names of a block, functions, lambdas and classes inside it excluded. */
  function Declared(nodes: seq<Node>, global_: bool): set<string> {
    if nodes == [] then {}
    else Declared(nodes[..|nodes| - 1], global_) + DeclaredBy(nodes[|nodes| - 1], global_)
  }

  function DeclaredBy(node: Node, global_: bool): set<string> {
    match node
    case GlobalStmt(names) => if global_ then names else {}
    case NonlocalStmt(names) => if global_ then {} else names
    case Branch(_, _, body, orelse) => Declared(body, global_) + Declared(orelse, global_)
    case Loop(_, _, _, body, orelse) => Declared(body, global_) + Declared(orelse, global_)
    case With(_, _, body) => Declared(body, global_)
    case Try(body, handlers, orelse) =>
      Declared(body, global_) + Declared(handlers, global_) + Declared(orelse, global_)
    case ExceptHandler(_, _, body, _) => Declared(body, global_)
    case Match(_, cases) => DeclaredInCases(cases, global_)
    case Other(children) => Declared(children, global_)
    case _ => {}
  }

  function DeclaredInCases(cases: seq<MatchCase>, global_: bool): set<string> {
    if cases == [] then {}
    else DeclaredInCases(cases[..|cases| - 1], global_) + Declared(cases[|cases| - 1].body, global_)
  }

  // ----- what a piece of syntax contributes, read off the syntax alone -----

  /**
   * Where a record sits, seen from a piece of syntax: 0 is the scope around it, `k + 1` the k-th scope inside it. A
   * scope fact names the scope around it the same way, and its locals are the names bound in it as such.
   */
  datatype ScopeFact = ScopeFact(around: nat, kind: ScopeKind, name: string, globals: set<string>,
                                 nonlocals: set<string>, locals: set<string>)

  /** How a name is bound; `defines` when the record points at the definition itself. */
  datatype Bound = Bound(kind: BindingKind, value: Option<Dotted>, dynamic: bool, runtime: bool, defines: bool)

  /** The control keywords are the ones between the piece of syntax and the record. */
  datatype BindingFact = BindingFact(place: nat, name: string, how: Bound, control: seq<Control>, pos: Position)

  datatype CallFact = CallFact(place: nat, callee: Option<Dotted>, control: seq<Control>, pos: Position)

  /** The scope of `fact` is left to its place. */
  datatype ImportNote = ImportNote(place: nat, fact: ImportFact)

  function Moved(place: nat, scopes: nat): nat { if place == 0 then 0 else place + scopes }

  function ScopesMoved(s: seq<ScopeFact>, n: nat): (r: seq<ScopeFact>)
    ensures |r| == |s|
  {
    seq(|s|, i requires 0 <= i < |s| => s[i].(around := Moved(s[i].around, n)))
  }

  function BindingsMoved(s: seq<BindingFact>, n: nat): (r: seq<BindingFact>)
    ensures |r| == |s|
  {
    seq(|s|, i requires 0 <= i < |s| => s[i].(place := Moved(s[i].place, n)))
  }

  function CallsMoved(s: seq<CallFact>, n: nat): (r: seq<CallFact>)
    ensures |r| == |s|
  {
    seq(|s|, i requires 0 <= i < |s| => s[i].(place := Moved(s[i].place, n)))
  }

  function ImportsMoved(s: seq<ImportNote>, n: nat): (r: seq<ImportNote>)
    ensures |r| == |s|
  {
    seq(|s|, i requires 0 <= i < |s| => s[i].(place := Moved(s[i].place, n)))
  }

  /** Names bound in the enclosing scope; and, in textual order, nested scopes, binding records, calls and imports. */
  datatype Effect = Effect(
    names: set<string>,
    scopes: seq<ScopeFact>,
    bindings: seq<BindingFact>,
    calls: seq<CallFact>,
    imports: seq<ImportNote>)
  {
    function Then(next: Effect): Effect {
      var n := |scopes|;
      Effect(names + next.names, scopes + ScopesMoved(next.scopes, n), bindings + BindingsMoved(next.bindings, n),
             calls + CallsMoved(next.calls, n), imports + ImportsMoved(next.imports, n))
    }

    /** The effect under a control keyword. */
    function Under(k: Control): Effect {
      Effect(names, scopes,
             seq(|bindings|, i requires 0 <= i < |bindings| => bindings[i].(control := [k] + bindings[i].control)),
             seq(|calls|, i requires 0 <= i < |calls| => calls[i].(control := [k] + calls[i].control)), imports)
    }

    /** The effect of a nested scope on the scope around it. */
    function Inside(kind: ScopeKind, name: string, globals: set<string>, nonlocals: set<string>): Effect {
      Effect({}, [ScopeFact(0, kind, name, globals, nonlocals, names - globals - nonlocals)]
                   + seq(|scopes|, i requires 0 <= i < |scopes| => scopes[i].(around := scopes[i].around + 1)),
             seq(|bindings|, i requires 0 <= i < |bindings| => bindings[i].(place := bindings[i].place + 1)),
             seq(|calls|, i requires 0 <= i < |calls| => calls[i].(place := calls[i].place + 1)),
             seq(|imports|, i requires 0 <= i < |imports| => imports[i].(place := imports[i].place + 1)))
    }
  }

  const NOTHING := Effect({}, [], [], [], [])

  function Bind(name: string, how: Bound, pos: Position): Effect {
    Effect({name}, [], [BindingFact(0, name, how, [], pos)], [], [])
  }

  /** Bound to something the probe does not follow. */
  function Dynamic(kind: BindingKind): Bound { Bound(kind, None, true, true, false) }

  /** Bound to the function or class defined here. */
  function Defined(kind: BindingKind): Bound { Bound(kind, None, false, true, true) }

  /** Bound to an expression, whose name is its value if it has one. */
  function Assigned(kind: BindingKind, value: Node): Bound {
    Bound(kind, ExpressionName(value), ExpressionName(value).None?, true, false)
  }

  function BindAll(names: seq<(string, Position)>, how: Bound): Effect {
    if names == [] then NOTHING
    else BindAll(names[..|names| - 1], how).Then(Bind(names[|names| - 1].0, how, names[|names| - 1].1))
  }

  /** Only a single name can be bound to the value; several names share out its parts. */
  function Shared(names: seq<(string, Position)>, how: Bound): Bound {
    if |names| == 1 then how else how.(value := None, dynamic := true)
  }

  function BindTargets(target: Node, how: Bound): Effect {
    BindAll(BindingTargets(target), Shared(BindingTargets(target), how))
  }

  function Imports(fact: ImportFact): Effect { NOTHING.(imports := [ImportNote(0, fact)]) }

  function Calls(callee: Option<Dotted>, pos: Position): Effect { NOTHING.(calls := [CallFact(0, callee, [], pos)]) }

  function EffectOfAll(nodes: seq<Node>): Effect {
    if nodes == [] then NOTHING
    else EffectOfAll(nodes[..|nodes| - 1]).Then(EffectOf(nodes[|nodes| - 1]))
  }

  function EffectOfOption(node: Option<Node>): Effect {
    match node
    case None => NOTHING
    case Some(n) => EffectOf(n)
  }

  function AnnotationEffect(params: seq<Param>): Effect {
    if params == [] then NOTHING
    else AnnotationEffect(params[..|params| - 1]).Then(EffectOfOption(params[|params| - 1].annotation))
  }

  /** Defaults and annotations are evaluated around the function, not in it. */
  function ParameterEffect(p: Parameters): Effect {
    EffectOfAll(p.defaults).Then(AnnotationEffect(p.params))
  }

  function ParamNames(params: seq<Param>): Effect {
    if params == [] then NOTHING
    else
      var last := params[|params| - 1];
      ParamNames(params[..|params| - 1]).Then(Bind(last.name, Dynamic(Parameter), last.pos))
  }

  /** Assigning to several targets in turn: each is visited, then bound. */
  function TargetsEffect(targets: seq<Node>, how: Bound): Effect {
    if targets == [] then NOTHING
    else TargetsEffect(targets[..|targets| - 1], how).Then(TargetEffect(targets[|targets| - 1], how))
  }

  function TargetEffect(target: Node, how: Bound): Effect
    decreases target, 2
  {
    EffectOf(target).Then(BindTargets(target, how))
  }

  function AliasName(alias: Alias): string {
    if alias.asName.Some? then alias.asName.value else alias.path[0]
  }

  /** One `import` clause: the import, then the name it binds. */
  function AliasOne(alias: Alias, pos: Position): Effect {
    Imports(PlainImport(alias.path, alias.asName, ModuleId, pos))
      .Then(Bind(AliasName(alias), Bound(ImportBinding, Some(alias.path), false, true, false), pos))
  }

  function AliasEffect(aliases: seq<Alias>, pos: Position): Effect {
    if aliases == [] then NOTHING
    else AliasEffect(aliases[..|aliases| - 1], pos).Then(AliasOne(aliases[|aliases| - 1], pos))
  }

  /** One `from` clause; `from m import *` is an import that binds nothing. */
  function FromAliasOne(base: Option<Dotted>, level: nat, alias: FromAlias, pos: Position): Effect {
    var noted := Imports(FromImport(base, level, alias.name, alias.asName, ModuleId, pos));
    if alias.name == "*" then noted
    else noted.Then(Bind(if alias.asName.Some? then alias.asName.value else alias.name,
                         Bound(ImportBinding, None, false, true, false), pos))
  }

  function FromAliasEffect(base: Option<Dotted>, level: nat, aliases: seq<FromAlias>, pos: Position): Effect {
    if aliases == [] then NOTHING
    else
      FromAliasEffect(base, level, aliases[..|aliases| - 1], pos)
        .Then(FromAliasOne(base, level, aliases[|aliases| - 1], pos))
  }

  function ManagerEffect(item: WithItem): Effect { EffectOf(item.manager) }

  function VarsEffect(item: WithItem): Effect {
    match item.vars
    case None => NOTHING
    case Some(target) => TargetEffect(target, Dynamic(WithTarget))
  }

  function ItemManagers(items: seq<WithItem>): Effect {
    if items == [] then NOTHING
    else ItemManagers(items[..|items| - 1]).Then(ManagerEffect(items[|items| - 1]))
  }

  function ItemTargets(items: seq<WithItem>): Effect {
    if items == [] then NOTHING
    else ItemTargets(items[..|items| - 1]).Then(VarsEffect(items[|items| - 1]))
  }

  function CaseOne(c: MatchCase): Effect {
    BindAll(c.captures, Dynamic(PatternCapture)).Then(EffectOfOption(c.guard)).Then(EffectOfAll(c.body))
  }

  function CaseEffect(cases: seq<MatchCase>): Effect {
    if cases == [] then NOTHING
    else CaseEffect(cases[..|cases| - 1]).Then(CaseOne(cases[|cases| - 1]))
  }

  function FirstGenerator(g: Generator): Effect {
    TargetEffect(g.target, Dynamic(ComprehensionTarget)).Then(EffectOfAll(g.conditions))
  }

  function LaterGenerator(g: Generator): Effect {
    EffectOf(g.iter).Then(TargetEffect(g.target, Dynamic(ComprehensionTarget))).Then(EffectOfAll(g.conditions))
  }

  /** The generators after the first. */
  function GeneratorEffect(generators: seq<Generator>): Effect {
    if |generators| <= 1 then NOTHING
    else GeneratorEffect(generators[..|generators| - 1]).Then(LaterGenerator(generators[|generators| - 1]))
  }

  /** The operands after the first. */
  function OperandEffect(operands: seq<Node>): Effect {
    if |operands| <= 1 then NOTHING
    else OperandEffect(operands[..|operands| - 1]).Then(EffectOf(operands[|operands| - 1]))
  }

  /** What a class definition does around the class. */
  function ClassHead(node: Node): Effect
    requires node.ClassDef?
    decreases node, 0
  {
    Bind(node.name, Defined(ClassBinding), node.pos)
      .Then(EffectOfAll(node.decorators)).Then(EffectOfAll(node.bases)).Then(EffectOfAll(node.keywords))
  }

  /** What a function definition does around the function. */
  function FunctionHead(node: Node): Effect
    requires node.FunctionDef?
    decreases node, 0
  {
    Bind(node.name, Defined(if node.isAsync then AsyncFunctionBinding else FunctionBinding), node.pos)
      .Then(EffectOfAll(node.decorators)).Then(ParameterEffect(node.parameters)).Then(EffectOfOption(node.returned))
  }

  /** And inside it. */
  function FunctionBody(node: Node): Effect
    requires node.FunctionDef?
    decreases node, 0
  {
    ParamNames(node.parameters.params).Then(EffectOfAll(node.body))
      .Inside(if node.isAsync then AsyncFunctionKind else FunctionKind, node.name, Declared(node.body, true),
              Declared(node.body, false))
  }

  function EffectOf(node: Node): Effect
    decreases node, 1
  {
    match node
    case Name(_, _) => NOTHING
    case Attribute(value, _) => EffectOf(value)
    case Display(elements) => EffectOfAll(elements)
    case Starred(inner) => EffectOf(inner)
    case CallExpr(func, arguments, pos) =>
      Calls(ExpressionName(func), pos).Then(EffectOf(func)).Then(EffectOfAll(arguments))
    case LambdaExpr(parameters, result, _) =>
      ParameterEffect(parameters).Then(ParamNames(parameters.params).Then(EffectOf(result)).Inside(LambdaKind,
          "<lambda>", {}, {}))
    case Comprehension(shape, generators, values, _) =>
      if generators == [] then EffectOfAll(values)
      else
        EffectOf(generators[0].iter).Then(
          FirstGenerator(generators[0]).Then(GeneratorEffect(generators)).Then(EffectOfAll(values))
            .Under(ComprehensionControl).Inside(ComprehensionKind, shape, {}, {}))
    case IfExp(test, body, orelse) => EffectOf(test).Then(EffectOf(body).Then(EffectOf(orelse)).Under(ExpressionBranch))
    case BoolOp(operands) =>
      if operands == [] then NOTHING else EffectOf(operands[0]).Then(OperandEffect(operands).Under(ShortCircuit))
    case NamedExpr(target, value) => EffectOf(value).Then(BindTargets(target, Assigned(NamedExpression, value)))
    case ClassDef(name, _, _, _, body, _) =>
      ClassHead(node).Then(EffectOfAll(body).Inside(ClassKind, name, Declared(body, true), Declared(body, false)))
    case FunctionDef(_, _, _, _, _, _, _) => FunctionHead(node).Then(FunctionBody(node))
    case Import(aliases, pos) => AliasEffect(aliases, pos)
    case ImportFrom(base, level, aliases, pos) => FromAliasEffect(base, level, aliases, pos)
    case GlobalStmt(_) => NOTHING
    case NonlocalStmt(_) => NOTHING
    case Assign(targets, value) => EffectOf(value).Then(TargetsEffect(targets, Assigned(Assignment, value)))
    case AnnAssign(target, annotation, initial) =>
      EffectOf(annotation).Then(EffectOfOption(initial))
        .Then(TargetEffect(target,
                           if initial.Some? then Assigned(AnnotatedAssignment, initial.value)
                           else Bound(Annotation, None, true, false, false)))
    case AugAssign(target, value) =>
      EffectOf(target).Then(EffectOf(value)).Then(BindTargets(target, Dynamic(AugmentedAssignment)))
    case DeleteStmt(targets) => TargetsEffect(targets, Bound(Delete, None, true, false, false))
    case Branch(control, test, body, orelse) =>
      EffectOf(test).Then(EffectOfAll(body).Then(EffectOfAll(orelse)).Under(control))
    case Loop(control, target, iter, body, orelse) =>
      EffectOf(iter)
        .Then(TargetEffect(target, Dynamic(ForTarget)).Then(EffectOfAll(body)).Then(EffectOfAll(orelse)).Under(control))
    case With(control, items, body) =>
      ItemManagers(items).Then(ItemTargets(items).Then(EffectOfAll(body)).Under(control))
    case Try(body, handlers, orelse) =>
      EffectOfAll(body).Then(EffectOfAll(handlers)).Then(EffectOfAll(orelse)).Under(TryControl)
    case ExceptHandler(caught, bound, body, pos) =>
      EffectOfOption(caught).Then(if bound.Some? then Bind(bound.value, Dynamic(ExceptTarget), pos)
                                  else NOTHING).Then(EffectOfAll(body))
    case Match(subject, cases) => EffectOf(subject).Then(CaseEffect(cases).Under(MatchControl))
    case Other(children) => EffectOfAll(children)
  }
}
