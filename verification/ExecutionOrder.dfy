/**
 * The order in which a run of some syntax binds the names of a scope and reads the callees of its calls: chapters 6 to
 * 8 of the Python Language Reference. It is not the order of positions: a default runs before its function is bound, a
 * right-hand side before its targets, the test of a conditional expression before the value written in front of it.
 */
module ExecutionOrder {
  import opened Common
  import opened ProbeFacts
  import opened PythonAst

  /**
   * A binding of the scope takes effect, `since` bindings after its value was read; or the callee of a call is read.
   */
  datatype Act = Takes(binding: BindingFact, since: nat) | Reads(call: CallFact)

  type Trace = seq<Act>

  function TakesIn(t: Trace): nat {
    if t == [] then 0 else TakesIn(t[..|t| - 1]) + (if t[|t| - 1].Takes? then 1 else 0)
  }

  // ----- sets of traces -----

  ghost const STILL: iset<Trace> := iset{[]}

  ghost function One(a: Act): iset<Trace> { iset{[a]} }

  ghost function Then(a: iset<Trace>, b: iset<Trace>): iset<Trace> { iset x, y | x in a && y in b :: x + y }

  ghost function Maybe(a: iset<Trace>): iset<Trace> { a + STILL }

  /** Broken off anywhere: by an exception, `break`, `continue` or `return`. */
  ghost function Cut(a: iset<Trace>): iset<Trace> { iset x, n: nat | x in a && n <= |x| :: x[..n] }

  ghost function Power(a: iset<Trace>, n: nat): iset<Trace> { if n == 0 then STILL else Then(Power(a, n - 1), a) }

  /** Any number of rounds. */
  ghost function Rounds(a: iset<Trace>): iset<Trace> { iset n: nat, x | x in Power(a, n) :: x }

  function ActUnder(k: Control, a: Act): Act {
    match a
    case Takes(b, since) => Takes(b.(control := [k] + b.control), since)
    case Reads(c) => Reads(c.(control := [k] + c.control))
  }

  function TraceUnder(k: Control, t: Trace): (r: Trace)
    ensures |r| == |t|
  {
    seq(|t|, i requires 0 <= i < |t| => ActUnder(k, t[i]))
  }

  ghost function Under(k: Control, a: iset<Trace>): iset<Trace> { iset x | x in a :: TraceUnder(k, x) }

  // ----- binding targets -----

  /** A target is bound name by name; what else stands in it is evaluated on the way. */
  ghost function TargetActs(target: Node, how: Bound, since: nat): iset<Trace>
    decreases target, 2
  {
    match target
    case Name(id, pos) => One(Takes(BindingFact(0, id, how, [], pos), since))
    case Display(elements) => PartActs(elements, how, since)
    case Starred(inner) => TargetActs(inner, how, since)
    case _ => Acts(target)
  }

  ghost function PartActs(parts: seq<Node>, how: Bound, since: nat): iset<Trace>
    decreases parts, 2
  {
    if parts == [] then STILL
    else
      iset x, y | x in PartActs(parts[..|parts| - 1], how, since)
        && y in TargetActs(parts[|parts| - 1], how, since + TakesIn(x)) :: x + y
  }

  /** Several targets of one value, left to right; the value was read before the first. */
  ghost function AssignActs(targets: seq<Node>, how: Bound): iset<Trace>
    decreases targets, 2
  {
    if targets == [] then STILL
    else
      var last := targets[|targets| - 1];
      iset x, y | x in AssignActs(targets[..|targets| - 1], how)
                  && y in TargetActs(last, Shared(BindingTargets(last), how), TakesIn(x)) :: x + y
  }

  ghost function BindingActs(target: Node, how: Bound): iset<Trace>
    decreases target, 3
  {
    TargetActs(target, Shared(BindingTargets(target), how), 0)
  }

  function NameTakes(names: seq<(string, Position)>, how: Bound): Trace {
    if names == [] then []
    else
      var last := names[|names| - 1];
      NameTakes(names[..|names| - 1], how) + [Takes(BindingFact(0, last.0, how, [], last.1), 0)]
  }

  function ParamTakes(params: seq<Param>): Trace {
    if params == [] then []
    else
      var last := params[|params| - 1];
      ParamTakes(params[..|params| - 1]) + [Takes(BindingFact(0, last.name, Dynamic(Parameter), [], last.pos), 0)]
  }

  // ----- expressions and statements -----

  ghost function ActsAll(nodes: seq<Node>): iset<Trace> {
    if nodes == [] then STILL else Then(ActsAll(nodes[..|nodes| - 1]), Acts(nodes[|nodes| - 1]))
  }

  /** Each left out or broken off. */
  ghost function LooseActs(nodes: seq<Node>): iset<Trace> {
    if nodes == [] then STILL else Then(LooseActs(nodes[..|nodes| - 1]), Cut(Acts(nodes[|nodes| - 1])))
  }

  ghost function OptionActs(node: Option<Node>): iset<Trace> {
    match node
    case None => STILL
    case Some(n) => Acts(n)
  }

  ghost function AnnotationActs(params: seq<Param>): iset<Trace> {
    if params == [] then STILL
    else Then(AnnotationActs(params[..|params| - 1]), OptionActs(params[|params| - 1].annotation))
  }

  ghost function ParameterActs(p: Parameters): iset<Trace> { Then(ActsAll(p.defaults), AnnotationActs(p.params)) }

  /** The operands after the first, as many as are reached. */
  ghost function OperandActs(operands: seq<Node>): iset<Trace> {
    if |operands| <= 1 then STILL
    else Then(OperandActs(operands[..|operands| - 1]), Maybe(Acts(operands[|operands| - 1])))
  }

  /** A walrus inside a comprehension binds in the scope around it. */
  predicate Through(e: Effect, place: nat)
    decreases place
  {
    place == 0
    || (place <= |e.scopes| && e.scopes[place - 1].kind.ComprehensionKind? && e.scopes[place - 1].around < place
        && Through(e, e.scopes[place - 1].around))
  }

  /** The names that the comprehensions on the way have for themselves. */
  function Shadows(e: Effect, place: nat): set<string>
    decreases place
  {
    if place == 0 || place > |e.scopes| || e.scopes[place - 1].around >= place then {}
    else e.scopes[place - 1].locals + Shadows(e, e.scopes[place - 1].around)
  }

  /** How a walrus inside binds the name outside; a value that is read in the comprehension itself is not followed. */
  function StrayHow(e: Effect, g: BindingFact): Bound {
    if g.how.value.Some? && g.how.value.value[0] in Shadows(e, g.place) then Dynamic(NamedExpression) else g.how
  }

  ghost predicate Stray(e: Effect, a: Act) {
    exists g :: g in e.bindings && g.how.kind.NamedExpression? && g.place > 0 && Through(e, g.place)
                && a == Takes(BindingFact(0, g.name, StrayHow(e, g), [], g.pos), 0)
  }

  ghost predicate Strays(e: Effect, x: Trace) { forall a :: a in x ==> Stray(e, a) }

  ghost function StrayActs(e: Effect): iset<Trace> { iset x: Trace | Strays(e, x) }

  ghost function ImportActs(aliases: seq<Alias>, pos: Position): iset<Trace> {
    if aliases == [] then STILL
    else
      var last := aliases[|aliases| - 1];
      Then(ImportActs(aliases[..|aliases| - 1], pos),
           One(Takes(BindingFact(0, AliasName(last), Bound(ImportBinding, Some(last.path), false, true, false), [],
                                 pos), 0)))
  }

  ghost function FromActs(aliases: seq<FromAlias>, pos: Position): iset<Trace> {
    if aliases == [] then STILL
    else
      var last := aliases[|aliases| - 1];
      var name := if last.asName.Some? then last.asName.value else last.name;
      Then(FromActs(aliases[..|aliases| - 1], pos),
           if last.name == "*" then STILL
           else One(Takes(BindingFact(0, name, Bound(ImportBinding, None, false, true, false), [], pos), 0)))
  }

  /** One manager after the other, each entered and bound before the next is evaluated. */
  ghost function ItemActs(items: seq<WithItem>, control: Control): iset<Trace> {
    if items == [] then STILL else Then(ItemActs(items[..|items| - 1], control), OneItem(items[|items| - 1], control))
  }

  ghost function OneItem(item: WithItem, control: Control): iset<Trace> {
    Then(Acts(item.manager),
         match item.vars
         case None => STILL
         case Some(target) => Under(control, BindingActs(target, Dynamic(WithTarget))))
  }

  /** Captures, guard and body, as far as it comes. */
  ghost function OneCase(c: MatchCase): iset<Trace> {
    Cut(Then(Then(iset{NameTakes(c.captures, Dynamic(PatternCapture))}, OptionActs(c.guard)), ActsAll(c.body)))
  }

  ghost function CaseActs(cases: seq<MatchCase>): iset<Trace> {
    if cases == [] then STILL else Then(CaseActs(cases[..|cases| - 1]), OneCase(cases[|cases| - 1]))
  }

  ghost function FirstIter(g: Generator): iset<Trace> { Acts(g.iter) }

  /** The name is bound for the handler's body, and unbound behind it. */
  ghost function HandlerActs(bound: Option<string>, body: iset<Trace>, pos: Position): iset<Trace> {
    match bound
    case None => body
    case Some(name) =>
      Then(Then(One(Takes(BindingFact(0, name, Dynamic(ExceptTarget), [], pos), 0)), body),
           One(Takes(BindingFact(0, name, Bound(Delete, None, true, false, false), [], pos), 0)))
  }

  /**
   * What a run of the syntax does in its own scope; the bodies of functions, lambdas and classes are scopes of their
   * own.
   */
  ghost function Acts(node: Node): iset<Trace>
    decreases node, 1
  {
    match node
    case Name(_, _) => STILL
    case Attribute(value, _) => Acts(value)
    case Display(elements) => ActsAll(elements)
    case Starred(inner) => Acts(inner)
    case CallExpr(func, arguments, pos) =>
      Then(Then(One(Reads(CallFact(0, ExpressionName(func), [], pos))), Acts(func)), ActsAll(arguments))
    case LambdaExpr(parameters, _, _) => ParameterActs(parameters)
    case Comprehension(_, generators, values, _) =>
      if generators == [] then ActsAll(values) else Then(FirstIter(generators[0]), StrayActs(EffectOf(node)))
    case IfExp(test, body, orelse) => Then(Acts(test), Under(ExpressionBranch, Acts(body) + Acts(orelse)))
    case BoolOp(operands) =>
      if operands == [] then STILL else Then(Acts(operands[0]), Under(ShortCircuit, OperandActs(operands)))
    case NamedExpr(target, value) => Then(Acts(value), NamedActs(target, Assigned(NamedExpression, value)))
    case ClassDef(name, decorators, bases, keywords, _, pos) =>
      Then(Then(Then(ActsAll(decorators), ActsAll(bases)), ActsAll(keywords)),
           One(Takes(BindingFact(0, name, Defined(ClassBinding), [], pos), 0)))
    case FunctionDef(isAsync, name, decorators, parameters, returned, _, pos) =>
      Then(Then(Then(ActsAll(decorators), ParameterActs(parameters)), OptionActs(returned)),
           One(Takes(BindingFact(0, name, Defined(if isAsync then AsyncFunctionBinding else FunctionBinding), [], pos),
                     0)))
    case Import(aliases, pos) => ImportActs(aliases, pos)
    case ImportFrom(_, _, aliases, pos) => FromActs(aliases, pos)
    case GlobalStmt(_) => STILL
    case NonlocalStmt(_) => STILL
    case Assign(targets, value) => Then(Acts(value), AssignActs(targets, Assigned(Assignment, value)))
    case AnnAssign(target, annotation, initial) =>
      if initial.Some? then
        Then(Then(Acts(initial.value), BindingActs(target, Assigned(AnnotatedAssignment, initial.value))),
             Acts(annotation))
      else Then(Acts(target), Acts(annotation))
    case AugAssign(target, value) =>
      Then(Then(Acts(target), Acts(value)), NamedActs(target, Dynamic(AugmentedAssignment)))
    case DeleteStmt(targets) => AssignActs(targets, Bound(Delete, None, true, false, false))
    case Branch(control, test, body, orelse) =>
      if control.WhileControl? then
        Then(Then(Acts(test), Rounds(Then(Under(control, Cut(ActsAll(body))), Acts(test)))),
             Under(control, Maybe(Cut(ActsAll(body)) + ActsAll(orelse))))
      else Then(Acts(test), Under(control, ActsAll(body) + ActsAll(orelse)))
    case Loop(control, target, iter, body, orelse) =>
      Then(Acts(iter),
           Under(control,
                 Then(Rounds(Then(BindingActs(target, Dynamic(ForTarget)), Cut(ActsAll(body)))),
                      Maybe(ActsAll(orelse)))))
    case With(control, items, body) => Then(ItemActs(items, control), Under(control, Cut(ActsAll(body))))
    case Try(body, handlers, orelse) =>
      Under(TryControl, Then(Then(Cut(ActsAll(body)), LooseActs(handlers)), LooseActs(orelse)))
    case ExceptHandler(caught, bound, body, pos) => Then(OptionActs(caught), HandlerActs(bound, ActsAll(body), pos))
    case Match(subject, cases) => Then(Acts(subject), Under(MatchControl, CaseActs(cases)))
    case Other(children) => ActsAll(children)
  }

  /** The name of a walrus or of an augmented assignment; nothing for a target that is no name. */
  ghost function NamedActs(target: Node, how: Bound): iset<Trace> {
    iset{NameTakes(BindingTargets(target), Shared(BindingTargets(target), how))}
  }

  // ----- the code of a scope -----

  /** The code that runs in a scope. */
  datatype Code =
    | ModuleCode(body: seq<Node>)
    | FunctionCode(params: seq<Param>, body: seq<Node>)
    | LambdaCode(params: seq<Param>, result: Node)
    | ClassCode(body: seq<Node>)

  ghost function CodeActs(code: Code): iset<Trace> {
    match code
    case ModuleCode(body) => ActsAll(body)
    case FunctionCode(params, body) => Then(iset{ParamTakes(params)}, ActsAll(body))
    case LambdaCode(params, result) => Then(iset{ParamTakes(params)}, Acts(result))
    case ClassCode(body) => ActsAll(body)
  }

  /** A moment of a run of the code at which the callee of a call is read. */
  ghost predicate Reaches(code: Code, before: Trace, call: CallFact) {
    exists after: Trace :: before + [Reads(call)] + after in CodeActs(code)
  }
}
