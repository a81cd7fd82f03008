/** Activation expressions: values, truth and three-valued evaluation against an audit context. */
module Activation {
  import opened Common
  import opened Ordering

  /** The values a context or a literal can hold. */
  datatype Json =
    | Null
    | Bool(truth: bool)
    | Int(whole: int)
    | Float(number: real)
    | Str(text: string)
    | Arr(items: seq<Json>)
    | Obj(fields: map<string, Json>)

  type Context = map<string, Json>

  datatype Truth = False | Unknown | True

  datatype Comparator = Eq | Ne | Ge | Le | Gt | Lt | In | NotIn

  datatype Value = Reference(name: string) | Literal(value: Json) | ListLiteral(items: seq<Json>)

  datatype Connective = And | Or

  datatype Expr =
    | Constant(value: bool)
    | Compare(left: string, operator: Comparator, right: Value)
    | Join(connective: Connective, first: Expr, second: Expr)

  datatype EvaluationError = Incompatible | NotAList

  // ----- comparing values -----

  /** Numbers compare by value, and truth values are the numbers 0 and 1. */
  function Canon(v: Json): Json {
    match v
    case Bool(b) => Float(if b then 1.0 else 0.0)
    case Int(n) => Float(n as real)
    case Arr(items) => Arr(CanonAll(items))
    case Obj(fields) => Obj(map k | k in fields :: Canon(fields[k]))
    case _ => v
  }

  function CanonAll(items: seq<Json>): seq<Json> {
    if items == [] then [] else [Canon(items[0])] + CanonAll(items[1..])
  }

  predicate Same(a: Json, b: Json) { Canon(a) == Canon(b) }

  /** `a <= b`, or nothing when the two cannot be ordered; lists are ordered by their first difference. */
  function AtMost(a: Json, b: Json): Option<bool> {
    match (a, b)
    case (Float(x), Float(y)) => Some(x <= y)
    case (Str(x), Str(y)) => Some(TextLe(x, y))
    case (Arr(x), Arr(y)) => AllAtMost(x, y)
    case _ => None
  }

  function AllAtMost(x: seq<Json>, y: seq<Json>): Option<bool> {
    if x == [] then Some(true)
    else if y == [] then Some(false)
    else if x[0] == y[0] then AllAtMost(x[1..], y[1..])
    else AtMost(x[0], y[0])
  }

  function Ordered(operator: Comparator, a: Json, b: Json): Option<bool>
    requires operator in {Ge, Le, Gt, Lt}
  {
    var (x, y) := if operator in {Le, Gt} then (a, b) else (b, a);
    var order := AtMost(Canon(x), Canon(y));
    if order.None? then None else Some(if operator in {Le, Ge} then order.value else !order.value)
  }

  // ----- resolving references -----

  /** A reference to nothing, to null or to the text "unknown" is unresolved. */
  function Resolve(name: string, context: Context): Option<Json> {
    var value :=
      if name in context then Some(context[name])
      else if "declarations" in context && context["declarations"].Obj? && name in context["declarations"].fields
      then Some(context["declarations"].fields[name])
      else None;
    if value.None? || value.value == Null || value.value == Str("unknown") then None else value
  }

  function ResolveValue(v: Value, context: Context): Option<Json> {
    match v
    case Reference(name) => Resolve(name, context)
    case Literal(value) => Some(value)
    case ListLiteral(items) => Some(Arr(items))
  }

  function FromBool(b: bool): Truth { if b then True else False }

  function Apply(operator: Comparator, a: Json, b: Json): Result<Truth, EvaluationError> {
    match operator
    case Eq => Ok(FromBool(Same(a, b)))
    case Ne => Ok(FromBool(!Same(a, b)))
    case In =>
      if !b.Arr? then Err(NotAList) else Ok(FromBool(exists x | x in b.items :: Same(a, x)))
    case NotIn =>
      if !b.Arr? then Err(NotAList) else Ok(FromBool(!exists x | x in b.items :: Same(a, x)))
    case _ =>
      var order := Ordered(operator, a, b);
      if order.None? then Err(Incompatible) else Ok(FromBool(order.value))
  }

  // ----- what the comparisons mean -----

  /** Whole numbers and texts compare as they should, and truth values as the numbers 0 and 1. */
  lemma ComparatorsMean(x: int, y: int, s: string, t: string)
    ensures Apply(Eq, Int(x), Int(y)) == Ok(FromBool(x == y)) && Apply(Ne, Int(x), Int(y)) == Ok(FromBool(x != y))
    ensures Apply(Le, Int(x), Int(y)) == Ok(FromBool(x <= y)) && Apply(Lt, Int(x), Int(y)) == Ok(FromBool(x < y))
    ensures Apply(Ge, Int(x), Int(y)) == Ok(FromBool(x >= y)) && Apply(Gt, Int(x), Int(y)) == Ok(FromBool(x > y))
    ensures Apply(Le, Str(s), Str(t)) == Ok(FromBool(TextLe(s, t)))
      && Apply(Lt, Str(s), Str(t)) == Ok(FromBool(TextLess(s, t)))
    ensures Apply(Eq, Bool(true), Int(1)) == Ok(True) && Apply(Eq, Str(s), Int(x)) == Ok(False)
    ensures Apply(Le, Str(s), Int(x)) == Err(Incompatible) && Apply(Le, Null, Int(x)) == Err(Incompatible)
  {
    TextTotal(s, t);
    if TextLe(s, t) && TextLe(t, s) { TextAntisymmetric(s, t); }
  }

  /**
   * Of two values the four orderings agree on whether they apply; values that can be ordered are equal exactly when
   * neither is less.
   */
  lemma OrderingsAgree(a: Json, b: Json)
    ensures Apply(Ge, a, b) == Apply(Le, b, a) && Apply(Gt, a, b) == Apply(Lt, b, a)
    ensures Apply(Le, a, b).Ok? <==> Apply(Lt, b, a).Ok?
    ensures Apply(Le, a, b).Ok? ==> (Apply(Le, a, b) == Ok(True) <==> Apply(Lt, b, a) == Ok(False))
    ensures Apply(Lt, a, b) == Ok(False) && Apply(Lt, b, a) == Ok(False) ==> Apply(Eq, a, b) == Ok(True)
  {
    AtMostBothWays(Canon(a), Canon(b));
  }

  /** Ordering is symmetric in when it applies, total where it applies, and antisymmetric. */
  lemma {:induction false} AtMostBothWays(a: Json, b: Json)
    ensures AtMost(a, b).Some? <==> AtMost(b, a).Some?
    ensures AtMost(a, b).Some? ==> AtMost(a, b).value || AtMost(b, a).value
    ensures AtMost(a, b) == Some(true) && AtMost(b, a) == Some(true) ==> a == b
    decreases a
  {
    match (a, b) {
      case (Str(x), Str(y)) =>
        TextTotal(x, y);
        if TextLe(x, y) && TextLe(y, x) { TextAntisymmetric(x, y); }
      case (Arr(x), Arr(y)) => AllBothWays(x, y);
      case _ =>
    }
  }

  lemma {:induction false} AllBothWays(x: seq<Json>, y: seq<Json>)
    ensures AllAtMost(x, y).Some? <==> AllAtMost(y, x).Some?
    ensures AllAtMost(x, y).Some? ==> AllAtMost(x, y).value || AllAtMost(y, x).value
    ensures AllAtMost(x, y) == Some(true) && AllAtMost(y, x) == Some(true) ==> x == y
    decreases x
  {
    if x != [] && y != [] {
      if x[0] == y[0] {
        AllBothWays(x[1..], y[1..]);
        assert x == [x[0]] + x[1..] && y == [y[0]] + y[1..];
      } else {
        AtMostBothWays(x[0], y[0]);
      }
    }
  }

  // ----- evaluation -----

  function Evaluate(e: Expr, context: Context): Result<Truth, EvaluationError> {
    match e
    case Constant(value) => Ok(FromBool(value))
    case Compare(left, operator, right) =>
      var a := Resolve(left, context);
      var b := ResolveValue(right, context);
      if a.None? || b.None? then Ok(Unknown) else Apply(operator, a.value, b.value)
    case Join(And, first, second) =>
      var a := Evaluate(first, context);
      if a.Err? || a.value == False then a
      else
        var b := Evaluate(second, context);
        if b.Err? || b.value == False then b
        else Ok(if a.value == True && b.value == True then True else Unknown)
    case Join(Or, first, second) =>
      var a := Evaluate(first, context);
      if a.Err? || a.value == True then a
      else
        var b := Evaluate(second, context);
        if b.Err? || b.value == True then b
        else Ok(if a.value == False && b.value == False then False else Unknown)
  }

  function References(e: Expr): set<string> {
    match e
    case Constant(_) => {}
    case Compare(left, _, right) => {left} + (if right.Reference? then {right.name} else {})
    case Join(_, first, second) => References(first) + References(second)
  }

  function UnknownReferences(e: Expr, context: Context): set<string> {
    set name | name in References(e) && Resolve(name, context).None?
  }

  // ----- the reference semantics: strong Kleene logic -----

  function Rank(t: Truth): int { match t case False => 0 case Unknown => 1 case True => 2 }

  /** Conjunction is the smaller and disjunction the larger of two values. */
  function Kleene(c: Connective, a: Truth, b: Truth): Truth {
    if (Rank(a) <= Rank(b)) == c.And? then a else b
  }

  /** The tree's Kleene value, every comparison that cannot be evaluated given the value `fill` chooses for it. */
  function Meaning(e: Expr, context: Context, fill: Expr -> Truth): Truth {
    match e
    case Join(c, first, second) => Kleene(c, Meaning(first, context, fill), Meaning(second, context, fill))
    case _ => var leaf := Evaluate(e, context); if leaf.Ok? then leaf.value else fill(e)
  }

  predicate ErrorFree(e: Expr, context: Context) {
    match e
    case Join(_, first, second) => ErrorFree(first, context) && ErrorFree(second, context)
    case _ => Evaluate(e, context).Ok?
  }

  /**
   * A value that short-circuit evaluation returns is the Kleene value, whatever the comparisons it skipped or failed
   * would say.
   */
  lemma {:induction false} EvaluationIsKleene(e: Expr, context: Context, fill: Expr -> Truth)
    ensures Evaluate(e, context).Ok? ==> Evaluate(e, context).value == Meaning(e, context, fill)
    ensures ErrorFree(e, context) ==> Evaluate(e, context).Ok?
  {
    if e.Join? {
      EvaluationIsKleene(e.first, context, fill);
      EvaluationIsKleene(e.second, context, fill);
    }
  }

  /** `after` resolves at least what `before` resolves, to the same values. */
  ghost predicate Resolves(before: Context, after: Context) {
    forall name :: Resolve(name, before).Some? ==> Resolve(name, after) == Resolve(name, before)
  }

  /** Learning more never turns a decided value around: it stays, or evaluation fails. */
  lemma {:induction false} DecidedStays(e: Expr, before: Context, after: Context)
    requires Resolves(before, after)
    requires Evaluate(e, before).Ok? && Evaluate(e, before).value != Unknown
    ensures Evaluate(e, after).Ok? ==> Evaluate(e, after) == Evaluate(e, before)
    ensures ErrorFree(e, after) ==> Evaluate(e, after) == Evaluate(e, before)
  {
    match e {
      case Constant(_) =>
      case Compare(left, _, right) =>
        assert Resolve(left, before).Some?;
        if right.Reference? { assert Resolve(right.name, before).Some?; }
      case Join(c, first, second) =>
        EvaluationIsKleene(e, after, _ => Unknown);
        if Evaluate(first, before).Ok? && Evaluate(first, before).value != Unknown {
          DecidedStays(first, before, after);
        }
        if Evaluate(second, before).Ok? && Evaluate(second, before).value != Unknown {
          DecidedStays(second, before, after);
        }
    }
  }

  /** Whenever the value is unknown some reference is to blame. */
  lemma {:induction false} UnknownNamesReference(e: Expr, context: Context)
    requires Evaluate(e, context) == Ok(Unknown)
    ensures UnknownReferences(e, context) != {}
  {
    match e {
      case Constant(_) =>
      case Compare(left, _, right) =>
        if Resolve(left, context).None? {
          assert left in UnknownReferences(e, context);
        } else {
          assert right.name in UnknownReferences(e, context);
        }
      case Join(_, first, second) =>
        var culprit := if Evaluate(first, context) == Ok(Unknown) then first else second;
        UnknownNamesReference(culprit, context);
        var name :| name in UnknownReferences(culprit, context);
        assert name in UnknownReferences(e, context);
    }
  }
}
