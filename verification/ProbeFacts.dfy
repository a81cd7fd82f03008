/** The facts a structural probe records about one file; the linker reads them. */
module ProbeFacts {
  import opened Common

  /** A dotted name, one entry per component. */
  type Dotted = s: seq<string> | |s| > 0 witness ["x"]

  datatype Position = Position(line: nat, column: nat) {
    /** The order of `(line, column)` tuples. */
    predicate Before(other: Position) {
      line < other.line || (line == other.line && column < other.column)
    }
  }

  datatype ScopeKind =
    | ModuleKind | ClassKind | FunctionKind | AsyncFunctionKind | LambdaKind | ComprehensionKind
  {
    predicate FunctionLike() {
      FunctionKind? || AsyncFunctionKind? || LambdaKind? || ComprehensionKind?
    }
  }

  /** `<module>`, or the text `kind:qualified#ordinal`, which determines its three parts. */
  datatype ScopeId =
    | ModuleId
    | Inner(kind: ScopeKind, qualified: Dotted, ordinal: nat)

  datatype Scope = Scope(
    id: ScopeId,
    kind: ScopeKind,
    qualified: Option<Dotted>,
    parent: Option<ScopeId>,
    lookupParent: Option<ScopeId>,
    globals: set<string>,
    nonlocals: set<string>,
    locals: set<string>)

  datatype Declaration = Local | Global | Nonlocal

  datatype BindingKind =
    | ImportBinding | FunctionBinding | AsyncFunctionBinding | ClassBinding
    | Parameter | Delete | Annotation
    | AugmentedAssignment | ForTarget | WithTarget | ExceptTarget | PatternCapture | ComprehensionTarget
    | Assignment | AnnotatedAssignment | NamedExpression

  datatype Control =
    | IfControl | ExpressionBranch | ShortCircuit | ForControl | AsyncForControl | WhileControl
    | WithControl | AsyncWithControl | TryControl | MatchControl | ComprehensionControl

  datatype Binding = Binding(
    scope: ScopeId,
    name: string,
    kind: BindingKind,
    declaration: Declaration,
    value: Option<Dotted>,
    dynamic: bool,
    runtime: bool,
    target: Option<Dotted>,
    control: seq<Control>,
    pos: Position)

  datatype ImportFact =
    | PlainImport(modul: Dotted, alias: Option<string>, scope: ScopeId, pos: Position)
    | FromImport(base: Option<Dotted>, level: nat, name: string, alias: Option<string>, scope: ScopeId, pos: Position)

  datatype Call = Call(
    callee: Option<Dotted>,
    scope: ScopeId,
    control: seq<Control>,
    pos: Position)

  /** The index of the last scope with this id, or -1: what the dictionary of scopes holds under the id. */
  function IndexOf(scopes: seq<Scope>, id: ScopeId): (i: int)
    ensures -1 <= i < |scopes|
    ensures 0 <= i ==> scopes[i].id == id
    ensures i < 0 ==> forall j :: 0 <= j < |scopes| ==> scopes[j].id != id
  {
    if scopes == [] then -1
    else if scopes[|scopes| - 1].id == id then |scopes| - 1
    else IndexOf(scopes[..|scopes| - 1], id)
  }

  /** What the probe guarantees of a file's scopes: they form a tree of lookups under `<module>`. */
  ghost predicate ScopeTree(scopes: seq<Scope>) {
    && |scopes| > 0
    && scopes[0].id == ModuleId
    && scopes[0].lookupParent == None
    && scopes[0].globals == {} && scopes[0].nonlocals == {}
    && (forall i, j :: 0 <= i < j < |scopes| ==> scopes[i].id != scopes[j].id)
    && (forall i :: 0 < i < |scopes| ==> LookupParentBefore(scopes, i))
  }

  /** The lookup parent of scope `i` is one of the scopes emitted before it. */
  ghost predicate LookupParentBefore(scopes: seq<Scope>, i: nat)
    requires i < |scopes|
  {
    scopes[i].lookupParent.Some? &&
    exists j :: 0 <= j < i && scopes[j].id == scopes[i].lookupParent.value
  }

  lemma IndexOfUnique(scopes: seq<Scope>, i: nat)
    requires i < |scopes|
    requires forall a, b :: 0 <= a < b < |scopes| ==> scopes[a].id != scopes[b].id
    ensures IndexOf(scopes, scopes[i].id) == i
  {
  }
}
