/** Activation plans: built from a manifest and a context, checked by building them again, revised by amendments. */
module Evaluator {
  import opened Common
  import A = Activation
  import opened G = ActivationGrammar
  import opened AuditContext
  import opened Gates
  import L = Lifecycle

  type Context = A.Context

  datatype Gate = Gate(id: string, layer: string, phase: string, activation: seq<Token>)

  datatype Manifest = Manifest(version: string, defaults: Defaults, gates: seq<Gate>)

  /** A bundle root comes with the verdict on its form; `FallbackRoot` is the digest of the manifest alone. */
  datatype BundleRoot = Hex64(text: string) | Malformed(text: string) | FallbackRoot(manifest: Manifest)

  datatype ActivationProblem = Syntax | Evaluation(error: A.EvaluationError)

  /** `problem` stands for the reason's text, which follows from it, the state and the unknown references. */
  datatype GateResult = GateResult(
    id: string, layer: string, phase: string, activation: seq<Token>,
    state: GateState, unknown: set<string>, problem: Option<ActivationProblem>)

  datatype Summary = Summary(active: nat, inactive: nat, unknown: nat, total: nat, blocked: bool)

  /** A digest is the content it was computed from. */
  datatype Digest =
    | OfManifest(manifest: Manifest)
    | OfContext(context: Context)
    | OfSession(context: Context, root: BundleRoot)
    | OfText(text: string)
    | OfPlan(plan: Plan)

  datatype PlanId = PlanId(digest: Digest) | OtherId(text: string)

  datatype Binding = Binding(
    manifestDigest: Option<Digest>, bundleRoot: Option<BundleRoot>, contextDigest: Option<Digest>,
    build: Option<string>, buildDigest: Option<Digest>, revision: Option<int>, sessionRoot: Option<Digest>,
    parent: Option<PlanId>, reason: Option<string>, digest: Option<Digest>, id: Option<PlanId>)

  datatype Plan = Plan(version: string, context: Context, summary: Summary, gates: seq<GateResult>, binding: Binding)

  datatype Problem =
    | NegativeRevision | InitialWithParent | RevisionWithoutParent | MalformedRoot | Contextual(error: ContextError)
    | EmptyPlanContext | RevisionMetadata | BindingIncomplete | BindingMismatch | CoverageMismatch | GateMismatch
      | SummaryMismatch
    | BlankReason | Deactivated

  const BUILD := "vheatm-control-evaluator-v1"

  // ----- evaluating a manifest -----

  function Compile(tokens: seq<Token>): Option<A.Expr> {
    if Terminated(tokens) then Parse(tokens) else None
  }

  function StateOf(t: A.Truth): GateState {
    match t case True => Active case False => Inactive case Unknown => GateState.Unknown
  }

  /** An activation that cannot be read or evaluated leaves its gate unknown. */
  function EvaluateGate(g: Gate, context: Context): GateResult {
    var tree := Compile(g.activation);
    if tree.None? then GateResult(g.id, g.layer, g.phase, g.activation, GateState.Unknown, {}, Some(Syntax))
    else
      var truth := A.Evaluate(tree.value, context);
      if truth.Err?
      then GateResult(g.id, g.layer, g.phase, g.activation, GateState.Unknown, {}, Some(Evaluation(truth.error)))
      else
        var names := if truth.value == A.Truth.Unknown then A.UnknownReferences(tree.value, context) else {};
        GateResult(g.id, g.layer, g.phase, g.activation, StateOf(truth.value), names, None)
  }

  function EvaluateGates(gates: seq<Gate>, context: Context): seq<GateResult> {
    if gates == [] then []
    else EvaluateGates(gates[..|gates| - 1], context) + [EvaluateGate(gates[|gates| - 1], context)]
  }

  function CountState(gates: seq<GateResult>, state: GateState): nat {
    if gates == [] then 0
    else CountState(gates[..|gates| - 1], state) + (if gates[|gates| - 1].state == state then 1 else 0)
  }

  function Summarize(gates: seq<GateResult>): Summary {
    Summary(CountState(gates, Active), CountState(gates, Inactive), CountState(gates, GateState.Unknown), |gates|,
            CountState(gates, GateState.Unknown) > 0)
  }

  /** `root or fallback`: an empty text counts as none. */
  function RootOrElse(root: Option<BundleRoot>, fallback: BundleRoot): BundleRoot {
    if root.None? || root.value == Malformed("") then fallback else root.value
  }

  predicate MissingId(id: Option<PlanId>) { id.None? || id.value == OtherId("") }

  predicate MissingText(text: Option<string>) { text.None? || text.value == "" }

  function MakePlan(m: Manifest, context: Context, root: BundleRoot, revision: int, parent: Option<PlanId>,
                    reason: Option<string>): Plan {
    var gates := EvaluateGates(m.gates, context);
    var body :=
      Plan(m.version, context, Summarize(gates), gates,
           Binding(Some(OfManifest(m)), Some(root), Some(OfContext(context)), Some(BUILD), Some(OfText(BUILD)),
                   Some(revision), Some(OfSession(context, root)), if revision > 0 then parent else None,
                   if revision > 0 then reason else None, None, None));
    body.(binding := body.binding.(digest := Some(OfPlan(body)), id := Some(PlanId(OfPlan(body)))))
  }

  function Evaluate(m: Manifest, supplied: Option<Context>, revision: int, parent: Option<PlanId>,
                    reason: Option<string>, root: Option<BundleRoot>): Result<Plan, Problem> {
    if revision < 0 then Err(NegativeRevision)
    else if revision == 0 && (parent.Some? || reason.Some?) then Err(InitialWithParent)
    else if revision > 0 && (MissingId(parent) || MissingText(reason)) then Err(RevisionWithoutParent)
    else
      var context := Normalize(m.defaults, supplied);
      var resolved := RootOrElse(root, FallbackRoot(m));
      if context.Err? then Err(Contextual(context.error))
      else if resolved.Malformed? then Err(MalformedRoot)
      else Ok(MakePlan(m, context.value, resolved, revision, parent, reason))
  }

  /** The loop over the gates, counting states as it goes. */
  method EvaluateAll(items: seq<Gate>, context: Context) returns (gates: seq<GateResult>, summary: Summary)
    ensures gates == EvaluateGates(items, context) && summary == Summarize(gates)
  {
    hide EvaluateGate;
    gates := [];
    var active, inactive, unknown := 0, 0, 0;
    for k := 0 to |items|
      invariant gates == EvaluateGates(items[..k], context) && |gates| == k
      invariant active == CountState(gates, Active) && inactive == CountState(gates, Inactive)
      invariant unknown == CountState(gates, GateState.Unknown)
    {
      assert items[..k + 1][..k] == items[..k];
      var g := EvaluateGate(items[k], context);
      assert (gates + [g])[..k] == gates;
      gates := gates + [g];
      match g.state {
        case Active => active := active + 1;
        case Inactive => inactive := inactive + 1;
        case Unknown => unknown := unknown + 1;
      }
    }
    assert items[..|items|] == items;
    summary := Summary(active, inactive, unknown, |gates|, unknown > 0);
  }

  method EvaluateManifest(m: Manifest, supplied: Option<Context>, revision: int, parent: Option<PlanId>,
                          reason: Option<string>, root: Option<BundleRoot>) returns (r: Result<Plan, Problem>)
    ensures r == Evaluate(m, supplied, revision, parent, reason, root)
  {
    hide EvaluateGate, Normalize;
    if revision < 0 { return Err(NegativeRevision); }
    if revision == 0 && (parent.Some? || reason.Some?) { return Err(InitialWithParent); }
    if revision > 0 && (MissingId(parent) || MissingText(reason)) { return Err(RevisionWithoutParent); }
    var context := NormalizeContext(m.defaults, supplied);
    if context.Err? { return Err(Contextual(context.error)); }
    var resolved := RootOrElse(root, FallbackRoot(m));
    if resolved.Malformed? { return Err(MalformedRoot); }
    var gates, summary := EvaluateAll(m.gates, context.value);
    var body :=
      Plan(m.version, context.value, summary, gates,
           Binding(Some(OfManifest(m)), Some(resolved), Some(OfContext(context.value)), Some(BUILD),
                   Some(OfText(BUILD)), Some(revision), Some(OfSession(context.value, resolved)), None, None, None,
                   None));
    if revision > 0 { body := body.(binding := body.binding.(parent := parent, reason := reason)); }
    r := Ok(body.(binding := body.binding.(digest := Some(OfPlan(body)), id := Some(PlanId(OfPlan(body))))));
  }

  // ----- checking a plan -----

  predicate Agrees<T(==)>(present: Option<T>, expected: Option<T>) { present.Some? ==> present == expected }

  predicate BindingAgrees(b: Binding, e: Binding) {
    && Agrees(b.manifestDigest, e.manifestDigest) && Agrees(b.bundleRoot, e.bundleRoot)
    && Agrees(b.contextDigest, e.contextDigest)
    && Agrees(b.build, e.build) && Agrees(b.buildDigest, e.buildDigest) && Agrees(b.revision, e.revision)
    && Agrees(b.sessionRoot, e.sessionRoot) && Agrees(b.parent, e.parent) && Agrees(b.reason, e.reason)
    && Agrees(b.digest, e.digest) && Agrees(b.id, e.id)
  }

  predicate BindingComplete(b: Binding) {
    && b.manifestDigest.Some? && b.bundleRoot.Some? && b.contextDigest.Some? && b.build.Some? && b.buildDigest.Some?
    && b.revision.Some? && b.sessionRoot.Some? && b.digest.Some? && b.id.Some?
  }

  /** The gates of a plan under their ids; of several with one id the last counts. */
  function GatesById(gates: seq<GateResult>): map<string, GateResult> {
    if gates == [] then map[]
    else GatesById(gates[..|gates| - 1])[gates[|gates| - 1].id := gates[|gates| - 1]]
  }

  predicate GateAgrees(a: GateResult, e: GateResult) {
    a.layer == e.layer && a.phase == e.phase && a.activation == e.activation && a.state == e.state
      && a.unknown == e.unknown
  }

  function Recomputed(m: Manifest, plan: Plan, root: Option<BundleRoot>): Result<Plan, Problem> {
    var given := if root.None? || root.value == Malformed("") then plan.binding.bundleRoot else root;
    Evaluate(m, Some(plan.context), if plan.binding.revision.Some? then plan.binding.revision.value else 0,
             plan.binding.parent, plan.binding.reason, given)
  }

  /** The evaluator's own result for a plan's context, or why the plan is not it. */
  function Match(m: Manifest, plan: Plan, requireBinding: bool, root: Option<BundleRoot>): Result<Plan, Problem> {
    if plan.context == map[] then Err(EmptyPlanContext)
    else
      var expected := Recomputed(m, plan, root);
      if expected.Err? then Err(RevisionMetadata)
      else if requireBinding && !BindingComplete(plan.binding) then Err(BindingIncomplete)
      else if !BindingAgrees(plan.binding, expected.value.binding) then Err(BindingMismatch)
      else
        var actual, wanted := GatesById(plan.gates), GatesById(expected.value.gates);
        if actual.Keys != wanted.Keys then Err(CoverageMismatch)
        else if exists id | id in wanted :: !GateAgrees(actual[id], wanted[id]) then Err(GateMismatch)
        else if plan.summary != expected.value.summary then Err(SummaryMismatch)
        else expected
  }

  method AssertPlanMatches(m: Manifest, plan: Plan, requireBinding: bool, root: Option<BundleRoot>)
    returns (r: Result<Plan, Problem>)
    ensures r == Match(m, plan, requireBinding, root)
  {
    hide Evaluate, BindingAgrees, BindingComplete, GatesById, GateAgrees;
    if plan.context == map[] { return Err(EmptyPlanContext); }
    var given := if root.None? || root.value == Malformed("") then plan.binding.bundleRoot else root;
    var expected :=
      EvaluateManifest(m, Some(plan.context), if plan.binding.revision.Some? then plan.binding.revision.value else 0,
                       plan.binding.parent, plan.binding.reason, given);
    if expected.Err? { return Err(RevisionMetadata); }
    if requireBinding && !BindingComplete(plan.binding) { return Err(BindingIncomplete); }
    if !BindingAgrees(plan.binding, expected.value.binding) { return Err(BindingMismatch); }
    var actual, wanted := GatesById(plan.gates), GatesById(expected.value.gates);
    if actual.Keys != wanted.Keys { return Err(CoverageMismatch); }
    var todo := wanted.Keys;
    while todo != {}
      invariant todo <= wanted.Keys
      invariant forall id :: id in wanted && id !in todo ==> GateAgrees(actual[id], wanted[id])
      decreases |todo|
    {
      var id :| id in todo;
      todo := todo - {id};
      if !GateAgrees(actual[id], wanted[id]) { return Err(GateMismatch); }
    }
    r := if plan.summary != expected.value.summary then Err(SummaryMismatch) else expected;
  }

  // ----- revising a plan -----

  function Strip(text: string): string {
    if text == "" then ""
    else if L.Space(text[0]) then Strip(text[1..])
    else if L.Space(text[|text| - 1]) then Strip(text[..|text| - 1])
    else text
  }

  predicate ActiveIn(plan: Plan, id: string) {
    id in GatesById(plan.gates) && GatesById(plan.gates)[id].state == Active
  }

  function Revise(m: Manifest, previous: Plan, amendment: Amendment, reason: string): Result<Plan, Problem> {
    if L.Blank(reason) then Err(BlankReason)
    else
      var matched := Match(m, previous, true, None);
      if matched.Err? then matched
      else
        var merged := Merge(previous.context, amendment);
        if merged.Err? then Err(Contextual(merged.error))
        else
          var revised :=
            Evaluate(m, Some(merged.value), previous.binding.revision.value + 1, previous.binding.id,
                     Some(Strip(reason)), previous.binding.bundleRoot);
          if revised.Err? then revised
          else if exists id | id in GatesById(previous.gates) :: ActiveIn(previous, id) && !ActiveIn(revised.value, id)
               then Err(Deactivated)
          else revised
  }

  method RevisePlan(m: Manifest, previous: Plan, amendment: Amendment, reason: string)
    returns (r: Result<Plan, Problem>)
    ensures r == Revise(m, previous, amendment, reason)
  {
    hide Match, Evaluate, GatesById, Merge;
    if L.Blank(reason) { return Err(BlankReason); }
    var matched := AssertPlanMatches(m, previous, true, None);
    if matched.Err? { return matched; }
    assert BindingComplete(previous.binding) by { MatchedBinding(m, previous, None); }
    var merged := MergeContext(previous.context, amendment);
    if merged.Err? { return Err(Contextual(merged.error)); }
    var revised :=
      EvaluateManifest(m, Some(merged.value), previous.binding.revision.value + 1, previous.binding.id,
                       Some(Strip(reason)), previous.binding.bundleRoot);
    if revised.Err? { return revised; }
    var dropped := DroppedGates(previous, revised.value);
    if dropped != {} {
      var id :| id in dropped;
      return Err(Deactivated);
    }
    assert forall id :: id in GatesById(previous.gates) && ActiveIn(previous, id) && !ActiveIn(revised.value, id) ==>
      id in dropped;
    r := revised;
  }

  method DroppedGates(previous: Plan, revised: Plan) returns (dropped: set<string>)
    ensures dropped == set id | id in GatesById(previous.gates) && ActiveIn(previous, id) && !ActiveIn(revised, id)
  {
    hide GatesById;
    var before, after := GatesById(previous.gates), GatesById(revised.gates);
    var todo := before.Keys;
    dropped := {};
    while todo != {}
      invariant todo <= before.Keys
      invariant dropped == set id | id in before && id !in todo && ActiveIn(previous, id) && !ActiveIn(revised, id)
      decreases |todo|
    {
      var id :| id in todo;
      todo := todo - {id};
      if before[id].state == Active && !(id in after && after[id].state == Active) { dropped := dropped + {id}; }
    }
  }

  lemma MatchedBinding(m: Manifest, plan: Plan, root: Option<BundleRoot>)
    requires Match(m, plan, true, root).Ok?
    ensures BindingComplete(plan.binding)
  {
    hide Evaluate, BindingComplete;
  }
}
