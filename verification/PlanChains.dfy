/** What plans guarantee: the evaluator accepts its own, no other states pass, and revisions only add obligations. */
module PlanChains {
  import opened Common
  import A = Activation
  import opened AuditContext
  import opened Gates
  import opened Evaluator
  import L = Lifecycle

  // ----- the evaluator accepts its own plans -----

  lemma AgreesWithItself(gates: map<string, GateResult>)
    ensures !exists id | id in gates :: !GateAgrees(gates[id], gates[id])
  {
  }

  /** Evaluating the context of an evaluated plan gives the same plan. */
  lemma EvaluateAgain(m: Manifest, supplied: Option<Context>, revision: int, parent: Option<PlanId>,
                      reason: Option<string>, root: Option<BundleRoot>)
    requires Evaluate(m, supplied, revision, parent, reason, root).Ok?
    ensures var plan := Evaluate(m, supplied, revision, parent, reason, root).value;
            plan.context != map[] && BindingComplete(plan.binding) && Recomputed(m, plan, None) == Ok(plan)
  {
    hide Normalize, EvaluateGates, Summarize;
    NormalizeIdempotent(m.defaults, supplied);
  }

  /** Every plan the evaluator builds passes its own check, and the check returns that plan. */
  lemma EvaluatedMatches(m: Manifest, supplied: Option<Context>, revision: int, parent: Option<PlanId>,
                         reason: Option<string>, root: Option<BundleRoot>)
    requires Evaluate(m, supplied, revision, parent, reason, root).Ok?
    ensures var plan := Evaluate(m, supplied, revision, parent, reason, root).value;
      Match(m, plan, true, None) == Ok(plan)
  {
    hide Evaluate, Recomputed, BindingComplete, GatesById, GateAgrees;
    EvaluateAgain(m, supplied, revision, parent, reason, root);
    var plan := Evaluate(m, supplied, revision, parent, reason, root).value;
    AgreesWithItself(GatesById(plan.gates));
  }

  lemma RevisedMatches(m: Manifest, previous: Plan, amendment: Amendment, reason: string)
    requires Revise(m, previous, amendment, reason).Ok?
    ensures Match(m, Revise(m, previous, amendment, reason).value, true, None) == Revise(m, previous, amendment, reason)
  {
    hide Match, Merge, Evaluate, ActiveIn, GatesById;
    MatchedBinding(m, previous, None);
    EvaluatedMatches(m, Some(Merge(previous.context, amendment).value), previous.binding.revision.value + 1,
                     previous.binding.id, Some(Strip(reason)), previous.binding.bundleRoot);
  }

  // ----- states cannot be forged -----

  lemma {:induction false} EvaluatedGate(gates: seq<Gate>, context: Context, id: string)
    requires id in GatesById(EvaluateGates(gates, context))
    ensures exists k ::
      0 <= k < |gates| && gates[k].id == id
      && GatesById(EvaluateGates(gates, context))[id] == EvaluateGate(gates[k], context)
  {
    hide EvaluateGate;
    var front := gates[..|gates| - 1];
    if gates != [] {
      var last := EvaluateGate(gates[|gates| - 1], context);
      assert EvaluateGates(gates, context)[..|EvaluateGates(gates, context)| - 1] == EvaluateGates(front, context);
      KeepsId(gates[|gates| - 1], context);
      if id != gates[|gates| - 1].id {
        EvaluatedGate(front, context, id);
        var k :| 0 <= k < |front| && front[k].id == id
          && GatesById(EvaluateGates(front, context))[id] == EvaluateGate(front[k], context);
        assert gates[k] == front[k];
      }
    }
  }

  lemma KeepsId(g: Gate, context: Context)
    ensures EvaluateGate(g, context).id == g.id
  {
  }

  /** What it takes for a gate to be active. */
  ghost predicate HoldsIn(g: Gate, context: Context) {
    Compile(g.activation).Some? && A.Evaluate(Compile(g.activation).value, context) == Ok(A.True)
  }

  lemma ActiveExactly(g: Gate, context: Context)
    ensures EvaluateGate(g, context).state == Active <==> HoldsIn(g, context)
    ensures EvaluateGate(g, context).state == GateState.Unknown && EvaluateGate(g, context).problem.None? ==>
      EvaluateGate(g, context).unknown != {}
  {
    var tree := Compile(g.activation);
    if tree.Some? && A.Evaluate(tree.value, context) == Ok(A.Truth.Unknown) {
      A.UnknownNamesReference(tree.value, context);
    }
  }

  /**
   * In an accepted plan a gate is active exactly when the manifest's own expression holds in the plan's normalized
   * context.
   */
  lemma StatesNotForged(m: Manifest, plan: Plan, requireBinding: bool, root: Option<BundleRoot>, id: string)
    requires Match(m, plan, requireBinding, root).Ok? && id in GatesById(plan.gates)
    ensures Normalize(m.defaults, Some(plan.context)).Ok?
    ensures exists k :: 0 <= k < |m.gates| && m.gates[k].id == id
                        && (ActiveIn(plan, id) <==>
                            HoldsIn(m.gates[k], Normalize(m.defaults, Some(plan.context)).value))
  {
    hide Normalize, EvaluateGates, Summarize, GatesById, BindingAgrees, BindingComplete, EvaluateGate, HoldsIn;
    var expected := Recomputed(m, plan, root).value;
    var context := Normalize(m.defaults, Some(plan.context)).value;
    assert expected.gates == EvaluateGates(m.gates, context);
    assert GateAgrees(GatesById(plan.gates)[id], GatesById(expected.gates)[id]);
    EvaluatedGate(m.gates, context, id);
    var k :| 0 <= k < |m.gates| && m.gates[k].id == id
      && GatesById(expected.gates)[id] == EvaluateGate(m.gates[k], context);
    ActiveExactly(m.gates[k], context);
  }

  /**
   * An accepted plan that is completely bound has the evaluator's own binding and summary for its normalized context.
   */
  lemma AcceptedIsBound(m: Manifest, plan: Plan, root: Option<BundleRoot>)
    requires Match(m, plan, true, root).Ok?
    ensures Normalize(m.defaults, Some(plan.context)).Ok?
    ensures plan.binding.bundleRoot.Some? && plan.binding.revision.Some?
    ensures var context := Normalize(m.defaults, Some(plan.context)).value;
            var made :=
              MakePlan(m, context, plan.binding.bundleRoot.value, plan.binding.revision.value, plan.binding.parent,
                       plan.binding.reason);
            plan.binding == made.binding && plan.summary == made.summary && Match(m, plan, true, root) == Ok(made)
  {
    hide Normalize, EvaluateGates, Summarize, GatesById, GateAgrees;
  }

  /**
   * The plan id commits to what was planned: the manifest, the normalized context, the revision and every gate's state.
   */
  lemma PlanIdCommits(m: Manifest, a: Plan, n: Manifest, b: Plan)
    requires Match(m, a, true, None).Ok? && Match(n, b, true, None).Ok? && a.binding.id == b.binding.id
    ensures m == n && a.binding == b.binding && a.summary == b.summary
    ensures Normalize(m.defaults, Some(a.context)) == Normalize(n.defaults, Some(b.context))
    ensures forall id :: ActiveIn(a, id) <==> ActiveIn(b, id)
  {
    hide Normalize, EvaluateGates, Summarize, GatesById, Match;
    AcceptedIsBound(m, a, None);
    AcceptedIsBound(n, b, None);
    AcceptedStates(m, a);
    AcceptedStates(n, b);
  }

  lemma AcceptedStates(m: Manifest, plan: Plan)
    requires Match(m, plan, true, None).Ok?
    ensures forall id :: ActiveIn(plan, id) <==> ActiveIn(Match(m, plan, true, None).value, id)
  {
    hide Evaluate, GatesById, BindingAgrees, BindingComplete;
    var e := Match(m, plan, true, None).value;
    forall id ensures ActiveIn(plan, id) <==> ActiveIn(e, id) {
      assert id in GatesById(plan.gates) <==> id in GatesById(e.gates);
      if id in GatesById(e.gates) { assert GateAgrees(GatesById(plan.gates)[id], GatesById(e.gates)[id]); }
    }
  }

  // ----- chains of revisions -----

  datatype Replan = Replan(amendment: Amendment, reason: string)

  /** Each plan after the first is an accepted revision of the one before. */
  ghost predicate Chain(m: Manifest, plans: seq<Plan>, replans: seq<Replan>) {
    && |plans| == |replans| + 1
    && forall k :: 0 <= k < |replans| ==>
         Revise(m, plans[k], replans[k].amendment, replans[k].reason) == Ok(plans[k + 1])
  }

  /** One revision: counted and linked, no active gate lost, nothing resolved changed. */
  lemma ReviseStep(m: Manifest, previous: Plan, amendment: Amendment, reason: string)
    requires Revise(m, previous, amendment, reason).Ok?
    ensures var next := Revise(m, previous, amendment, reason).value;
            && previous.binding.revision.Some? && next.binding.revision == Some(previous.binding.revision.value + 1)
            && next.binding.revision.value > 0
            && previous.binding.id.Some? && next.binding.parent == previous.binding.id
            && (forall id :: ActiveIn(previous, id) ==> ActiveIn(next, id))
            && Kept(previous.context, next.context) && FieldsKept(LASTING, previous.context, next.context)
  {
    hide Match, Merge, Normalize, Kept, FieldsKept, GatesById, EvaluateGates, Summarize, Strip;
    MatchedBinding(m, previous, None);
    var next := Revise(m, previous, amendment, reason).value;
    RevisionPositive(m, previous);
    var merged := Merge(previous.context, amendment).value;
    MergeKeeps(previous.context, amendment);
    NormalizeKeeps(m.defaults, merged);
    KeptTransitive(previous.context, merged, next.context);
    MergeKeepsFields(previous.context, amendment);
    assert FieldsKept(LASTING, previous.context, merged) by { FewerFields(previous.context, merged); }
    NormalizeKeepsFields(m.defaults, merged);
    FieldsKeptTransitive(LASTING, previous.context, merged, next.context);
    forall id | ActiveIn(previous, id) ensures ActiveIn(next, id) { assert id in GatesById(previous.gates); }
  }

  lemma FewerFields(before: Context, after: Context)
    requires FieldsKept(IMMUTABLE, before, after)
    ensures FieldsKept(LASTING, before, after)
  {
  }

  lemma RevisionPositive(m: Manifest, plan: Plan)
    requires Match(m, plan, true, None).Ok?
    ensures plan.binding.revision.Some? && plan.binding.revision.value >= 0
  {
    hide MakePlan, Normalize, BindingAgrees, GatesById, GateAgrees;
  }

  lemma NormalizedLedger(m: Manifest, previous: Plan, amendment: Amendment, reason: string)
    requires Revise(m, previous, amendment, reason).Ok? && IsV2(previous.context)
    requires "finding_ledger" in previous.context && previous.context["finding_ledger"].Arr?
    ensures var next := Revise(m, previous, amendment, reason).value;
            "mandatory_findings" in next.context
              && next.context["mandatory_findings"] == A.Int(CountOpen(Ledger(next.context)))
  {
    hide Match, Merge, Normalize, GatesById, EvaluateGates, Summarize, Strip, A.Canon, BindingComplete;
    MatchedBinding(m, previous, None);
    var merged := Merge(previous.context, amendment).value;
    MergeKeeps(previous.context, amendment);
    NormalizedCount(m.defaults, merged);
  }

  /** Any two plans of a chain. */
  lemma {:induction false} ChainKeeps(m: Manifest, plans: seq<Plan>, replans: seq<Replan>, i: nat, j: nat)
    requires Chain(m, plans, replans) && i < j < |plans|
    ensures plans[i].binding.revision.Some?
      && plans[j].binding.revision == Some(plans[i].binding.revision.value + (j - i))
    ensures plans[j - 1].binding.id.Some? && plans[j].binding.parent == plans[j - 1].binding.id
    ensures forall id :: ActiveIn(plans[i], id) ==> ActiveIn(plans[j], id)
    ensures Kept(plans[i].context, plans[j].context) && FieldsKept(LASTING, plans[i].context, plans[j].context)
    decreases j
  {
    hide Revise, Kept, FieldsKept, ActiveIn;
    var k := j - 1;
    assert Revise(m, plans[k], replans[k].amendment, replans[k].reason) == Ok(plans[k + 1]);
    ReviseStep(m, plans[k], replans[k].amendment, replans[k].reason);
    if i < j - 1 {
      ChainKeeps(m, plans, replans, i, j - 1);
      KeptTransitive(plans[i].context, plans[j - 1].context, plans[j].context);
      FieldsKeptTransitive(LASTING, plans[i].context, plans[j - 1].context, plans[j].context);
    }
  }

  /** In 2.0.0 contexts the ledger only grows at its end, so the number of open mandatory findings never falls. */
  lemma ObligationsNeverFall(m: Manifest, plans: seq<Plan>, replans: seq<Replan>, i: nat, j: nat)
    requires Chain(m, plans, replans) && i < j < |plans|
    requires IsV2(plans[i].context) && "finding_ledger" in plans[i].context && plans[i].context["finding_ledger"].Arr?
    ensures Ledger(plans[i].context) <= Ledger(plans[j].context)
    ensures CountOpen(Ledger(plans[i].context)) <= CountOpen(Ledger(plans[j].context))
    ensures "mandatory_findings" in plans[j].context
            && plans[j].context["mandatory_findings"] == A.Int(CountOpen(Ledger(plans[j].context)))
  {
    hide Revise, ActiveIn, A.Canon, CountOpen;
    ChainKeeps(m, plans, replans, i, j);
    CountGrows(Ledger(plans[i].context), Ledger(plans[j].context));
    if i < j - 1 { ChainKeeps(m, plans, replans, i, j - 1); }
    NormalizedLedger(m, plans[j - 1], replans[j - 1].amendment, replans[j - 1].reason);
  }

  // ----- the mode along a chain -----

  /**
   * A revision keeps the plan's mode exactly when it leaves no execution profile in force, or one that says the same.
   */
  lemma RevisedModeExactly(m: Manifest, previous: Plan, amendment: Amendment, reason: string)
    requires Revise(m, previous, amendment, reason).Ok? && "mode" in previous.context
    ensures var next := Revise(m, previous, amendment, reason).value;
            var profile := ProfileAfter(previous.context, amendment);
            && "mode" in next.context
            && (A.Same(previous.context["mode"], next.context["mode"]) <==>
                (profile.Some? ==> A.Same(previous.context["mode"], profile.value)))
  {
    hide Match, Merge, Normalize, GatesById, EvaluateGates, Summarize, Strip, ProfileAfter;
    MatchedBinding(m, previous, None);
    ModeKeptExactly(m.defaults, previous.context, amendment);
  }

  const SMALL := Manifest("17", Defaults(A.Str("standard"), A.Int(2), map[]), [])
  const UPGRADE: Amendment := [("schema_version", V2), ("execution_profile", A.Str("full"))]

  /**
   * A plan in mode "standard", amended to 2.0.0 with the profile "full": the revision is accepted and its mode is
   * "full".
   */
  lemma ModeCounterexample()
    ensures var first := Evaluate(SMALL, None, 0, None, None, None);
            && first.Ok? && "mode" in first.value.context && first.value.context["mode"] == A.Str("standard")
            && var next := Revise(SMALL, first.value, UPGRADE, "scope");
            next.Ok? && "mode" in next.value.context && next.value.context["mode"] == A.Str("full")
  {
    hide Match, Normalize, Merge, MakePlan, Strip;
    SmallContext();
    FirstPlan();
    EvaluatedMatches(SMALL, None, 0, None, None, None);
    var plan := Evaluate(SMALL, None, 0, None, None, None).value;
    SmallPlan(plan);
    UpgradeMerges(plan.context);
    UpgradedContext(plan.context);
    assert "scope"[0] == 's' && !L.Blank("scope");
    assert Strip("scope") == "scope" by { StripWord("scope"); }
    NoGates(Merge(plan.context, UPGRADE).value, plan.binding.id);
  }

  lemma StripWord(text: string)
    requires text != "" && !L.Space(text[0]) && !L.Space(text[|text| - 1])
    ensures Strip(text) == text
  {
  }

  lemma SmallContext()
    ensures Normalize(SMALL.defaults, None) ==
      Ok(map["mode" := A.Str("standard"), "target_tier" := A.Int(2), "declarations" := A.Obj(map[])])
  {
    var expected: A.Context :=
      map["mode" := A.Str("standard"), "target_tier" := A.Int(2), "declarations" := A.Obj(map[])];
    assert map[] + Declared(map[]) == map[];
    assert Overlay(SMALL.defaults, map[]) == expected;
  }

  lemma FirstPlan()
    requires Normalize(SMALL.defaults, None).Ok?
    ensures Evaluate(SMALL, None, 0, None, None, None).Ok?
  {
    hide Normalize;
  }

  lemma SmallPlan(plan: Plan)
    requires Evaluate(SMALL, None, 0, None, None, None) == Ok(plan) && Normalize(SMALL.defaults, None).Ok?
    ensures plan.context == Normalize(SMALL.defaults, None).value && plan.gates == []
    ensures plan.binding.revision == Some(0) && plan.binding.bundleRoot == Some(FallbackRoot(SMALL))
      && plan.binding.id.Some? && plan.binding.id.value.PlanId?
  {
    hide Normalize;
  }

  lemma UpgradedContext(base: A.Context)
    requires base == map["mode" := A.Str("standard"), "target_tier" := A.Int(2), "declarations" := A.Obj(map[])]
    ensures var merged := base["schema_version" := V2]["execution_profile" := A.Str("full")];
            var n := Normalize(SMALL.defaults, Some(merged));
            n.Ok? && "mode" in n.value && n.value["mode"] == A.Str("full")
  {
    hide Overlay, Extras;
    var merged := base["schema_version" := V2]["execution_profile" := A.Str("full")];
    SuppliedMode(SMALL.defaults, merged);
  }

  /** Without gates nothing can be deactivated. */
  lemma NoGates(context: A.Context, parent: Option<PlanId>)
    requires Normalize(SMALL.defaults, Some(context)).Ok? && parent.Some? && parent.value.PlanId?
    ensures var next := Evaluate(SMALL, Some(context), 1, parent, Some("scope"), Some(FallbackRoot(SMALL)));
            next.Ok? && next.value.context == Normalize(SMALL.defaults, Some(context)).value
  {
    hide Normalize;
  }

  lemma UpgradeMerges(base: A.Context)
    requires "schema_version" !in base && "execution_profile" !in base && "facts" !in base && "finding_ledger" !in base
    ensures Merge(base, UPGRADE) == Ok(base["schema_version" := V2]["execution_profile" := A.Str("full")])
  {
    var amendment := UPGRADE;
    assert amendment[..1] == [("schema_version", V2)] && amendment[..1][..0] == [];
    assert MergeFields(base, true, amendment[..1]) == Ok(base["schema_version" := V2]);
    assert amendment[0] == ("schema_version", V2);
  }
}
