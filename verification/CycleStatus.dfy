/** The status of an audit cycle, and what it takes for a cycle to be complete. */
module CycleStatus {
  import opened Common
  import opened Gates
  import opened ModuleRuns
  import opened GateDerivation
  import C = PlanChains
  import E = Evaluator

  datatype Finding = Finding(priority: string, disposition: Option<string>, epistemic: string)

  datatype Status = Blocked | Partial | Complete

  predicate Settled(f: Finding) {
    f.priority == "mandatory" ==>
      || (f.disposition == Some("remediated") && f.epistemic == "verified")
      || (f.disposition == Some("false_positive") && f.epistemic in {"verified", "contradicted"})
  }

  /** The gate stands in the way of completion. */
  predicate Blocks(g: E.GateResult, result: Option<string>) {
    match g.state
    case Unknown => true
    case Active => result in {None, Some("fail"), Some("unknown"), Some("not_applicable")}
    case Inactive => result != Some("not_applicable")
  }

  function Reported(results: map<string, string>, id: string): Option<string> {
    if id in results then Some(results[id]) else None
  }

  method DeriveCycleStatus(plan: E.Plan, results: map<string, string>, findings: seq<Finding>) returns (status: Status)
    ensures status == Blocked <==>
      exists id :: id in E.GatesById(plan.gates) && Blocks(E.GatesById(plan.gates)[id], Reported(results, id))
    ensures status == Complete <==> status != Blocked && forall f :: f in findings ==> Settled(f)
  {
    hide E.GatesById;
    var gates := E.GatesById(plan.gates);
    if exists id | id in gates :: gates[id].state == GateState.Unknown { return Blocked; }
    var todo := gates.Keys;
    while todo != {}
      invariant todo <= gates.Keys
      invariant forall id :: id in gates && id !in todo ==> !Blocks(gates[id], Reported(results, id))
      decreases |todo|
    {
      var id :| id in todo;
      todo := todo - {id};
      var result := if id in results then Some(results[id]) else None;
      if gates[id].state == Active && result in {None, Some("fail"), Some("unknown"), Some("not_applicable")} {
        return Blocked;
      }
      if gates[id].state == Inactive && result != Some("not_applicable") { return Blocked; }
    }
    for k := 0 to |findings|
      invariant forall i :: 0 <= i < k ==> Settled(findings[i])
    {
      var f := findings[k];
      assert f in findings;
      if f.priority == "mandatory" {
        if f.disposition == Some("remediated") && f.epistemic != "verified" { return Partial; }
        if f.disposition == Some("false_positive") && f.epistemic !in {"verified", "contradicted"} { return Partial; }
        if f.disposition !in {Some("remediated"), Some("false_positive")} { return Partial; }
      }
    }
    status := Complete;
  }

  // ----- completion -----

  function StateMap(outcomes: seq<GateOutcome>): map<string, string> {
    if outcomes == [] then map[]
    else StateMap(outcomes[..|outcomes| - 1])[outcomes[|outcomes| - 1].gate := outcomes[|outcomes| - 1].state]
  }

  lemma {:induction false} StateMapped(outcomes: seq<GateOutcome>, id: string)
    ensures match Reported(StateMap(outcomes), id)
            case None => forall k :: 0 <= k < |outcomes| ==> outcomes[k].gate != id
            case Some(state) => exists k :: 0 <= k < |outcomes| && outcomes[k].gate == id && outcomes[k].state == state
  {
    if outcomes != [] {
      var front, last := outcomes[..|outcomes| - 1], outcomes[|outcomes| - 1];
      StateMapped(front, id);
      assert outcomes == front + [last];
      if id != last.gate && Reported(StateMap(front), id).Some? {
        var k :| 0 <= k < |front| && front[k].gate == id && front[k].state == StateMap(front)[id];
        assert outcomes[k] == front[k];
      }
    }
  }

  /** One selected module owns the gate, and its run is the evidence that the gate passed. */
  ghost predicate Evidenced(r: Records, gate: string) {
    exists id, result :: OwnerResult(r, gate, id, result) && result.state == "pass"
  }

  /** What such evidence comes to. */
  lemma EvidenceMeans(r: Records, gate: string, id: string, result: ModuleResult)
    requires OwnerResult(r, gate, id, result) && result.state == "pass" && r.selected[id].id == id
    ensures SoleOwner(r.selected, gate, id) && id in r.runs
    ensures var run := r.runs[id];
            && run.status == "completed" && run.moduleId == id && run.result == Some(result) && gate in result.gateTrace
            && RunValid(run, ContractOf(r.selected[id]), r.artifacts, r.receipts, Some(r.selected[id].digest),
                        Some(r.selected[id].instructionDigest))
            && result.evidence != [] && EvidenceKnown(result.evidence, r.artifacts)
            && run.receipts != [] && AllSuccessful(run.receipts, r.receipts)
            && result.runId == run.id && Decided(Produced(run.outputs, DECISION, r.artifacts), result)
    ensures forall ref :: ref in r.runs[id].inputs + r.runs[id].outputs ==>
              && ref in r.artifacts && AllSuccessful(r.artifacts[ref].subject.receipts, r.receipts)
              && (FiledById(r.artifacts) ==> ref == ArtOf(r.artifacts[ref].subject))
  {
    hide InputsValid, OutputsValid, Produced, SoleOwner;
    ValidRunCarries(r.runs[id], ContractOf(r.selected[id]), r.artifacts, r.receipts,
                    Some(r.selected[id].digest), Some(r.selected[id].instructionDigest));
  }

  lemma ResultStates(r: Records, gate: string, result: ModuleResult)
    requires HasResult(r, gate, result)
    ensures result.state in {"pass", "fail", "unknown"}
  {
    hide InputsValid, OutputsValid, Produced, SoleOwner, Decided, Bound;
  }

  /** A gate does not block exactly when it is inactive, or active and evidenced. */
  lemma OutcomeBlocks(r: Records, gate: string, o: GateOutcome)
    requires OutcomeIs(r, gate, o) && gate in E.GatesById(r.plan.gates)
    ensures var g := E.GatesById(r.plan.gates)[gate];
            Blocks(g, Some(o.state)) <==> g.state == GateState.Unknown || (g.state == Active && !Evidenced(r, gate))
  {
    hide E.GatesById, OwnerResult;
    if E.GatesById(r.plan.gates)[gate].state == Active {
      if Evidenced(r, gate) {
        var id, result :| OwnerResult(r, gate, id, result) && result.state == "pass";
        assert HasResult(r, gate, result);
      } else if exists result :: HasResult(r, gate, result) {
        var result :| HasResult(r, gate, result);
        var id :| OwnerResult(r, gate, id, result);
        ResultStates(r, gate, result);
      }
    }
  }

  /** The gates of an accepted plan are the gates of the manifest. */
  lemma GatesOfManifest(m: E.Manifest, plan: E.Plan, id: string)
    requires E.Match(m, plan, true, None).Ok?
    ensures id in E.GatesById(plan.gates) ==> exists k :: 0 <= k < |m.gates| && m.gates[k].id == id
  {
    hide E.GatesById, E.EvaluateGates, E.Summarize, E.BindingAgrees, E.BindingComplete, E.EvaluateGate;
    if id in E.GatesById(plan.gates) {
      C.StatesNotForged(m, plan, true, None, id);
    }
  }

  /**
   * The status derived from the derived gate results is complete exactly when no gate is unknown, every active gate has
   * one owner whose valid completed run passes it with evidence and successful receipts, and every mandatory finding is
   * settled.
   */
  lemma CompleteExactly(m: E.Manifest, r: Records, outcomes: seq<GateOutcome>, findings: seq<Finding>, status: Status)
    requires E.Match(m, r.plan, true, None).Ok? && OutcomesAre(r, m, outcomes)
    requires status == Blocked <==>
      exists id ::
        id in E.GatesById(r.plan.gates) && Blocks(E.GatesById(r.plan.gates)[id], Reported(StateMap(outcomes), id))
    requires status == Complete <==> status != Blocked && forall f :: f in findings ==> Settled(f)
    ensures status == Complete <==>
              && (forall id :: id in E.GatesById(r.plan.gates) ==>
                  E.GatesById(r.plan.gates)[id].state != GateState.Unknown)
              && (forall id :: E.ActiveIn(r.plan, id) ==> Evidenced(r, id))
              && (forall f :: f in findings ==> Settled(f))
    ensures status == Complete ==>
      forall id :: id in E.GatesById(r.plan.gates) && E.GatesById(r.plan.gates)[id].state == Inactive ==>
              Reported(StateMap(outcomes), id) == Some(NOT_APPLICABLE)
  {
    hide E.GatesById, E.Match, Evidenced, OutcomeIs, StateMap, Settled;
    var gates := E.GatesById(r.plan.gates);
    forall id | id in gates
      ensures Blocks(gates[id], Reported(StateMap(outcomes), id)) <==>
        gates[id].state == GateState.Unknown || (gates[id].state == Active && !Evidenced(r, id))
    {
      GateBlocks(m, r, outcomes, id);
    }
  }

  lemma GateBlocks(m: E.Manifest, r: Records, outcomes: seq<GateOutcome>, id: string)
    requires E.Match(m, r.plan, true, None).Ok? && OutcomesAre(r, m, outcomes) && id in E.GatesById(r.plan.gates)
    ensures var g := E.GatesById(r.plan.gates)[id];
            Blocks(g, Reported(StateMap(outcomes), id)) <==>
              g.state == GateState.Unknown || (g.state == Active && !Evidenced(r, id))
  {
    hide E.GatesById, E.Match, Evidenced, OutcomeIs, StateMap, Blocks;
    GatesOfManifest(m, r.plan, id);
    StateMapped(outcomes, id);
    var j :| 0 <= j < |m.gates| && m.gates[j].id == id;
    assert outcomes[j].gate == id by { OutcomeGate(r, id, outcomes[j]); }
    var k :| 0 <= k < |outcomes| && outcomes[k].gate == id
      && Some(outcomes[k].state) == Reported(StateMap(outcomes), id);
    OutcomeGate(r, m.gates[k].id, outcomes[k]);
    OutcomeBlocks(r, id, outcomes[k]);
  }

  lemma OutcomeGate(r: Records, gate: string, o: GateOutcome)
    requires OutcomeIs(r, gate, o)
    ensures o.gate == gate
  {
  }

  /** With one run per module the evidence is that run and no other. */
  lemma {:induction false} OnlyRun(runs: seq<Run>, i: nat)
    requires DistinctRuns(runs) && i < |runs|
    ensures runs[i].moduleId in RunsById(runs) && RunsById(runs)[runs[i].moduleId] == runs[i]
  {
    var front := runs[..|runs| - 1];
    if i < |front| { OnlyRun(front, i); }
  }

  // ----- what a report declares -----

  /** One gate result as the report gives it. */
  datatype Claim = Claim(gate: string, state: string, evidence: set<Ref>)

  datatype Issue =
    | NotAnEntry | DuplicateGate(gate: string) | GateSetMismatch | ActivationMismatch(gate: string)
      | Underivable(problem: Problem)
    | NothingDerived(gate: string) | StateMismatch(gate: string) | EvidenceMismatch(gate: string) | StatusMismatch

  function StatusName(status: Status): string {
    match status
    case Blocked => "blocked"
    case Partial => "partial"
    case Complete => "complete"
  }

  /** The claims by gate; of several for one gate the last. An entry that is no object claims nothing. */
  function ClaimsById(entries: seq<Option<Claim>>): map<string, Claim> {
    if entries == [] then map[]
    else
      var last := entries[|entries| - 1];
      var front := ClaimsById(entries[..|entries| - 1]);
      if last.Some? then front[last.value.gate := last.value] else front
  }

  ghost predicate EntriesSound(entries: seq<Option<Claim>>) {
    && (forall i :: 0 <= i < |entries| ==> entries[i].Some?)
    && (forall i, j :: 0 <= i < j < |entries| && entries[i].Some? && entries[j].Some? ==>
        entries[i].value.gate != entries[j].value.gate)
  }

  function StatesOf(claims: map<string, Claim>): map<string, string> { map id | id in claims :: claims[id].state }

  lemma {:induction false} ClaimKeys(entries: seq<Option<Claim>>)
    ensures forall id :: id in ClaimsById(entries) <==>
      exists i :: 0 <= i < |entries| && entries[i].Some? && entries[i].value.gate == id
    ensures forall id :: id in ClaimsById(entries) ==> ClaimsById(entries)[id].gate == id
  {
    if entries != [] {
      var front := entries[..|entries| - 1];
      ClaimKeys(front);
      forall id
        ensures id in ClaimsById(entries) <==>
        exists i :: 0 <= i < |entries| && entries[i].Some? && entries[i].value.gate == id
      {
        if id in ClaimsById(front) {
          var i :| 0 <= i < |front| && front[i].Some? && front[i].value.gate == id;
          assert entries[i] == front[i];
        }
        if i :| 0 <= i < |entries| - 1 && entries[i].Some? && entries[i].value.gate == id {
          assert front[i] == entries[i];
        }
      }
    }
  }

  method ReadClaims(entries: seq<Option<Claim>>) returns (claims: map<string, Claim>, issues: seq<Issue>)
    ensures claims == ClaimsById(entries) && (issues == [] <==> EntriesSound(entries))
  {
    claims := map[];
    issues := [];
    for k := 0 to |entries|
      invariant claims == ClaimsById(entries[..k]) && (issues == [] <==> EntriesSound(entries[..k]))
    {
      assert entries[..k + 1][..k] == entries[..k];
      ClaimKeys(entries[..k]);
      EntriesMore(entries, k);
      match entries[k] {
        case None => issues := issues + [NotAnEntry];
        case Some(claim) =>
          if claim.gate in claims { issues := issues + [DuplicateGate(claim.gate)]; }
          claims := claims[claim.gate := claim];
      }
    }
    assert entries[..|entries|] == entries;
  }

  lemma EntriesMore(entries: seq<Option<Claim>>, k: nat)
    requires k < |entries|
    ensures EntriesSound(entries[..k + 1]) <==>
              && EntriesSound(entries[..k]) && entries[k].Some?
              && forall i :: 0 <= i < k && entries[i].Some? ==> entries[i].value.gate != entries[k].value.gate
  {
    var less, more := entries[..k], entries[..k + 1];
    assert forall i :: 0 <= i < k ==> less[i] == more[i] == entries[i];
    if EntriesSound(more) {
      assert more[k] == entries[k];
      assert forall i :: 0 <= i < k ==> less[i].Some?;
    }
    if EntriesSound(less) && entries[k].Some?
      && forall i :: 0 <= i < k && entries[i].Some? ==> entries[i].value.gate != entries[k].value.gate
    {
      assert forall i :: 0 <= i < k ==> less[i].Some?;
    }
  }

  /** A result that suits the activation of its gate. */
  predicate Suits(state: GateState, result: Option<string>) {
    match state
    case Inactive => result == Some(NOT_APPLICABLE)
    case Unknown => result == Some(UNKNOWN)
    case Active => result in {Some("pass"), Some("fail"), Some(UNKNOWN)}
  }

  method CheckActivation(plan: E.Plan, results: map<string, string>) returns (issues: seq<Issue>)
    ensures issues == [] <==>
      forall id :: id in E.GatesById(plan.gates) ==> Suits(E.GatesById(plan.gates)[id].state, Reported(results, id))
  {
    hide E.GatesById;
    var gates := E.GatesById(plan.gates);
    issues := [];
    var todo := gates.Keys;
    while todo != {}
      invariant todo <= gates.Keys
      invariant issues == [] <==>
        forall id :: id in gates && id !in todo ==> Suits(gates[id].state, Reported(results, id))
      decreases |todo|
    {
      var id :| id in todo;
      todo := todo - {id};
      var result := if id in results then Some(results[id]) else None;
      var suits := match gates[id].state
        case Inactive => result == Some(NOT_APPLICABLE)
        case Unknown => result == Some(UNKNOWN)
        case Active => result in {Some("pass"), Some("fail"), Some(UNKNOWN)};
      if !suits { issues := issues + [ActivationMismatch(id)]; }
    }
  }

  // ----- what was derived -----

  function OutcomesById(outcomes: seq<GateOutcome>): map<string, GateOutcome> {
    if outcomes == [] then map[]
    else OutcomesById(outcomes[..|outcomes| - 1])[outcomes[|outcomes| - 1].gate := outcomes[|outcomes| - 1]]
  }

  function EvidenceOf(o: GateOutcome): set<Ref> { if o.evidence.Some? then Members(o.evidence.value) else {} }

  /** The claim has the derived state and, where it claims a pass, the derived evidence. */
  predicate Agrees(claim: Claim, o: GateOutcome) {
    claim.state == o.state && (claim.state == "pass" ==> claim.evidence == EvidenceOf(o))
  }

  lemma {:induction false} DerivedState(outcomes: seq<GateOutcome>)
    ensures OutcomesById(outcomes).Keys == StateMap(outcomes).Keys
    ensures forall id :: id in OutcomesById(outcomes) ==>
      OutcomesById(outcomes)[id].state == StateMap(outcomes)[id] && OutcomesById(outcomes)[id] in outcomes
    ensures forall id :: id in OutcomesById(outcomes) ==> OutcomesById(outcomes)[id].gate == id
  {
    if outcomes != [] {
      DerivedState(outcomes[..|outcomes| - 1]);
      assert outcomes == outcomes[..|outcomes| - 1] + [outcomes[|outcomes| - 1]];
    }
  }

  method CompareDerived(claims: map<string, Claim>, outcomes: seq<GateOutcome>) returns (issues: seq<Issue>)
    ensures issues == [] <==>
      forall id :: id in claims ==> id in OutcomesById(outcomes) && Agrees(claims[id], OutcomesById(outcomes)[id])
  {
    hide OutcomesById, EvidenceOf;
    var derived := OutcomesById(outcomes);
    issues := [];
    var todo := claims.Keys;
    while todo != {}
      invariant todo <= claims.Keys
      invariant issues == [] <==>
        forall id :: id in claims && id !in todo ==> id in derived && Agrees(claims[id], derived[id])
      decreases |todo|
    {
      var id :| id in todo;
      todo := todo - {id};
      if id !in derived {
        issues := issues + [NothingDerived(id)];
      } else {
        if claims[id].state != derived[id].state { issues := issues + [StateMismatch(id)]; }
        if claims[id].state == "pass" && claims[id].evidence != EvidenceOf(derived[id]) {
          issues := issues + [EvidenceMismatch(id)];
        }
      }
    }
  }

  /** A gate has one outcome. */
  lemma OneOutcome(r: Records, gate: string, a: GateOutcome, b: GateOutcome)
    requires OutcomeIs(r, gate, a) && OutcomeIs(r, gate, b)
    ensures a == b
  {
    hide HasResult;
    if Activation(r.plan, gate) == Some(GateState.Active) && exists result :: HasResult(r, gate, result) {
      var result :| HasResult(r, gate, result);
    }
  }

  /** The claim agrees with the outcome the records of the report come to. */
  ghost predicate Confirmed(r: Records, claim: Claim) {
    exists o :: OutcomeIs(r, claim.gate, o) && Agrees(claim, o)
  }

  function GateIds(m: E.Manifest): set<string> { set g | g in m.gates :: g.id }

  lemma {:induction false} OutcomeKeys(outcomes: seq<GateOutcome>)
    ensures forall id :: id in StateMap(outcomes) <==> exists k :: 0 <= k < |outcomes| && outcomes[k].gate == id
  {
    forall id ensures id in StateMap(outcomes) <==> exists k :: 0 <= k < |outcomes| && outcomes[k].gate == id {
      StateMapped(outcomes, id);
    }
  }

  lemma OutcomesCover(r: Records, m: E.Manifest, outcomes: seq<GateOutcome>)
    requires OutcomesAre(r, m, outcomes)
    ensures OutcomesById(outcomes).Keys == StateMap(outcomes).Keys == GateIds(m)
    ensures forall id :: id in OutcomesById(outcomes) ==> OutcomeIs(r, id, OutcomesById(outcomes)[id])
  {
    hide OutcomeIs, OutcomesById, StateMap;
    forall k | 0 <= k < |outcomes| ensures outcomes[k].gate == m.gates[k].id {
      OutcomeGate(r, m.gates[k].id, outcomes[k]);
    }
    DerivedState(outcomes);
    OutcomeKeys(outcomes);
    forall id ensures id in StateMap(outcomes) <==> id in GateIds(m) {
      if id in GateIds(m) {
        var g :| g in m.gates && g.id == id;
        var k :| 0 <= k < |m.gates| && m.gates[k] == g;
        assert outcomes[k].gate == id;
      }
    }
    forall id | id in OutcomesById(outcomes) ensures OutcomeIs(r, id, OutcomesById(outcomes)[id]) {
      var k :| 0 <= k < |outcomes| && outcomes[k] == OutcomesById(outcomes)[id];
      assert m.gates[k].id == id;
    }
  }

  lemma ClaimsConfirmed(r: Records, m: E.Manifest, outcomes: seq<GateOutcome>, claims: map<string, Claim>)
    requires OutcomesAre(r, m, outcomes) && claims.Keys == GateIds(m) && forall id :: id in claims ==>
      claims[id].gate == id
    ensures (forall id :: id in claims ==>
             id in OutcomesById(outcomes) && Agrees(claims[id], OutcomesById(outcomes)[id])) <==>
            (forall id :: id in claims ==> Confirmed(r, claims[id]))
    ensures (forall id :: id in claims ==> Confirmed(r, claims[id])) ==> StatesOf(claims) == StateMap(outcomes)
  {
    hide OutcomesAre, OutcomeIs, OutcomesById, StateMap, Agrees, Confirmed, GateIds;
    OutcomesCover(r, m, outcomes);
    DerivedState(outcomes);
    forall id | id in claims
      ensures Confirmed(r, claims[id]) <==> Agrees(claims[id], OutcomesById(outcomes)[id])
      ensures Confirmed(r, claims[id]) ==> claims[id].state == StateMap(outcomes)[id]
    {
      ClaimConfirmed(r, claims[id], OutcomesById(outcomes)[id]);
    }
    if forall id :: id in claims ==> Confirmed(r, claims[id]) {
      assert StatesOf(claims).Keys == StateMap(outcomes).Keys;
    }
  }

  lemma ClaimConfirmed(r: Records, claim: Claim, o: GateOutcome)
    requires OutcomeIs(r, claim.gate, o)
    ensures Confirmed(r, claim) <==> Agrees(claim, o)
    ensures Confirmed(r, claim) ==> claim.state == o.state
  {
    hide OutcomeIs, EvidenceOf;
    if Confirmed(r, claim) {
      var other :| OutcomeIs(r, claim.gate, other) && Agrees(claim, other);
      OneOutcome(r, claim.gate, o, other);
    }
  }

  // ----- the report -----

  datatype Report = Report(
    plan: E.Plan, modules: seq<Selected>, runs: seq<Run>, artifacts: seq<Artifact>, receipts: seq<Receipt>,
    entries: seq<Option<Claim>>, findings: seq<Finding>, status: string)

  function Evidence(r: Report): Records { RecordsOf(r.plan, r.modules, r.runs, r.artifacts, r.receipts) }

  predicate Derivable(m: E.Manifest, r: Report) {
    E.Match(m, r.plan, true, None).Ok? && DistinctRuns(r.runs) && DistinctArtifacts(r.artifacts)
      && DistinctReceipts(r.receipts)
  }

  /** The status is what the declared results and the findings make it. */
  ghost predicate StatusIs(plan: E.Plan, results: map<string, string>, findings: seq<Finding>, status: Status) {
    && (status == Blocked <==>
        exists id :: id in E.GatesById(plan.gates) && Blocks(E.GatesById(plan.gates)[id], Reported(results, id)))
    && (status == Complete <==> status != Blocked && forall f :: f in findings ==> Settled(f))
  }

  /** One claim for each gate of the manifest, suiting its activation and confirmed by the records of the report. */
  ghost predicate ClaimsSound(m: E.Manifest, r: Report) {
    var claims := ClaimsById(r.entries);
    && EntriesSound(r.entries) && claims.Keys == GateIds(m)
    && (forall id :: id in E.GatesById(r.plan.gates) ==>
        Suits(E.GatesById(r.plan.gates)[id].state, Reported(StatesOf(claims), id)))
    && Derivable(m, r) && (forall id :: id in claims ==> Confirmed(Evidence(r), claims[id]))
  }

  /** What a complete cycle has to show for itself. */
  ghost predicate Finished(r: Report) {
    && (forall id :: id in E.GatesById(r.plan.gates) ==> E.GatesById(r.plan.gates)[id].state != GateState.Unknown)
    && (forall id :: E.ActiveIn(r.plan, id) ==> Evidenced(Evidence(r), id))
    && (forall f :: f in r.findings ==> Settled(f))
  }

  /**
   * The status is derived from the results the report declares. There is no issue exactly when the claims are sound and
   * the declared status is that one; and then the report says "complete" exactly when its records show a finished
   * cycle.
   */
  method ValidateStatus(m: E.Manifest, r: Report) returns (issues: seq<Issue>, status: Status)
    ensures StatusIs(r.plan, StatesOf(ClaimsById(r.entries)), r.findings, status)
    ensures issues == [] <==> ClaimsSound(m, r) && r.status == StatusName(status)
    ensures issues == [] ==> (r.status == "complete" <==> Finished(r))
  {
    hide E.GatesById, E.Match, E.ActiveIn, Evidenced, OutcomesAre, DistinctRuns, DistinctArtifacts, DistinctReceipts,
         Settled, RecordsOf, ClaimsById, EntriesSound, OutcomesById, Agrees, Confirmed, Finished, StatusIs, GateIds,
         StatesOf, StateMap, Suits;
    var claims;
    claims, issues := ReadClaims(r.entries);
    ClaimKeys(r.entries);
    var results := StatesOf(claims);
    if claims.Keys != GateIds(m) { issues := issues + [GateSetMismatch]; }
    var unsuited := CheckActivation(r.plan, results);
    issues := issues + unsuited;
    var derived := DeriveGateResults(m, r.plan, r.modules, r.runs, r.artifacts, r.receipts);
    if derived.Err? {
      issues := issues + [Underivable(derived.error)];
    } else {
      var differing := CompareDerived(claims, derived.value);
      issues := issues + differing;
      if claims.Keys == GateIds(m) { ClaimsConfirmed(Evidence(r), m, derived.value, claims); }
    }
    status := DeriveCycleStatus(r.plan, results, r.findings);
    assert StatusIs(r.plan, results, r.findings, status) by { StatusDerived(r.plan, results, r.findings, status); }
    if r.status != StatusName(status) { issues := issues + [StatusMismatch]; }
    if issues == [] { FinishedExactly(m, r, derived.value, status); }
  }

  lemma StatusDerived(plan: E.Plan, results: map<string, string>, findings: seq<Finding>, status: Status)
    requires status == Blocked <==>
      exists id :: id in E.GatesById(plan.gates) && Blocks(E.GatesById(plan.gates)[id], Reported(results, id))
    requires status == Complete <==> status != Blocked && forall f :: f in findings ==> Settled(f)
    ensures StatusIs(plan, results, findings, status)
  {
  }

  lemma FinishedExactly(m: E.Manifest, r: Report, outcomes: seq<GateOutcome>, status: Status)
    requires E.Match(m, r.plan, true, None).Ok? && OutcomesAre(Evidence(r), m, outcomes)
    requires StatusIs(r.plan, StateMap(outcomes), r.findings, status)
    ensures status == Complete <==> Finished(r)
    ensures StatusName(status) == "complete" <==> status == Complete
  {
    hide E.GatesById, E.Match, E.ActiveIn, Evidenced, OutcomesAre, Settled, StateMap;
    assert Evidence(r).plan == r.plan by { PlanOfRecords(r.plan, r.modules, r.runs, r.artifacts, r.receipts); }
    CompleteExactly(m, Evidence(r), outcomes, r.findings, status);
    assert "complete"[0] == 'c' && "blocked"[0] == 'b' && "partial"[0] == 'p';
  }

  lemma PlanOfRecords(plan: E.Plan, modules: seq<Selected>, runs: seq<Run>, artifacts: seq<Artifact>,
                      receipts: seq<Receipt>)
    ensures RecordsOf(plan, modules, runs, artifacts, receipts).plan == plan
  {
  }
}
