/** Gate results derived from a plan, a selection and typed runs; the cycle's status derived from those. */
module GateDerivation {
  import opened Common
  import opened Gates
  import opened ModuleRuns
  import E = Evaluator

  datatype Selected = Selected(id: string, gates: seq<string>, digest: string, instructionDigest: string,
                               outputs: seq<Output>)

  /** `evidence` is only there when the state comes from a run. */
  datatype GateOutcome = GateOutcome(gate: string, state: string, evidence: Option<seq<Ref>>)

  datatype Problem = NotCanonical | DuplicateRun | DuplicateArtifact | DuplicateReceipt

  const NOT_APPLICABLE := "not_applicable"
  const UNKNOWN := "unknown"

  type Runs = map<string, Run>
  type Selection = map<string, Selected>

  // ----- indexing the records -----

  predicate DistinctRuns(runs: seq<Run>) { forall i, j :: 0 <= i < j < |runs| ==> runs[i].moduleId != runs[j].moduleId }
  predicate DistinctArtifacts(items: seq<Artifact>) {
    forall i, j :: 0 <= i < j < |items| ==> items[i].id != items[j].id
  }
  predicate DistinctReceipts(items: seq<Receipt>) { forall i, j :: 0 <= i < j < |items| ==> items[i].id != items[j].id }

  function RunsById(runs: seq<Run>): Runs {
    if runs == [] then map[] else RunsById(runs[..|runs| - 1])[runs[|runs| - 1].moduleId := runs[|runs| - 1]]
  }

  function ArtifactsById(items: seq<Artifact>): Artifacts {
    if items == [] then map[] else ArtifactsById(items[..|items| - 1])[items[|items| - 1].id := items[|items| - 1]]
  }

  function ReceiptsById(items: seq<Receipt>): Receipts {
    if items == [] then map[] else ReceiptsById(items[..|items| - 1])[items[|items| - 1].id := items[|items| - 1]]
  }

  function SelectionById(modules: seq<Selected>): Selection {
    if modules == [] then map[]
    else SelectionById(modules[..|modules| - 1])[modules[|modules| - 1].id := modules[|modules| - 1]]
  }

  lemma {:induction false} RunsKeys(runs: seq<Run>, id: string)
    ensures id in RunsById(runs) <==> exists i :: 0 <= i < |runs| && runs[i].moduleId == id
    ensures id in RunsById(runs) ==> RunsById(runs)[id] in runs && RunsById(runs)[id].moduleId == id
  {
    if runs != [] {
      var front, last := runs[..|runs| - 1], runs[|runs| - 1];
      RunsKeys(front, id);
      assert forall i :: 0 <= i < |front| ==> front[i] == runs[i];
      assert runs == front + [last];
    }
  }

  lemma {:induction false} ArtifactsKeys(items: seq<Artifact>, id: Ref)
    ensures id in ArtifactsById(items) <==> exists i :: 0 <= i < |items| && items[i].id == id
  {
    if items != [] {
      var front, last := items[..|items| - 1], items[|items| - 1];
      ArtifactsKeys(front, id);
      assert forall i :: 0 <= i < |front| ==> front[i] == items[i];
      assert items == front + [last];
    }
  }

  lemma {:induction false} ArtifactsFiled(items: seq<Artifact>)
    ensures FiledById(ArtifactsById(items))
  {
    if items != [] { ArtifactsFiled(items[..|items| - 1]); }
  }

  lemma {:induction false} ReceiptsKeys(items: seq<Receipt>, id: Ref)
    ensures id in ReceiptsById(items) <==> exists i :: 0 <= i < |items| && items[i].id == id
  {
    if items != [] {
      var front, last := items[..|items| - 1], items[|items| - 1];
      ReceiptsKeys(front, id);
      assert forall i :: 0 <= i < |front| ==> front[i] == items[i];
      assert items == front + [last];
    }
  }

  method IndexRuns(runs: seq<Run>) returns (r: Option<Runs>)
    ensures r == if DistinctRuns(runs) then Some(RunsById(runs)) else None
  {
    var byModule: Runs := map[];
    for k := 0 to |runs|
      invariant byModule == RunsById(runs[..k]) && DistinctRuns(runs[..k])
    {
      assert runs[..k + 1][..k] == runs[..k];
      RunsKeys(runs[..k], runs[k].moduleId);
      if runs[k].moduleId in byModule { return None; }
      byModule := byModule[runs[k].moduleId := runs[k]];
    }
    assert runs[..|runs|] == runs;
    r := Some(byModule);
  }

  method IndexArtifacts(items: seq<Artifact>) returns (r: Option<Artifacts>)
    ensures r == if DistinctArtifacts(items) then Some(ArtifactsById(items)) else None
  {
    var byId: Artifacts := map[];
    for k := 0 to |items|
      invariant byId == ArtifactsById(items[..k]) && DistinctArtifacts(items[..k])
    {
      assert items[..k + 1][..k] == items[..k];
      ArtifactsKeys(items[..k], items[k].id);
      if items[k].id in byId { return None; }
      byId := byId[items[k].id := items[k]];
    }
    assert items[..|items|] == items;
    r := Some(byId);
  }

  method IndexReceipts(items: seq<Receipt>) returns (r: Option<Receipts>)
    ensures r == if DistinctReceipts(items) then Some(ReceiptsById(items)) else None
  {
    var byId: Receipts := map[];
    for k := 0 to |items|
      invariant byId == ReceiptsById(items[..k]) && DistinctReceipts(items[..k])
    {
      assert items[..k + 1][..k] == items[..k];
      ReceiptsKeys(items[..k], items[k].id);
      if items[k].id in byId { return None; }
      byId := byId[items[k].id := items[k]];
    }
    assert items[..|items|] == items;
    r := Some(byId);
  }

  // ----- owners -----

  /** How often a module lists a gate; a module that lists it twice counts twice. */
  function Shares(selected: Selection, gate: string, id: string): nat {
    if id in selected then multiset(selected[id].gates)[gate] else 0
  }

  /** One module covers the gate, once, and no other covers it. */
  ghost predicate SoleOwner(selected: Selection, gate: string, id: string) {
    Shares(selected, gate, id) == 1 && forall other :: other != id ==> Shares(selected, gate, other) == 0
  }

  ghost predicate OwnersAre(owners: map<string, seq<string>>, selected: Selection, done: set<string>) {
    forall g, id :: multiset(Listed(owners, g))[id] == if id in done then Shares(selected, g, id) else 0
  }

  function Listed(owners: map<string, seq<string>>, gate: string): seq<string> {
    if gate in owners then owners[gate] else []
  }

  method CollectOwners(selected: Selection) returns (owners: map<string, seq<string>>)
    ensures OwnersAre(owners, selected, selected.Keys)
  {
    hide OwnersAre;
    owners := map[];
    var todo := selected.Keys;
    assert selected.Keys - todo == {};
    assert OwnersAre(owners, selected, {}) by { NoOwners(selected); }
    while todo != {}
      invariant todo <= selected.Keys && OwnersAre(owners, selected, selected.Keys - todo)
      decreases |todo|
    {
      var id :| id in todo;
      owners := AddOwner(selected, selected.Keys - todo, id, owners);
      assert selected.Keys - todo + {id} == selected.Keys - (todo - {id});
      todo := todo - {id};
    }
    assert selected.Keys - {} == selected.Keys;
  }

  lemma NoOwners(selected: Selection)
    ensures OwnersAre(map[], selected, {})
  {
  }

  method AddOwner(selected: Selection, ghost done: set<string>, id: string, owners: map<string, seq<string>>)
    returns (more: map<string, seq<string>>)
    requires id in selected && id !in done && OwnersAre(owners, selected, done)
    ensures OwnersAre(more, selected, done + {id})
  {
    hide PartlyOwned, OwnersAre;
    more := owners;
    var gates := selected[id].gates;
    PartlyEnds(owners, selected, done, id);
    for k := 0 to |gates|
      invariant PartlyOwned(more, selected, done, id, gates[..k])
    {
      assert gates[..k + 1] == gates[..k] + [gates[k]];
      PartlyMore(more, selected, done, id, gates[..k], gates[k]);
      more := more[gates[k] := Listed(more, gates[k]) + [id]];
    }
    assert gates[..|gates|] == gates;
    PartlyEnds(more, selected, done, id);
  }

  /** The owners once the gates in `part` of one more module have been filed. */
  ghost predicate PartlyOwned(more: map<string, seq<string>>, selected: Selection, done: set<string>, id: string,
                              part: seq<string>) {
    forall g, x :: multiset(Listed(more, g))[x] == if x in done then Shares(selected, g, x)
                                                   else if x == id then multiset(part)[g] else 0
  }

  lemma PartlyMore(more: map<string, seq<string>>, selected: Selection, done: set<string>, id: string,
                   part: seq<string>, gate: string)
    requires PartlyOwned(more, selected, done, id, part) && id !in done
    ensures PartlyOwned(more[gate := Listed(more, gate) + [id]], selected, done, id, part + [gate])
  {
    hide Shares;
    var next := more[gate := Listed(more, gate) + [id]];
    forall g, x
      ensures multiset(Listed(next, g))[x] == if x in done then Shares(selected, g, x)
                                              else if x == id then multiset(part + [gate])[g] else 0
    {
      assert multiset(Listed(more, g))[x] == if x in done then Shares(selected, g, x)
                                             else if x == id then multiset(part)[g] else 0;
      if g == gate { assert multiset(Listed(next, g))[x] == multiset(Listed(more, g))[x] + multiset([id])[x]; }
      assert multiset(part + [gate])[g] == multiset(part)[g] + multiset([gate])[g];
    }
  }

  lemma PartlyEnds(owners: map<string, seq<string>>, selected: Selection, done: set<string>, id: string)
    requires id in selected && id !in done
    ensures OwnersAre(owners, selected, done) ==> PartlyOwned(owners, selected, done, id, [])
    ensures PartlyOwned(owners, selected, done, id, selected[id].gates) ==> OwnersAre(owners, selected, done + {id})
  {
  }

  lemma SoleListed(owners: map<string, seq<string>>, selected: Selection, gate: string)
    requires OwnersAre(owners, selected, selected.Keys)
    ensures |Listed(owners, gate)| == 1 ==>
      SoleOwner(selected, gate, Listed(owners, gate)[0]) && Listed(owners, gate)[0] in selected
    ensures |Listed(owners, gate)| != 1 ==> forall id :: !SoleOwner(selected, gate, id)
  {
    var s := Listed(owners, gate);
    if |s| == 1 {
      assert s == [s[0]];
      forall x ensures Shares(selected, gate, x) == if x == s[0] then 1 else 0 {
        assert multiset(s)[x] == if x in selected.Keys then Shares(selected, gate, x) else 0;
      }
    }
    forall id ensures SoleOwner(selected, gate, id) ==> |s| == 1 {
      if SoleOwner(selected, gate, id) { SoleMeansOne(owners, selected, gate, id); }
    }
  }

  lemma SoleMeansOne(owners: map<string, seq<string>>, selected: Selection, gate: string, id: string)
    requires OwnersAre(owners, selected, selected.Keys) && SoleOwner(selected, gate, id)
    ensures |Listed(owners, gate)| == 1
  {
    var s := Listed(owners, gate);
    forall x ensures multiset(s)[x] == if x == id then 1 else 0 {
      assert multiset(s)[x] == if x in selected.Keys then Shares(selected, gate, x) else 0;
    }
    assert multiset(s) == multiset{id};
    assert |multiset(s)| == |s|;
  }

  // ----- module states and gate outcomes -----

  function ContractOf(m: Selected): Contract { Contract(m.id, None, m.outputs, []) }

  /** The run that speaks for a selected module: of this very module, valid and completed. */
  predicate Speaks(run: Run, m: Selected, artifacts: Artifacts, receipts: Receipts) {
    && run.moduleDigest == m.digest && run.instructionDigest == m.instructionDigest && run.status == "completed"
    && RunValid(run, ContractOf(m), artifacts, receipts, Some(m.digest), Some(m.instructionDigest))
  }

  function ModuleState(m: Selected, runs: Runs, artifacts: Artifacts, receipts: Receipts): Option<ModuleResult> {
    if m.id in runs && Speaks(runs[m.id], m, artifacts, receipts) then runs[m.id].result else None
  }

  /** What the loop over the selected modules decides for each of them. */
  method DeriveStates(selected: Selection, runs: Runs, artifacts: Artifacts, receipts: Receipts)
    returns (states: map<string, Option<ModuleResult>>)
    requires forall id :: id in selected ==> selected[id].id == id
    ensures states.Keys == selected.Keys && forall id :: id in selected ==>
      states[id] == ModuleState(selected[id], runs, artifacts, receipts)
  {
    hide RunValid;
    states := map[];
    var todo := selected.Keys;
    while todo != {}
      invariant todo <= selected.Keys && states.Keys == selected.Keys - todo
      invariant forall id :: id in states ==> states[id] == ModuleState(selected[id], runs, artifacts, receipts)
      decreases |todo|
    {
      var id :| id in todo;
      todo := todo - {id};
      var m := selected[id];
      var state: Option<ModuleResult> := None;
      if id in runs && runs[id].moduleDigest == m.digest && runs[id].instructionDigest == m.instructionDigest {
        var valid :=
          ValidateModuleRun(runs[id], ContractOf(m), artifacts, receipts, Some(m.digest), Some(m.instructionDigest));
        if valid && runs[id].status == "completed" { state := runs[id].result; }
      }
      states := states[id := state];
    }
  }

  lemma {:induction false} SelectionIds(modules: seq<Selected>)
    ensures forall id :: id in SelectionById(modules) ==>
      SelectionById(modules)[id].id == id && SelectionById(modules)[id] in modules
  {
    if modules != [] {
      var front := modules[..|modules| - 1];
      SelectionIds(front);
      assert modules == front + [modules[|modules| - 1]];
    }
  }

  /** The records a derivation works on. */
  datatype Records = Records(plan: E.Plan, selected: Selection, runs: Runs, artifacts: Artifacts, receipts: Receipts)

  function Activation(plan: E.Plan, gate: string): Option<GateState> {
    var gates := E.GatesById(plan.gates);
    if gate in gates then Some(gates[gate].state) else None
  }

  /** A module result that speaks for a gate. */
  ghost predicate HasResult(r: Records, gate: string, result: ModuleResult) {
    exists id :: OwnerResult(r, gate, id, result)
  }

  ghost predicate OwnerResult(r: Records, gate: string, id: string, result: ModuleResult) {
    && id in r.selected && SoleOwner(r.selected, gate, id)
    && ModuleState(r.selected[id], r.runs, r.artifacts, r.receipts) == Some(result) && gate in result.gateTrace
  }

  /** The one outcome a gate can have. */
  ghost predicate OutcomeIs(r: Records, gate: string, o: GateOutcome) {
    && o.gate == gate
    && match Activation(r.plan, gate) {
         case Some(Inactive) => o == GateOutcome(gate, NOT_APPLICABLE, None)
         case Some(Active) =>
           && (forall result :: HasResult(r, gate, result) ==>
               o == GateOutcome(gate, result.state, Some(result.evidence)))
           && ((forall result :: !HasResult(r, gate, result)) ==> o == GateOutcome(gate, UNKNOWN, None))
         case _ => o == GateOutcome(gate, UNKNOWN, None)
       }
  }

  method DeriveOutcome(gate: string, activation: Option<GateState>, owners: map<string, seq<string>>,
                       states: map<string, Option<ModuleResult>>, ghost r: Records) returns (o: GateOutcome)
    requires OwnersAre(owners, r.selected, r.selected.Keys) && activation == Activation(r.plan, gate)
    requires states.Keys == r.selected.Keys
    requires forall id :: id in r.selected ==>
      states[id] == ModuleState(r.selected[id], r.runs, r.artifacts, r.receipts)
    ensures OutcomeIs(r, gate, o)
  {
    hide OwnersAre, ModuleState, SoleOwner, Activation;
    if activation == Some(Inactive) { return GateOutcome(gate, NOT_APPLICABLE, None); }
    if activation != Some(Active) { return GateOutcome(gate, UNKNOWN, None); }
    var owned := Listed(owners, gate);
    SoleListed(owners, r.selected, gate);
    if |owned| != 1 { return GateOutcome(gate, UNKNOWN, None); }
    OneOwner(r, gate, owned[0]);
    var result := states[owned[0]];
    if result.None? || gate !in result.value.gateTrace { return GateOutcome(gate, UNKNOWN, None); }
    assert OwnerResult(r, gate, owned[0], result.value);
    assert HasResult(r, gate, result.value);
    return GateOutcome(gate, result.value.state, Some(result.value.evidence));
  }

  lemma OneOwner(r: Records, gate: string, id: string)
    requires SoleOwner(r.selected, gate, id)
    ensures forall result :: HasResult(r, gate, result) ==> OwnerResult(r, gate, id, result)
  {
    forall result | HasResult(r, gate, result) ensures OwnerResult(r, gate, id, result) {
      var other :| OwnerResult(r, gate, other, result);
      assert Shares(r.selected, gate, other) == 1;
    }
  }

  /** The records of a report, each kind filed by id. */
  function RecordsOf(plan: E.Plan, modules: seq<Selected>, runs: seq<Run>, artifacts: seq<Artifact>,
                     receipts: seq<Receipt>): Records {
    Records(plan, SelectionById(modules), RunsById(runs), ArtifactsById(artifacts), ReceiptsById(receipts))
  }

  lemma RecordsFiled(plan: E.Plan, modules: seq<Selected>, runs: seq<Run>, artifacts: seq<Artifact>,
                     receipts: seq<Receipt>)
    ensures FiledById(RecordsOf(plan, modules, runs, artifacts, receipts).artifacts)
  {
    ArtifactsFiled(artifacts);
  }

  /** One outcome for every gate of the manifest, in its order. */
  ghost predicate OutcomesAre(r: Records, m: E.Manifest, outcomes: seq<GateOutcome>) {
    |outcomes| == |m.gates| && forall k :: 0 <= k < |m.gates| ==> OutcomeIs(r, m.gates[k].id, outcomes[k])
  }

  method DeriveGateResults(m: E.Manifest, plan: E.Plan, modules: seq<Selected>, runs: seq<Run>,
                           artifacts: seq<Artifact>, receipts: seq<Receipt>)
    returns (r: Result<seq<GateOutcome>, Problem>)
    ensures r.Ok? <==>
      E.Match(m, plan, true, None).Ok? && DistinctRuns(runs) && DistinctArtifacts(artifacts)
      && DistinctReceipts(receipts)
    ensures r.Ok? ==> OutcomesAre(RecordsOf(plan, modules, runs, artifacts, receipts), m, r.value)
  {
    hide E.Match, OutcomeIs, OwnersAre, ModuleState, DistinctRuns, DistinctArtifacts, DistinctReceipts, E.GatesById;
    var matched := E.AssertPlanMatches(m, plan, true, None);
    if matched.Err? { return Err(NotCanonical); }
    var runMap := IndexRuns(runs);
    if runMap.None? { return Err(DuplicateRun); }
    var artifactMap := IndexArtifacts(artifacts);
    if artifactMap.None? { return Err(DuplicateArtifact); }
    var receiptMap := IndexReceipts(receipts);
    if receiptMap.None? { return Err(DuplicateReceipt); }
    var selected := SelectionById(modules);
    SelectionIds(modules);
    var owners := CollectOwners(selected);
    var states := DeriveStates(selected, runMap.value, artifactMap.value, receiptMap.value);
    ghost var records := Records(plan, selected, runMap.value, artifactMap.value, receiptMap.value);
    var results: seq<GateOutcome> := [];
    for k := 0 to |m.gates|
      invariant |results| == k && forall i :: 0 <= i < k ==> OutcomeIs(records, m.gates[i].id, results[i])
    {
      var o := DeriveOutcome(m.gates[k].id, Activation(plan, m.gates[k].id), owners, states, records);
      results := results + [o];
    }
    r := Ok(results);
  }
}
