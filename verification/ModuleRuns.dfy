/** Typed module runs: the artifacts, receipts and results a run has to carry before it counts as evidence. */
module ModuleRuns {
  import opened Common

  // ----- references; an artifact id is the artifact it was computed from -----

  datatype Ref =
    | Src(text: string) | Clm(text: string) | Vrf(text: string)
    | ArtOf(subject: Subject)
    | ArtText(text: string)  // a well-formed artifact id that is the digest of nothing
    | Junk(text: string)

  datatype Subject = Subject(
    schemaRef: string, producerModule: string, producerRun: RunId, outputId: string, payload: Payload,
    taintState: string, sources: seq<Ref>, receipts: seq<Ref>)

  datatype Payload = Decision(result: ModuleResult) | OtherObject(text: string) | NotAnObject

  datatype Artifact = Artifact(id: Ref, subject: Subject)

  datatype Receipt = Receipt(id: Ref, verdict: string)

  // ----- runs -----

  datatype RunId = RunOf(identity: RunIdentity) | OtherRun(text: string)

  datatype RunIdentity = RunIdentity(
    moduleId: string, moduleDigest: string, instructionDigest: string, status: string, started: Moment,
    inputs: seq<Ref>, receipts: seq<Ref>)

  datatype Moment = At(instant: int) | Unreadable(text: string)

  datatype ModuleResult = ModuleResult(
    moduleId: string, runId: RunId, gateTrace: seq<string>, evidence: seq<Ref>, state: string, rest: string)

  datatype Failure = Failure(moduleId: string, runId: RunId, code: string, message: string)

  datatype Run = Run(
    id: RunId, moduleId: string, moduleDigest: string, instructionDigest: string, status: string,
    started: Moment, finished: Moment, inputs: seq<Ref>, outputs: seq<Ref>, receipts: seq<Ref>,
    result: Option<ModuleResult>, failure: Option<Failure>)

  datatype Output = Output(id: string, schemaRef: string, cardinality: string, requiredWhen: string)

  datatype Input = Input(outputId: string, schemaRef: string, required: bool)

  datatype Contract = Contract(id: string, instructionDigest: Option<string>, outputs: seq<Output>, inputs: seq<Input>)

  type Artifacts = map<Ref, Artifact>
  type Receipts = map<Ref, Receipt>

  const DECISION := "module_decision"

  // ----- receipts and artifacts -----

  predicate Successful(ref: Ref, receipts: Receipts) { ref in receipts && receipts[ref].verdict == "validated" }

  predicate AllSuccessful(refs: seq<Ref>, receipts: Receipts) {
    forall ref :: ref in refs ==> Successful(ref, receipts)
  }

  /** What indexing a list of artifacts yields. */
  ghost predicate FiledById(artifacts: Artifacts) { forall ref :: ref in artifacts ==> artifacts[ref].id == ref }

  predicate ArtifactValid(a: Artifact, receipts: Receipts) {
    && a.id == ArtOf(a.subject) && !a.subject.payload.NotAnObject?
    && (forall ref :: ref in a.subject.sources ==> ref.Src?) && Unique(a.subject.sources)
    && (forall ref :: ref in a.subject.receipts ==> ref.Vrf?) && Unique(a.subject.receipts)
    && (a.subject.taintState in {"validated", "human_approved"} ==> a.subject.receipts != [])
    && AllSuccessful(a.subject.receipts, receipts)
  }

  method ValidateReceipts(refs: seq<Ref>, receipts: Receipts) returns (ok: bool)
    ensures ok <==> AllSuccessful(refs, receipts)
  {
    for k := 0 to |refs|
      invariant forall i :: 0 <= i < k ==> Successful(refs[i], receipts)
    {
      assert refs[k] in refs;
      if refs[k] !in receipts { return false; }
      if receipts[refs[k]].verdict != "validated" { return false; }
    }
    ok := true;
  }

  method ValidateArtifact(a: Artifact, receipts: Receipts) returns (ok: bool)
    ensures ok <==> ArtifactValid(a, receipts)
  {
    hide AllSuccessful;
    if a.id != ArtOf(a.subject) || a.subject.payload.NotAnObject? { return false; }
    if (exists ref | ref in a.subject.sources :: !ref.Src?) || !Unique(a.subject.sources) { return false; }
    if (exists ref | ref in a.subject.receipts :: !ref.Vrf?) || !Unique(a.subject.receipts) { return false; }
    if a.subject.taintState in {"validated", "human_approved"} && a.subject.receipts == [] { return false; }
    ok := ValidateReceipts(a.subject.receipts, receipts);
  }

  // ----- what a valid run is -----

  predicate InputsValid(run: Run, c: Contract, artifacts: Artifacts, receipts: Receipts) {
    && Unique(run.inputs)
    && (forall ref :: ref in run.inputs ==> ref in artifacts && ArtifactValid(artifacts[ref], receipts))
    && (forall d :: d in c.inputs ==> InputPresent(run, d, artifacts))
  }

  /** The input offered under an output id; of several the last one counts. */
  function Offered(inputs: seq<Ref>, outputId: string, artifacts: Artifacts): Option<Artifact> {
    if inputs == [] then None
    else
      var last := inputs[|inputs| - 1];
      if last in artifacts && artifacts[last].subject.outputId == outputId then Some(artifacts[last])
      else Offered(inputs[..|inputs| - 1], outputId, artifacts)
  }

  predicate InputPresent(run: Run, d: Input, artifacts: Artifacts) {
    var a := Offered(run.inputs, d.outputId, artifacts);
    if a.Some? then a.value.subject.schemaRef == d.schemaRef else !d.required
  }

  /** The artifacts among `refs` that were produced under an output id. */
  function Produced(refs: seq<Ref>, outputId: string, artifacts: Artifacts): seq<Artifact> {
    if refs == [] then []
    else
      var front := Produced(refs[..|refs| - 1], outputId, artifacts);
      var last := refs[|refs| - 1];
      if last in artifacts && artifacts[last].subject.outputId == outputId then front + [artifacts[last]] else front
  }

  predicate OutputOwned(run: Run, c: Contract, ref: Ref, artifacts: Artifacts, receipts: Receipts) {
    && ref in artifacts && ArtifactValid(artifacts[ref], receipts)
    && artifacts[ref].subject.producerRun == run.id && artifacts[ref].subject.producerModule == c.id
    && exists d :: d in c.outputs && d.id == artifacts[ref].subject.outputId
  }

  predicate OutputMeets(run: Run, d: Output, artifacts: Artifacts) {
    var items := Produced(run.outputs, d.id, artifacts);
    && (d.cardinality == "one" ==> |items| <= 1)
    && (d.requiredWhen == "completed" && run.status == "completed" ==> items != [])
    && forall a :: a in items ==> a.subject.schemaRef == d.schemaRef
  }

  predicate OutputIdsUnique(c: Contract) {
    forall i, j :: 0 <= i < j < |c.outputs| ==> c.outputs[i].id != c.outputs[j].id
  }

  predicate OutputsValid(run: Run, c: Contract, artifacts: Artifacts, receipts: Receipts) {
    && OutputIdsUnique(c) && Unique(run.outputs)
    && (forall ref :: ref in run.outputs ==> OutputOwned(run, c, ref, artifacts, receipts))
    && (forall d :: d in c.outputs ==> OutputMeets(run, d, artifacts))
  }

  predicate GateText(text: string) { |text| >= 3 && text[..3] == "HG-" }

  predicate ResultValid(run: Run, c: Contract, artifacts: Artifacts) {
    && run.result.Some?
    && var r := run.result.value;
    && r.moduleId == c.id && r.runId == run.id
    && r.gateTrace != [] && (forall g :: g in r.gateTrace ==> GateText(g))
    && (forall ref :: ref in r.evidence ==> !ref.Junk?) && Unique(r.evidence)
    && r.state in {"pass", "fail", "unknown"}
    && Decided(Produced(run.outputs, DECISION, artifacts), r)
    && (r.state == "pass" ==> r.evidence != [] && run.receipts != [] && EvidenceKnown(r.evidence, artifacts))
  }

  /** Exactly one decision was produced, and it is the result. */
  predicate Decided(decisions: seq<Artifact>, r: ModuleResult) {
    |decisions| == 1 && decisions[0].subject.payload == Decision(r)
  }

  predicate EvidenceKnown(evidence: seq<Ref>, artifacts: Artifacts) {
    forall ref :: ref in evidence && (ref.ArtOf? || ref.ArtText?) ==> ref in artifacts
  }

  predicate FailureValid(run: Run, c: Contract) {
    && run.failure.Some? && run.failure.value.moduleId == c.id && run.failure.value.runId == run.id
    && run.failure.value.code != "" && run.failure.value.message != ""
  }

  function IdentityOf(run: Run): RunIdentity {
    RunIdentity(run.moduleId, run.moduleDigest, run.instructionDigest, run.status, run.started, run.inputs,
                run.receipts)
  }

  predicate Bound(run: Run, c: Contract, moduleDigest: Option<string>, instructionDigest: Option<string>) {
    && run.id == RunOf(IdentityOf(run)) && run.moduleId == c.id
    && (c.instructionDigest.Some? ==> run.instructionDigest == c.instructionDigest.value)
    && (moduleDigest.Some? ==> run.moduleDigest == moduleDigest.value)
    && (instructionDigest.Some? ==> run.instructionDigest == instructionDigest.value)
    && run.status in {"completed", "failed", "blocked"}
    && run.started.At? && run.finished.At? && run.started.instant <= run.finished.instant
  }

  /** Everything a run has to satisfy against its contract, its artifacts and its receipts. */
  predicate RunValid(run: Run, c: Contract, artifacts: Artifacts, receipts: Receipts, moduleDigest: Option<string>,
                     instructionDigest: Option<string>) {
    && Bound(run, c, moduleDigest, instructionDigest)
    && AllSuccessful(run.receipts, receipts)
    && InputsValid(run, c, artifacts, receipts)
    && OutputsValid(run, c, artifacts, receipts)
    && (if run.status == "completed" then ResultValid(run, c, artifacts) else FailureValid(run, c))
  }

  // ----- the checks as they are made -----

  method CheckInputs(run: Run, c: Contract, artifacts: Artifacts, receipts: Receipts) returns (ok: bool)
    ensures ok <==> InputsValid(run, c, artifacts, receipts)
  {
    hide ArtifactValid, Unique;
    if !Unique(run.inputs) { return false; }
    var byOutput := IndexInputs(run.inputs, artifacts);
    for k := 0 to |c.inputs|
      invariant forall i :: 0 <= i < k ==> InputPresent(run, c.inputs[i], artifacts)
    {
      var d := c.inputs[k];
      assert d in c.inputs;
      if d.required && d.outputId !in byOutput { return false; }
      if d.outputId in byOutput && byOutput[d.outputId].subject.schemaRef != d.schemaRef { return false; }
    }
    for k := 0 to |run.inputs|
      invariant forall i :: 0 <= i < k ==>
        run.inputs[i] in artifacts && ArtifactValid(artifacts[run.inputs[i]], receipts)
    {
      if run.inputs[k] !in artifacts { return false; }
      var valid := ValidateArtifact(artifacts[run.inputs[k]], receipts);
      if !valid { return false; }
    }
    ok := true;
  }

  /** The known inputs by output id, later ones replacing earlier ones. */
  method IndexInputs(inputs: seq<Ref>, artifacts: Artifacts) returns (byOutput: map<string, Artifact>)
    ensures forall o :: Offered(inputs, o, artifacts) == if o in byOutput then Some(byOutput[o]) else None
  {
    byOutput := map[];
    for k := 0 to |inputs|
      invariant forall o :: Offered(inputs[..k], o, artifacts) == if o in byOutput then Some(byOutput[o]) else None
    {
      assert inputs[..k + 1][..k] == inputs[..k];
      if inputs[k] in artifacts {
        byOutput := byOutput[artifacts[inputs[k]].subject.outputId := artifacts[inputs[k]]];
      }
    }
    assert inputs[..|inputs|] == inputs;
  }

  /** The outputs by output id: `made` holds what was produced under every id that occurs. */
  ghost predicate Lists(made: map<string, seq<Artifact>>, refs: seq<Ref>, artifacts: Artifacts) {
    && (forall o :: o in made ==> made[o] != [])
    && (forall o :: Produced(refs, o, artifacts) == if o in made then made[o] else [])
  }

  ghost predicate OnesHold(c: Contract, refs: seq<Ref>, artifacts: Artifacts) {
    forall d :: d in c.outputs && d.cardinality == "one" ==> |Produced(refs, d.id, artifacts)| <= 1
  }

  method CheckOutputs(run: Run, c: Contract, artifacts: Artifacts, receipts: Receipts)
    returns (ok: bool, made: map<string, seq<Artifact>>)
    ensures ok <==> OutputsValid(run, c, artifacts, receipts)
    ensures ok ==> Lists(made, run.outputs, artifacts)
  {
    hide ArtifactValid, Unique, OutputMeets, OutputOwned, Lists, Produced, OutputIdsUnique, OnesHold;
    made := map[];
    if !OutputIdsUnique(c) || !Unique(run.outputs) { return false, made; }
    ListsNothing(c, artifacts);
    for k := 0 to |run.outputs|
      invariant forall i :: 0 <= i < k ==> OutputOwned(run, c, run.outputs[i], artifacts, receipts)
      invariant Lists(made, run.outputs[..k], artifacts) && OnesHold(c, run.outputs[..k], artifacts)
    {
      var ref := run.outputs[k];
      var owned := CheckOwned(run, c, ref, artifacts, receipts);
      if !owned { return false, made; }
      assert ref in artifacts by { OwnedKnown(run, c, ref, artifacts, receipts); }
      var o := artifacts[ref].subject.outputId;
      var one := IsOne(c, o);
      OneMore(run, c, made, k, artifacts);
      if o in made && one { return false, made; }
      made := made[o := (if o in made then made[o] else []) + [artifacts[ref]]];
    }
    assert run.outputs[..|run.outputs|] == run.outputs;
    ok := CheckMeets(run, c, artifacts, made);
  }

  /** The checks that wait until all outputs are known. */
  method CheckMeets(run: Run, c: Contract, artifacts: Artifacts, made: map<string, seq<Artifact>>) returns (ok: bool)
    requires Lists(made, run.outputs, artifacts) && OnesHold(c, run.outputs, artifacts)
    ensures ok <==> forall d :: d in c.outputs ==> OutputMeets(run, d, artifacts)
  {
    hide Produced;
    for k := 0 to |c.outputs|
      invariant forall i :: 0 <= i < k ==> OutputMeets(run, c.outputs[i], artifacts)
    {
      var d := c.outputs[k];
      assert d in c.outputs;
      if d.requiredWhen == "completed" && run.status == "completed" && d.id !in made { return false; }
      var items := if d.id in made then made[d.id] else [];
      assert items == Produced(run.outputs, d.id, artifacts);
      if exists a | a in items :: a.subject.schemaRef != d.schemaRef { return false; }
    }
    ok := true;
  }

  method CheckOwned(run: Run, c: Contract, ref: Ref, artifacts: Artifacts, receipts: Receipts) returns (ok: bool)
    ensures ok <==> OutputOwned(run, c, ref, artifacts, receipts)
  {
    hide ArtifactValid;
    if ref !in artifacts { return false; }
    var a := artifacts[ref];
    ok := ValidateArtifact(a, receipts);
    if !ok { return; }
    if a.subject.producerRun != run.id || a.subject.producerModule != c.id { return false; }
    ok := exists d | d in c.outputs :: d.id == a.subject.outputId;
  }

  lemma OwnedKnown(run: Run, c: Contract, ref: Ref, artifacts: Artifacts, receipts: Receipts)
    requires OutputOwned(run, c, ref, artifacts, receipts)
    ensures ref in artifacts && exists d :: d in c.outputs && d.id == artifacts[ref].subject.outputId
  {
  }

  /** Whether the contract allows only one output of this id. */
  method IsOne(c: Contract, o: string) returns (one: bool)
    ensures one <==> exists d :: d in c.outputs && d.id == o && d.cardinality == "one"
  {
    one := exists d | d in c.outputs :: d.id == o && d.cardinality == "one";
  }

  lemma ListsNothing(c: Contract, artifacts: Artifacts)
    ensures Lists(map[], [], artifacts) && OnesHold(c, [], artifacts)
  {
  }

  /** One more output: either it is filed, or it is a second one where the contract allows one. */
  lemma OneMore(run: Run, c: Contract, made: map<string, seq<Artifact>>, k: nat, artifacts: Artifacts)
    requires k < |run.outputs| && run.outputs[k] in artifacts
    requires Lists(made, run.outputs[..k], artifacts) && OnesHold(c, run.outputs[..k], artifacts)
    ensures var o := artifacts[run.outputs[k]].subject.outputId;
            var one := exists d :: d in c.outputs && d.id == o && d.cardinality == "one";
            && Lists(made[o := (if o in made then made[o] else []) + [artifacts[run.outputs[k]]]], run.outputs[..k + 1],
                     artifacts)
            && (o in made && one ==> exists d :: d in c.outputs && !OutputMeets(run, d, artifacts))
            && (!(o in made && one) ==> OnesHold(c, run.outputs[..k + 1], artifacts))
  {
    hide OutputMeets, Lists, OnesHold;
    var o := artifacts[run.outputs[k]].subject.outputId;
    FiledMore(made, run.outputs, k, artifacts);
    if !(o in made && exists d :: d in c.outputs && d.id == o && d.cardinality == "one") {
      OnesMore(c, made, run.outputs, k, artifacts);
    }
    if o in made && exists d :: d in c.outputs && d.id == o && d.cardinality == "one" {
      assert Produced(run.outputs[..k], o, artifacts) != [] by { FiledSome(made, run.outputs[..k], artifacts, o); }
      CardinalityFails(run, c, k, artifacts);
    }
  }

  lemma FiledMore(made: map<string, seq<Artifact>>, refs: seq<Ref>, k: nat, artifacts: Artifacts)
    requires k < |refs| && refs[k] in artifacts && Lists(made, refs[..k], artifacts)
    ensures var o := artifacts[refs[k]].subject.outputId;
            Lists(made[o := (if o in made then made[o] else []) + [artifacts[refs[k]]]], refs[..k + 1], artifacts)
  {
    assert refs[..k + 1][..k] == refs[..k];
  }

  lemma FiledSome(made: map<string, seq<Artifact>>, refs: seq<Ref>, artifacts: Artifacts, o: string)
    requires Lists(made, refs, artifacts) && o in made
    ensures Produced(refs, o, artifacts) != []
  {
  }

  lemma OnesMore(c: Contract, made: map<string, seq<Artifact>>, refs: seq<Ref>, k: nat, artifacts: Artifacts)
    requires k < |refs| && refs[k] in artifacts && Lists(made, refs[..k], artifacts)
      && OnesHold(c, refs[..k], artifacts)
    requires var o := artifacts[refs[k]].subject.outputId;
             !(o in made && exists d :: d in c.outputs && d.id == o && d.cardinality == "one")
    ensures OnesHold(c, refs[..k + 1], artifacts)
  {
    assert refs[..k + 1][..k] == refs[..k];
  }

  lemma {:induction false} ProducedGrows(refs: seq<Ref>, k: nat, o: string, artifacts: Artifacts)
    requires k <= |refs|
    ensures |Produced(refs[..k], o, artifacts)| <= |Produced(refs, o, artifacts)|
    decreases |refs|
  {
    if k == |refs| {
      assert refs[..k] == refs;
    } else {
      assert refs[..|refs| - 1][..k] == refs[..k];
      ProducedGrows(refs[..|refs| - 1], k, o, artifacts);
    }
  }

  /** A second artifact under an id that allows one. */
  lemma CardinalityFails(run: Run, c: Contract, k: nat, artifacts: Artifacts)
    requires k < |run.outputs| && run.outputs[k] in artifacts
    requires var o := artifacts[run.outputs[k]].subject.outputId;
             Produced(run.outputs[..k], o, artifacts) != [] && exists d ::
               d in c.outputs && d.id == o && d.cardinality == "one"
    ensures exists d :: d in c.outputs && !OutputMeets(run, d, artifacts)
  {
    var o := artifacts[run.outputs[k]].subject.outputId;
    var d :| d in c.outputs && d.id == o && d.cardinality == "one";
    assert run.outputs[..k + 1][..k] == run.outputs[..k];
    ProducedGrows(run.outputs, k + 1, o, artifacts);
    assert !OutputMeets(run, d, artifacts);
  }

  method CheckResult(run: Run, c: Contract, artifacts: Artifacts, made: map<string, seq<Artifact>>) returns (ok: bool)
    requires Lists(made, run.outputs, artifacts)
    ensures ok <==> ResultValid(run, c, artifacts)
  {
    hide Unique, Produced, GateText;
    if run.result.None? { return false; }
    var r := run.result.value;
    if r.moduleId != c.id || r.runId != run.id { return false; }
    if r.gateTrace == [] { return false; }
    if exists g | g in r.gateTrace :: !GateText(g) { return false; }
    if (exists ref | ref in r.evidence :: ref.Junk?) || !Unique(r.evidence) { return false; }
    if r.state !in {"pass", "fail", "unknown"} { return false; }
    var decisions := if DECISION in made then made[DECISION] else [];
    assert decisions == Produced(run.outputs, DECISION, artifacts);
    if |decisions| != 1 { return false; }
    if decisions[0].subject.payload != Decision(r) { return false; }
    if r.state == "pass" {
      if r.evidence == [] || run.receipts == [] { return false; }
      if exists ref | ref in r.evidence :: (ref.ArtOf? || ref.ArtText?) && ref !in artifacts { return false; }
    }
    ok := true;
  }

  /** Accepts exactly the valid runs. */
  method ValidateModuleRun(run: Run, c: Contract, artifacts: Artifacts, receipts: Receipts,
                           moduleDigest: Option<string>, instructionDigest: Option<string>) returns (ok: bool)
    ensures ok <==> RunValid(run, c, artifacts, receipts, moduleDigest, instructionDigest)
  {
    hide InputsValid, OutputsValid, ResultValid, AllSuccessful, Lists;
    if run.id != RunOf(IdentityOf(run)) { return false; }
    if run.moduleId != c.id { return false; }
    if c.instructionDigest.Some? && run.instructionDigest != c.instructionDigest.value { return false; }
    if moduleDigest.Some? && run.moduleDigest != moduleDigest.value { return false; }
    if instructionDigest.Some? && run.instructionDigest != instructionDigest.value { return false; }
    if run.status !in {"completed", "failed", "blocked"} { return false; }
    if !(run.started.At? && run.finished.At? && run.started.instant <= run.finished.instant) { return false; }
    ok := ValidateReceipts(run.receipts, receipts);
    if !ok { return; }
    ok := CheckInputs(run, c, artifacts, receipts);
    if !ok { return; }
    var made;
    ok, made := CheckOutputs(run, c, artifacts, receipts);
    if !ok { return; }
    if run.status == "completed" {
      ok := CheckResult(run, c, artifacts, made);
    } else {
      ok := FailureValid(run, c);
    }
  }

  // ----- what a valid run carries -----

  predicate Under(ref: Ref, outputId: string, artifacts: Artifacts) {
    ref in artifacts && artifacts[ref].subject.outputId == outputId
  }

  lemma {:induction false} ProducedSome(refs: seq<Ref>, outputId: string, artifacts: Artifacts)
    ensures Produced(refs, outputId, artifacts) != [] <==>
      exists i :: 0 <= i < |refs| && Under(refs[i], outputId, artifacts)
    ensures forall a :: a in Produced(refs, outputId, artifacts) <==>
      exists i :: 0 <= i < |refs| && Under(refs[i], outputId, artifacts) && artifacts[refs[i]] == a
  {
    if refs != [] {
      var front := refs[..|refs| - 1];
      ProducedSome(front, outputId, artifacts);
      assert forall i :: 0 <= i < |front| ==> front[i] == refs[i];
    }
  }

  lemma {:induction false} ProducedTwice(refs: seq<Ref>, outputId: string, artifacts: Artifacts, i: nat, j: nat)
    requires i < j < |refs| && Under(refs[i], outputId, artifacts) && Under(refs[j], outputId, artifacts)
    ensures |Produced(refs, outputId, artifacts)| >= 2
  {
    var front := refs[..|refs| - 1];
    if j < |front| { ProducedTwice(front, outputId, artifacts, i, j); } else {
      ProducedSome(front, outputId, artifacts);
      assert Under(front[i], outputId, artifacts);
    }
  }

  /**
   * A valid run carries its evidence: every artifact it names is there with successful receipts and, where artifacts
   * are filed under their ids, under the id of its own content; its outputs are its own, a required output is there
   * when it completed, and no single output is there twice.
   */
  lemma ValidRunCarries(run: Run, c: Contract, artifacts: Artifacts, receipts: Receipts, moduleDigest: Option<string>,
                        instructionDigest: Option<string>)
    requires RunValid(run, c, artifacts, receipts, moduleDigest, instructionDigest)
    ensures forall ref :: ref in run.inputs + run.outputs ==>
              ref in artifacts && artifacts[ref].id == ArtOf(artifacts[ref].subject)
                && AllSuccessful(artifacts[ref].subject.receipts, receipts)
    ensures FiledById(artifacts) ==> forall ref :: ref in run.inputs + run.outputs ==>
      ref == ArtOf(artifacts[ref].subject)
    ensures forall ref :: ref in run.outputs ==>
      artifacts[ref].subject.producerRun == RunOf(IdentityOf(run)) && artifacts[ref].subject.producerModule == c.id
    ensures forall d :: d in c.outputs && d.requiredWhen == "completed" && run.status == "completed" ==>
              exists i ::
                0 <= i < |run.outputs| && Under(run.outputs[i], d.id, artifacts)
                && artifacts[run.outputs[i]].subject.schemaRef == d.schemaRef
    ensures forall d, i, j :: d in c.outputs && d.cardinality == "one" && 0 <= i < j < |run.outputs| ==>
              !(Under(run.outputs[i], d.id, artifacts) && Under(run.outputs[j], d.id, artifacts))
  {
    hide ResultValid, Produced, Unique, OutputIdsUnique, AllSuccessful, GateText, InputPresent;
    forall d | d in c.outputs && d.requiredWhen == "completed" && run.status == "completed"
      ensures exists i ::
        0 <= i < |run.outputs| && Under(run.outputs[i], d.id, artifacts)
        && artifacts[run.outputs[i]].subject.schemaRef == d.schemaRef
    {
      ProducedSome(run.outputs, d.id, artifacts);
      assert OutputMeets(run, d, artifacts);
      var i :| 0 <= i < |run.outputs| && Under(run.outputs[i], d.id, artifacts);
      assert artifacts[run.outputs[i]] in Produced(run.outputs, d.id, artifacts);
    }
    forall d, i, j | d in c.outputs && d.cardinality == "one" && 0 <= i < j < |run.outputs|
      ensures !(Under(run.outputs[i], d.id, artifacts) && Under(run.outputs[j], d.id, artifacts))
    {
      assert OutputMeets(run, d, artifacts);
      if Under(run.outputs[i], d.id, artifacts) && Under(run.outputs[j], d.id, artifacts) {
        ProducedTwice(run.outputs, d.id, artifacts, i, j);
      }
    }
  }
}
