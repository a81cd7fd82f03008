/** The module router: repository checks, selection, dependency closure, conflicts and disclosure budgets. */
module ModuleRouter {
  import opened Common
  import opened Gates
  import opened Ordering
  import opened ModuleGraph
  import opened RouteOrder

  datatype Policy = AnyActiveGate | AllGatesActive

  datatype Module = Module(
    gates: seq<string>,
    policy: Policy,
    dependencies: seq<string>,
    conflicts: seq<string>,
    phases: seq<string>,
    priority: int,
    tokens: nat,
    outputs: seq<Output>,
    inputs: seq<Input>)

  datatype Output = Output(id: string, schema: string)
  datatype Input = Input(output: string, schema: string, required: bool)

  type Repository = map<string, Module>

  /** The gates the registry wants covered: those it names and, when it calls itself complete, all of the manifest. */
  datatype Registry = Registry(required: seq<string>, complete: bool, manifest: seq<string>)

  datatype Issue =
    | SharedGate(gate: string)
    | UnknownDependency(owner: string, dependency: string)
    | UnknownConflict(owner: string, conflict: string)
    | AsymmetricConflict(owner: string, conflict: string)
    | NoProducer(owner: string, output: string)
    | IncompatibleInput(owner: string, output: string)
    | DependencyCycle(cycle: seq<string>)
    | RequiredUncovered
    | ManifestUncovered

  function DependencyGraph(modules: Repository): Graph {
    map id | id in modules :: modules[id].dependencies
  }

  // ----- repository checks -----

  ghost predicate DependenciesKnown(modules: Repository) {
    forall id, d :: id in modules && d in modules[id].dependencies ==> d in modules
  }

  ghost predicate ConflictsSymmetric(modules: Repository) {
    forall id, c :: id in modules && c in modules[id].conflicts ==> c in modules && id in modules[c].conflicts
  }

  ghost predicate GatesOwnedOnce(modules: Repository) {
    forall a, b, g :: a in modules && b in modules && g in modules[a].gates && g in modules[b].gates ==> a == b
  }

  /** The schemas in which some dependency puts out an artifact. */
  function Offered(modules: Repository, dependencies: seq<string>, output: string): set<string> {
    set d, o | d in dependencies && d in modules && o in modules[d].outputs && o.id == output :: o.schema
  }

  /** A required input has a producer, and an input with producers accepts the schema of one of them. */
  predicate InputMet(offered: set<string>, input: Input) {
    (input.required ==> offered != {}) && (offered != {} ==> input.schema in offered)
  }

  predicate InputsMetBy(modules: Repository, m: Module) {
    forall i | i in m.inputs :: InputMet(Offered(modules, m.dependencies, i.output), i)
  }

  ghost predicate InputsMet(modules: Repository) {
    forall id :: id in modules ==> InputsMetBy(modules, modules[id])
  }

  ghost predicate Covered(modules: Repository, gate: string) {
    exists id :: id in modules && gate in modules[id].gates
  }

  ghost predicate CoverageMet(modules: Repository, registry: Registry) {
    && (forall g :: g in registry.required ==> Covered(modules, g))
    && (registry.complete ==> forall g :: g in registry.manifest ==> Covered(modules, g))
  }

  /** What a repository without issues guarantees. */
  ghost predicate Validated(modules: Repository, registry: Registry) {
    && DependenciesKnown(modules) && ConflictsSymmetric(modules) && GatesOwnedOnce(modules)
    && InputsMet(modules) && CoverageMet(modules, registry) && Acyclic(DependencyGraph(modules))
  }

  function SchemasIn(outputs: seq<Output>, output: string): set<string> {
    set o | o in outputs && o.id == output :: o.schema
  }

  function Held(table: map<string, set<string>>, key: string): set<string> { if key in table then table[key] else {} }

  /** What the dependencies put out, filed by artifact. */
  method GatherOutputs(modules: Repository, dependencies: seq<string>) returns (table: map<string, set<string>>)
    ensures forall o :: Held(table, o) == Offered(modules, dependencies, o)
  {
    table := map[];
    for k := 0 to |dependencies|
      invariant forall o :: Held(table, o) == Offered(modules, dependencies[..k], o)
    {
      assert dependencies[..k + 1] == dependencies[..k] + [dependencies[k]];
      if dependencies[k] in modules {
        ghost var before := table;
        table := FileOutputs(modules[dependencies[k]].outputs, table);
        forall o ensures Held(table, o) == Offered(modules, dependencies[..k + 1], o) {
          OfferedMore(modules, dependencies[..k], dependencies[k], o);
        }
      } else {
        forall o ensures Offered(modules, dependencies[..k + 1], o) == Offered(modules, dependencies[..k], o) {}
      }
    }
    assert dependencies[..|dependencies|] == dependencies;
  }

  method FileOutputs(outputs: seq<Output>, table: map<string, set<string>>) returns (more: map<string, set<string>>)
    ensures forall o :: Held(more, o) == Held(table, o) + SchemasIn(outputs, o)
  {
    more := table;
    for j := 0 to |outputs|
      invariant forall o :: Held(more, o) == Held(table, o) + SchemasIn(outputs[..j], o)
    {
      assert outputs[..j + 1] == outputs[..j] + [outputs[j]];
      forall o
        ensures SchemasIn(outputs[..j + 1], o) ==
        SchemasIn(outputs[..j], o) + (if outputs[j].id == o then {outputs[j].schema} else {})
      {
        SchemasMore(outputs[..j], outputs[j], o);
      }
      more := more[outputs[j].id := Held(more, outputs[j].id) + {outputs[j].schema}];
    }
    assert outputs[..|outputs|] == outputs;
  }

  lemma SchemasMore(outputs: seq<Output>, one: Output, output: string)
    ensures SchemasIn(outputs + [one], output) ==
      SchemasIn(outputs, output) + (if one.id == output then {one.schema} else {})
  {
    assert forall o :: o in outputs + [one] <==> o in outputs || o == one;
  }

  lemma OfferedMore(modules: Repository, dependencies: seq<string>, one: string, output: string)
    requires one in modules
    ensures Offered(modules, dependencies + [one], output) ==
      Offered(modules, dependencies, output) + SchemasIn(modules[one].outputs, output)
  {
    assert forall d :: d in dependencies + [one] <==> d in dependencies || d == one;
  }

  /** The artifacts a module asks for, against what its dependencies put out. */
  method CheckArtifacts(modules: Repository, id: string) returns (issues: seq<Issue>)
    requires id in modules
    ensures issues == [] <==> InputsMetBy(modules, modules[id])
  {
    hide Offered;
    var m := modules[id];
    var table := GatherOutputs(modules, m.dependencies);
    issues := [];
    for k := 0 to |m.inputs|
      invariant issues == [] <==>
        forall j :: 0 <= j < k ==> InputMet(Offered(modules, m.dependencies, m.inputs[j].output), m.inputs[j])
    {
      var input := m.inputs[k];
      var available := Held(table, input.output);
      if input.required && available == {} {
        issues := issues + [NoProducer(id, input.output)];
      } else if available != {} && input.schema !in available {
        issues := issues + [IncompatibleInput(id, input.output)];
      }
    }
  }

  /** The gates that have to be covered and are not. */
  method CheckCoverage(modules: Repository, registry: Registry) returns (issues: seq<Issue>)
    ensures issues == [] <==> CoverageMet(modules, registry)
  {
    var actual := set id, g | id in modules && g in modules[id].gates :: g;
    assert forall g :: g in actual <==> Covered(modules, g);
    issues := [];
    if exists g | g in registry.required :: g !in actual { issues := [RequiredUncovered]; }
    if registry.complete && exists g | g in registry.manifest :: g !in actual {
      issues := issues + [ManifestUncovered];
    }
  }

  /** What is asked of one module's references. */
  ghost predicate ReferencesSound(modules: Repository, id: string)
    requires id in modules
  {
    && (forall d :: d in modules[id].dependencies ==> d in modules)
    && (forall c :: c in modules[id].conflicts ==> c in modules && id in modules[c].conflicts)
    && InputsMetBy(modules, modules[id])
  }

  method CheckModule(modules: Repository, id: string) returns (issues: seq<Issue>)
    requires id in modules
    ensures issues == [] <==> ReferencesSound(modules, id)
  {
    hide InputsMetBy;
    issues := [];
    var m := modules[id];
    for k := 0 to |m.dependencies|
      invariant issues == [] <==> forall j :: 0 <= j < k ==> m.dependencies[j] in modules
    {
      if m.dependencies[k] !in modules { issues := issues + [UnknownDependency(id, m.dependencies[k])]; }
    }
    var references := issues;
    for k := 0 to |m.conflicts|
      invariant issues == [] <==> references == [] && forall j :: 0 <= j < k ==>
                  m.conflicts[j] in modules && id in modules[m.conflicts[j]].conflicts
    {
      var c := m.conflicts[k];
      if c !in modules { issues := issues + [UnknownConflict(id, c)]; }
      else if id !in modules[c].conflicts { issues := issues + [AsymmetricConflict(id, c)]; }
    }
    var found := CheckArtifacts(modules, id);
    issues := issues + found;
  }

  /** The modules of a listing that cover a gate. */
  function OwnersAmong(modules: Repository, ids: seq<string>, gate: string): set<string> {
    set id | id in ids && id in modules && gate in modules[id].gates
  }

  ghost predicate OwnersOf(modules: Repository, ids: seq<string>, owners: map<string, set<string>>) {
    forall g :: (if g in owners then owners[g] else {}) == OwnersAmong(modules, ids, g)
  }

  /** The owners of every gate, gathered module by module. */
  method CollectOwners(modules: Repository, ids: seq<string>) returns (owners: map<string, set<string>>)
    requires forall id :: id in ids ==> id in modules
    ensures OwnersOf(modules, ids, owners)
  {
    owners := map[];
    for k := 0 to |ids|
      invariant OwnersOf(modules, ids[..k], owners)
    {
      assert ids[..k + 1] == ids[..k] + [ids[k]];
      owners := AddOwner(modules, ids[..k], ids[k], owners);
    }
    assert ids[..|ids|] == ids;
  }

  method AddOwner(modules: Repository, ghost seen: seq<string>, id: string, owners: map<string, set<string>>)
    returns (more: map<string, set<string>>)
    requires id in modules && OwnersOf(modules, seen, owners)
    ensures OwnersOf(modules, seen + [id], more)
  {
    hide OwnersOf, PartlyOwned;
    more := owners;
    var gates := modules[id].gates;
    PartlyEnds(modules, seen, id, owners);
    for j := 0 to |gates|
      invariant PartlyOwned(modules, seen, id, gates[..j], more)
    {
      assert gates[..j + 1] == gates[..j] + [gates[j]];
      PartlyMore(modules, seen, id, gates[..j], more, gates[j]);
      more := more[gates[j] := (if gates[j] in more then more[gates[j]] else {}) + {id}];
    }
    assert gates[..|gates|] == gates;
    PartlyEnds(modules, seen, id, more);
  }

  /** The owners once the gates in `part` of one more module have been filed. */
  ghost predicate PartlyOwned(modules: Repository, seen: seq<string>, id: string, part: seq<string>,
                              owners: map<string, set<string>>) {
    forall g ::
      (if g in owners then owners[g] else {}) == OwnersAmong(modules, seen, g) + (if g in part then {id} else {})
  }

  lemma PartlyMore(modules: Repository, seen: seq<string>, id: string, part: seq<string>,
                   owners: map<string, set<string>>, gate: string)
    requires PartlyOwned(modules, seen, id, part, owners)
    ensures PartlyOwned(modules, seen, id, part + [gate],
                        owners[gate := (if gate in owners then owners[gate] else {}) + {id}])
  {
    hide OwnersAmong;
    assert forall g :: g in part + [gate] <==> g in part || g == gate;
  }

  lemma PartlyEnds(modules: Repository, seen: seq<string>, id: string, owners: map<string, set<string>>)
    requires id in modules
    ensures OwnersOf(modules, seen, owners) ==> PartlyOwned(modules, seen, id, [], owners)
    ensures PartlyOwned(modules, seen, id, modules[id].gates, owners) ==> OwnersOf(modules, seen + [id], owners)
  {
    forall g
      ensures OwnersAmong(modules, seen + [id], g) ==
      OwnersAmong(modules, seen, g) + (if g in modules[id].gates then {id} else {})
    {
      assert forall x :: x in seen + [id] <==> x in seen || x == id;
    }
  }

  /** One issue for each gate that more than one module covers. */
  method CheckOwners(modules: Repository, ids: seq<string>, gates: seq<string>) returns (issues: seq<Issue>)
    requires forall id :: id in ids <==> id in modules
    requires forall id, g :: id in modules && g in modules[id].gates ==> g in gates
    ensures issues == [] <==> GatesOwnedOnce(modules)
  {
    hide GatesOwnedOnce;
    var owners := CollectOwners(modules, ids);
    issues := [];
    for k := 0 to |gates|
      invariant issues == [] <==> forall j :: 0 <= j < k ==> |OwnersAmong(modules, ids, gates[j])| <= 1
    {
      var held := if gates[k] in owners then owners[gates[k]] else {};
      if |held| > 1 { issues := issues + [SharedGate(gates[k])]; }
    }
    OwnedOnce(modules, ids, gates);
  }

  lemma OwnedOnce(modules: Repository, ids: seq<string>, gates: seq<string>)
    requires forall id :: id in ids <==> id in modules
    requires forall id, g :: id in modules && g in modules[id].gates ==> g in gates
    ensures GatesOwnedOnce(modules) <==> forall j :: 0 <= j < |gates| ==> |OwnersAmong(modules, ids, gates[j])| <= 1
  {
    if GatesOwnedOnce(modules) {
      forall j | 0 <= j < |gates| ensures |OwnersAmong(modules, ids, gates[j])| <= 1 {
        var held := OwnersAmong(modules, ids, gates[j]);
        if held != {} {
          var a :| a in held;
          assert held == {a};
        }
      }
    }
    if forall j :: 0 <= j < |gates| ==> |OwnersAmong(modules, ids, gates[j])| <= 1 {
      forall a, b, g | a in modules && b in modules && g in modules[a].gates && g in modules[b].gates ensures a == b {
        assert g in gates;
        var j :| 0 <= j < |gates| && gates[j] == g;
        var held := OwnersAmong(modules, ids, g);
        assert {a, b} <= held;
        if a != b { SubsetSize({a, b}, held); }
      }
    }
  }

  lemma {:induction false} SubsetSize(a: set<string>, b: set<string>)
    requires a <= b
    ensures |a| <= |b|
  {
    if a != {} {
      var x :| x in a;
      SubsetSize(a - {x}, b - {x});
    }
  }

  /** Without issues exactly when the repository is sound; the finished search order comes along. */
  method ValidateGraph(modules: Repository, ids: seq<string>, gates: seq<string>, registry: Registry)
    returns (issues: seq<Issue>, ghost order: seq<string>)
    requires forall id :: id in ids <==> id in modules
    requires forall id, g :: id in modules && g in modules[id].gates ==> g in gates
    ensures issues == [] <==> Validated(modules, registry)
    ensures issues == [] ==> var graph := DependencyGraph(modules);
              DepsFirst(graph, order) && Unique(order) && forall n :: n in graph ==> n in order
  {
    hide Acyclic, GatesOwnedOnce, DepsFirst, Unique, ReferencesSound, CoverageMet, Validated;
    issues := CheckOwners(modules, ids, gates);
    for k := 0 to |ids|
      invariant issues == [] <==> GatesOwnedOnce(modules) && forall i :: 0 <= i < k ==> ReferencesSound(modules, ids[i])
    {
      var found := CheckModule(modules, ids[k]);
      issues := issues + found;
    }
    var cycle;
    cycle, order := FindCycle(DependencyGraph(modules), ids);
    if cycle.Some? { issues := issues + [DependencyCycle(cycle.value)]; }
    var uncovered := CheckCoverage(modules, registry);
    issues := issues + uncovered;
    SoundReferences(modules, ids, registry);
  }

  lemma SoundReferences(modules: Repository, ids: seq<string>, registry: Registry)
    requires forall id :: id in ids <==> id in modules
    ensures Validated(modules, registry) <==>
              && (forall i :: 0 <= i < |ids| ==> ReferencesSound(modules, ids[i]))
              && GatesOwnedOnce(modules) && CoverageMet(modules, registry) && Acyclic(DependencyGraph(modules))
  {
    hide Acyclic, GatesOwnedOnce, CoverageMet, InputsMetBy;
    if forall i :: 0 <= i < |ids| ==> ReferencesSound(modules, ids[i]) {
      forall id | id in modules ensures ReferencesSound(modules, id) {
        assert id in ids;
      }
    }
  }

  // ----- selection and closure -----

  predicate Selects(m: Module, gates: map<string, GateState>) {
    match m.policy
    case AnyActiveGate => exists g | g in m.gates :: g in gates && gates[g] == Active
    case AllGatesActive => m.gates != [] && forall g | g in m.gates :: g in gates && gates[g] == Active
  }

  predicate HasUnknown(m: Module, gates: map<string, GateState>) {
    exists g | g in m.gates :: g in gates && gates[g] == Unknown
  }

  function SelectedByGates(modules: Repository, gates: map<string, GateState>): set<string> {
    set id | id in modules && Selects(modules[id], gates)
  }

  function Unresolved(modules: Repository, gates: map<string, GateState>): set<string> {
    set id | id in modules && !Selects(modules[id], gates) && HasUnknown(modules[id], gates)
  }

  ghost predicate Closed(modules: Repository, s: set<string>) {
    forall id, d :: id in s && id in modules && d in modules[id].dependencies ==> d in s
  }

  /** The least dependency-closed set around a base. */
  ghost predicate LeastClosed(modules: Repository, base: set<string>, s: set<string>) {
    base <= s && Closed(modules, s) && forall t :: base <= t && Closed(modules, t) ==> s <= t
  }

  /** So the closure does not depend on the order in which the worklist is walked. */
  lemma LeastClosedUnique(modules: Repository, base: set<string>, s: set<string>, t: set<string>)
    requires LeastClosed(modules, base, s) && LeastClosed(modules, base, t)
    ensures s == t
  {
  }

  /** The worklist: last in, first out, starting from any listing of the base. */
  method DependencyClosure(modules: Repository, listing: seq<string>) returns (selected: set<string>)
    requires DependenciesKnown(modules) && forall id :: id in listing ==> id in modules
    ensures LeastClosed(modules, Members(listing), selected) && selected <= modules.Keys
  {
    var base := Members(listing);
    selected := base;
    var queue := listing;
    while queue != []
      invariant base <= selected <= modules.Keys && Members(queue) <= selected
      invariant Expanded(modules, selected, queue)
      invariant Needed(modules, base, selected)
      decreases modules.Keys - selected, |queue|
    {
      var id := queue[|queue| - 1];
      var rest := queue[..|queue| - 1];
      assert queue == rest + [id];
      var added := Missing(modules[id].dependencies, selected);
      NeededGrows(modules, base, selected, id, added);
      ghost var before := selected;
      selected := selected + Members(added);
      queue := rest + added;
      assert added == [] ==> selected == before && queue == rest;
      assert added != [] ==> added[0] in selected && added[0] !in before;
    }
  }

  /** Everything selected and off the queue has its dependencies selected. */
  ghost predicate Expanded(modules: Repository, selected: set<string>, queue: seq<string>) {
    forall id, d :: id in selected && id in modules && id !in queue && d in modules[id].dependencies ==> d in selected
  }

  /** Nothing is selected that some closed set around the base could do without. */
  ghost predicate Needed(modules: Repository, base: set<string>, selected: set<string>) {
    forall t :: base <= t && Closed(modules, t) ==> selected <= t
  }

  lemma NeededGrows(modules: Repository, base: set<string>, selected: set<string>, id: string, added: seq<string>)
    requires Needed(modules, base, selected) && id in selected && id in modules
    requires forall d :: d in added ==> d in modules[id].dependencies
    ensures Needed(modules, base, selected + Members(added))
  {
    forall t | base <= t && Closed(modules, t) ensures selected + Members(added) <= t {
      assert id in t;
    }
  }

  /** The dependencies that are not selected yet, each once. */
  method Missing(deps: seq<string>, selected: set<string>) returns (added: seq<string>)
    ensures forall d :: d in added <==> d in deps && d !in selected
    ensures Unique(added)
  {
    added := [];
    for k := 0 to |deps|
      invariant forall d :: d in added <==> d in deps[..k] && d !in selected
      invariant Unique(added)
    {
      assert deps[..k + 1] == deps[..k] + [deps[k]];
      if deps[k] !in selected && deps[k] !in added {
        added := added + [deps[k]];
      }
    }
  }

  // ----- conflicts -----

  /** Two different selected modules of which one names the other as a conflict. */
  ghost predicate Clash(modules: Repository, selected: set<string>, a: string, b: string) {
    a in selected && b in selected && a != b && a in modules && b in modules[a].conflicts
  }

  /** Only pairs in text order are listed, so a clash is found from its smaller side. */
  method ListConflicts(modules: Repository, selected: set<string>, listing: seq<string>)
    returns (conflicts: seq<(string, string)>)
    requires selected <= modules.Keys && Members(listing) == selected
    ensures forall p :: p in conflicts ==> Clash(modules, selected, p.0, p.1) && TextLess(p.0, p.1)
    ensures forall a, b :: Clash(modules, selected, a, b) && TextLess(a, b) ==> (a, b) in conflicts
  {
    conflicts := [];
    for k := 0 to |listing|
      invariant forall p :: p in conflicts ==> Clash(modules, selected, p.0, p.1) && TextLess(p.0, p.1)
      invariant forall i, b :: 0 <= i < k && Clash(modules, selected, listing[i], b) && TextLess(listing[i], b) ==>
        (listing[i], b) in conflicts
    {
      var id := listing[k];
      assert id in selected;
      var named := modules[id].conflicts;
      for j := 0 to |named|
        invariant forall p :: p in conflicts ==> Clash(modules, selected, p.0, p.1) && TextLess(p.0, p.1)
        invariant forall i, b :: 0 <= i < k && Clash(modules, selected, listing[i], b) && TextLess(listing[i], b) ==>
          (listing[i], b) in conflicts
        invariant forall i :: 0 <= i < j && named[i] in selected && TextLess(id, named[i]) ==>
          (id, named[i]) in conflicts
      {
        if named[j] in selected && TextLess(id, named[j]) {
          conflicts := conflicts + [(id, named[j])];
        }
      }
    }
  }

  /** With symmetric declarations an empty list means no clash at all. */
  lemma NoConflictListed(modules: Repository, selected: set<string>, conflicts: seq<(string, string)>)
    requires ConflictsSymmetric(modules)
    requires forall a, b :: Clash(modules, selected, a, b) && TextLess(a, b) ==> (a, b) in conflicts
    ensures conflicts == [] ==> forall a, b :: !Clash(modules, selected, a, b)
  {
    forall a, b | conflicts == [] ensures !Clash(modules, selected, a, b) {
      TextTotal(a, b);
      if Clash(modules, selected, a, b) {
        assert Clash(modules, selected, b, a);
      }
    }
  }

  // ----- budgets -----

  function PhaseTokens(modules: Repository, order: seq<string>, phase: string): nat
    requires forall id :: id in order ==> id in modules
  {
    if order == [] then 0
    else
      var last := modules[order[|order| - 1]];
      PhaseTokens(modules, order[..|order| - 1], phase) + (if phase in last.phases then last.tokens else 0)
  }

  /** The share of the hard budget a phase may disclose, the ratio being `part / whole`. */
  function DisclosureBudget(hard: nat, part: nat, whole: nat): nat
    requires whole > 0
  {
    hard * part / whole
  }

  // ----- routing -----

  datatype Disclosure = Disclosure(phase: string, moduleIds: seq<string>, tokens: nat, headroom: int, exceeded: bool)

  datatype Route = Route(
    order: seq<string>,
    conflicts: seq<(string, string)>,
    unresolved: set<string>,
    unknownGates: set<string>,
    disclosures: seq<Disclosure>,
    completionBlocked: bool)

  /** The earliest phase a module covers; 10000 stands for none. */
  function FirstPhase(phases: seq<string>, phaseOrder: map<string, int>): int {
    if phases == [] then 10_000
    else
      var last := phases[|phases| - 1];
      var place := if last in phaseOrder then phaseOrder[last] else 10_000;
      if |phases| == 1 then place
      else
        var front := FirstPhase(phases[..|phases| - 1], phaseOrder);
        if front < place then front else place
  }

  function RouteKey(modules: Repository, phaseOrder: map<string, int>): string -> Key {
    id => if id in modules then Key(FirstPhase(modules[id].phases, phaseOrder), modules[id].priority, id)
          else Key(10_000, 50, id)
  }

  /** The modules of an order that cover a phase. */
  function Covering(modules: Repository, order: seq<string>, phase: string): seq<string>
    requires forall id :: id in order ==> id in modules
  {
    if order == [] then []
    else
      var id := order[|order| - 1];
      Covering(modules, order[..|order| - 1], phase) + (if phase in modules[id].phases then [id] else [])
  }

  /** One phase: what it discloses and whether that exceeds its share. */
  method Disclose(modules: Repository, order: seq<string>, phase: string, hard: nat, budget: nat)
    returns (d: Disclosure)
    requires forall id :: id in order ==> id in modules
    ensures d == Disclosure(phase, Covering(modules, order, phase), PhaseTokens(modules, order, phase),
                            hard - PhaseTokens(modules, order, phase), PhaseTokens(modules, order, phase) > budget)
  {
    var ids: seq<string> := [];
    var tokens: nat := 0;
    for k := 0 to |order|
      invariant ids == Covering(modules, order[..k], phase) && tokens == PhaseTokens(modules, order[..k], phase)
    {
      assert order[..k + 1][..k] == order[..k];
      if phase in modules[order[k]].phases {
        ids := ids + [order[k]];
        tokens := tokens + modules[order[k]].tokens;
      }
    }
    assert order[..|order|] == order;
    d := Disclosure(phase, ids, tokens, hard - tokens, tokens > budget);
  }

  predicate SomeExceeded(modules: Repository, order: seq<string>, phases: seq<string>, budget: nat)
    requires forall id :: id in order ==> id in modules
  {
    exists j :: 0 <= j < |phases| && PhaseTokens(modules, order, phases[j]) > budget
  }

  method DiscloseAll(modules: Repository, order: seq<string>, phases: seq<string>, hard: nat, budget: nat)
    returns (disclosures: seq<Disclosure>, exceeded: bool)
    requires forall id :: id in order ==> id in modules
    ensures |disclosures| == |phases|
    ensures forall k :: 0 <= k < |phases| ==>
              disclosures[k] ==
                Disclosure(phases[k], Covering(modules, order, phases[k]), PhaseTokens(modules, order, phases[k]),
                           hard - PhaseTokens(modules, order, phases[k]),
                           PhaseTokens(modules, order, phases[k]) > budget)
    ensures exceeded <==> SomeExceeded(modules, order, phases, budget)
  {
    disclosures := [];
    exceeded := false;
    for k := 0 to |phases|
      invariant |disclosures| == k
      invariant forall j :: 0 <= j < k ==>
                  disclosures[j] ==
                    Disclosure(phases[j], Covering(modules, order, phases[j]), PhaseTokens(modules, order, phases[j]),
                               hard - PhaseTokens(modules, order, phases[j]),
                               PhaseTokens(modules, order, phases[j]) > budget)
      invariant exceeded <==> exists j :: 0 <= j < k && PhaseTokens(modules, order, phases[j]) > budget
    {
      var d := Disclose(modules, order, phases[k], hard, budget);
      disclosures := disclosures + [d];
      exceeded := exceeded || d.exceeded;
    }
  }

  /** The order holds the least closed set around the gate-selected modules, each once, after all its dependencies. */
  ghost predicate WellOrdered(modules: Repository, gates: map<string, GateState>, order: seq<string>) {
    && Unique(order)
    && LeastClosed(modules, SelectedByGates(modules, gates), Members(order))
    && (forall i, d :: 0 <= i < |order| && order[i] in modules && d in modules[order[i]].dependencies ==>
        d in order[..i])
  }

  /** What a route that does not block completion promises. */
  ghost predicate Unblocked(modules: Repository, gates: map<string, GateState>, phases: seq<string>, hard: nat,
                            budget: nat, route: Route)
    requires forall id :: id in route.order ==> id in modules
  {
    && (forall g :: g in gates ==> gates[g] != Unknown)
    && (forall id :: id in modules ==> Selects(modules[id], gates) || !HasUnknown(modules[id], gates))
    && (forall a, b :: !Clash(modules, Members(route.order), a, b))
    && (forall p :: p in phases ==> hard - PhaseTokens(modules, route.order, p) >= hard - budget)
  }

  /**
   * Routing with any listing of the modules and any walk of the worklist. On a repository that validated it never meets
   * a cycle, its order is the reference order, and completion is unblocked exactly when nothing stands against it.
   */
  method RouteModules(modules: Repository, ids: seq<string>, worklist: seq<string>, gates: map<string, GateState>,
                      phaseOrder: map<string, int>, phases: seq<string>, hard: nat, part: nat, whole: nat,
                      ghost rank: map<string, nat>)
    returns (r: Result<Route, ()>)
    requires DependenciesKnown(modules) && whole > 0
    requires Unique(ids) && Members(ids) == modules.Keys
    requires Members(worklist) == SelectedByGates(modules, gates)
    ensures Acyclic(DependencyGraph(modules)) ==> r.Ok?
    ensures r.Ok? ==> WellOrdered(modules, gates, r.value.order) && forall id :: id in r.value.order ==> id in modules
    ensures r.Ok? ==>
              var selected := Members(r.value.order);
              var walk := Walk(DependencyGraph(modules), RouteKey(modules, phaseOrder), selected);
              Ranked(walk, rank) ==>
                r.value.order == ReferenceOrder(walk, rank, Sort(RouteKey(modules, phaseOrder), Keep(ids, selected)))
    ensures r.Ok? && ConflictsSymmetric(modules) ==>
              (!r.value.completionBlocked <==>
               Unblocked(modules, gates, phases, hard, DisclosureBudget(hard, part, whole), r.value))
  {
    hide Acyclic, ClosedPath, Unique, DepsFirst, LeastClosed, Ranked, ConflictsSymmetric, Sort, Keep, Unblocked, Clash,
         SomeExceeded, WellOrdered, DisclosureBudget;
    forall id | id in worklist ensures id in modules { assert id in Members(worklist); }
    var selected := DependencyClosure(modules, worklist);
    var listing := Keep(ids, selected);
    KeepDistinct(ids, selected);
    var key := RouteKey(modules, phaseOrder);
    var conflicts := ListConflicts(modules, selected, listing);
    var sorted := TopologicalOrder(DependencyGraph(modules), key, selected, listing, rank);
    if sorted.Err? {
      NotAcyclic(DependencyGraph(modules));
      return Err(());
    }
    var order := sorted.value;
    assert Members(order) == selected;
    OrderIsWell(modules, gates, key, selected, order);
    var unresolved := Unresolved(modules, gates);
    var unknown := set g | g in gates && gates[g] == Unknown;
    var budget := DisclosureBudget(hard, part, whole);
    var disclosures, exceeded := DiscloseAll(modules, order, phases, hard, budget);
    var blocked := conflicts != [] || unresolved != {} || unknown != {} || exceeded;
    var route := Route(order, conflicts, unresolved, unknown, disclosures, blocked);
    if ConflictsSymmetric(modules) {
      BlockedExactly(modules, gates, phases, hard, budget, route, exceeded);
    }
    return Ok(route);
  }

  lemma KeepDistinct(ids: seq<string>, selected: set<string>)
    requires Unique(ids) && selected <= Members(ids)
    ensures Unique(Keep(ids, selected)) && Members(Keep(ids, selected)) == selected
  {
    KeepDistinctOnly(ids, selected);
  }

  lemma {:induction false} KeepDistinctOnly(ids: seq<string>, selected: set<string>)
    requires Unique(ids)
    ensures Unique(Keep(ids, selected))
  {
    if ids != [] {
      var front, last := ids[..|ids| - 1], ids[|ids| - 1];
      KeepDistinctOnly(front, selected);
      assert forall x :: x in front ==> x != last;
    }
  }

  lemma NotAcyclic(graph: Graph)
    requires exists cycle :: ClosedPath(graph, cycle)
    ensures !Acyclic(graph)
  {
  }

  lemma OrderIsWell(modules: Repository, gates: map<string, GateState>, key: string -> Key, selected: set<string>,
                    order: seq<string>)
    requires LeastClosed(modules, SelectedByGates(modules, gates), selected) && selected <= modules.Keys
    requires Unique(order) && Members(order) == selected
    requires DepsFirst(Walk(DependencyGraph(modules), key, selected), order)
    ensures WellOrdered(modules, gates, order) && forall id :: id in order ==> id in modules
  {
    forall id | id in order ensures id in modules { assert id in Members(order); }
    forall i, d | 0 <= i < |order| && order[i] in modules && d in modules[order[i]].dependencies
      ensures d in order[..i]
    {
      assert order[i] in Members(order);
      assert d in Deps(Walk(DependencyGraph(modules), key, selected), order[i]);
    }
  }

  lemma BlockedExactly(modules: Repository, gates: map<string, GateState>, phases: seq<string>, hard: nat, budget: nat,
                       route: Route, exceeded: bool)
    requires ConflictsSymmetric(modules) && forall id :: id in route.order ==> id in modules
    requires forall p :: p in route.conflicts ==> Clash(modules, Members(route.order), p.0, p.1) && TextLess(p.0, p.1)
    requires forall a, b :: Clash(modules, Members(route.order), a, b) && TextLess(a, b) ==> (a, b) in route.conflicts
    requires route.unresolved == Unresolved(modules, gates)
    requires route.unknownGates == set g | g in gates && gates[g] == Unknown
    requires exceeded <==> SomeExceeded(modules, route.order, phases, budget)
    requires route.completionBlocked <==>
      route.conflicts != [] || route.unresolved != {} || route.unknownGates != {} || exceeded
    ensures !route.completionBlocked <==> Unblocked(modules, gates, phases, hard, budget, route)
  {
    NoConflictListed(modules, Members(route.order), route.conflicts);
    if route.conflicts != [] {
      assert Clash(modules, Members(route.order), route.conflicts[0].0, route.conflicts[0].1);
    }
    if exceeded {
      var j :| 0 <= j < |phases| && PhaseTokens(modules, route.order, phases[j]) > budget;
      assert phases[j] in phases;
    }
    forall id | id in modules
      ensures id in route.unresolved <==> !(Selects(modules[id], gates) || !HasUnknown(modules[id], gates)) {}
    forall g | g in gates ensures g in route.unknownGates <==> gates[g] == Unknown {}
  }

  /** The reference order under some listing of the modules and some rank of their dependencies. */
  ghost predicate ReferenceBy(modules: Repository, phaseOrder: map<string, int>, ids: seq<string>,
                              rank: map<string, nat>, order: seq<string>) {
    var walk := Walk(DependencyGraph(modules), RouteKey(modules, phaseOrder), Members(order));
    && Unique(ids) && Members(ids) == modules.Keys
    && Ranked(walk, rank)
    && order == ReferenceOrder(walk, rank, Sort(RouteKey(modules, phaseOrder), Keep(ids, Members(order))))
  }

  /** The order of a route: it fits the gates, and it is a reference order. */
  ghost predicate Routed(modules: Repository, gates: map<string, GateState>, phaseOrder: map<string, int>,
                         order: seq<string>) {
    WellOrdered(modules, gates, order) && exists ids: seq<string>, rank: map<string, nat> ::
      ReferenceBy(modules, phaseOrder, ids, rank, order)
  }

  lemma SameKept(ids: seq<string>, others: seq<string>, selected: set<string>)
    requires Members(ids) == Members(others)
    ensures Members(Keep(ids, selected)) == Members(Keep(others, selected))
  {
    forall x ensures x in Members(Keep(ids, selected)) <==> x in Members(Keep(others, selected)) {
      assert x in ids <==> x in Members(ids);
      assert x in others <==> x in Members(others);
    }
  }

  /** There is only one: neither the listings nor the rank have a say in it. */
  lemma OneOrder(modules: Repository, gates: map<string, GateState>, phaseOrder: map<string, int>, a: seq<string>,
                 b: seq<string>)
    requires Routed(modules, gates, phaseOrder, a) && Routed(modules, gates, phaseOrder, b)
    ensures a == b
  {
    hide Unique, Ranked, Sort, Keep, LeastClosed, ReferenceOrder;
    LeastClosedUnique(modules, SelectedByGates(modules, gates), Members(a), Members(b));
    var selected, key := Members(a), RouteKey(modules, phaseOrder);
    var ids, rank :| ReferenceBy(modules, phaseOrder, ids, rank, a);
    var others, other :| ReferenceBy(modules, phaseOrder, others, other, b);
    KeepDistinctOnly(ids, selected);
    KeepDistinctOnly(others, selected);
    SameKept(ids, others, selected);
    ListingForgotten(key, Keep(ids, selected), Keep(others, selected));
    ReferenceAnyRank(Walk(DependencyGraph(modules), key, selected), rank, other, Sort(key, Keep(ids, selected)));
  }

  /**
   * A repository without issues always routes, to the one order `OneOrder` speaks of, whatever the listings of its
   * modules, of its gates and of the worklist.
   */
  method ValidateAndRoute(modules: Repository, ids: seq<string>, coveredGates: seq<string>, registry: Registry,
                          worklist: seq<string>, gates: map<string, GateState>, phaseOrder: map<string, int>,
                          phases: seq<string>, hard: nat, part: nat, whole: nat)
    returns (r: Result<Route, seq<Issue>>)
    requires whole > 0 && Unique(ids) && Members(ids) == modules.Keys
    requires forall id, g :: id in modules && g in modules[id].gates ==> g in coveredGates
    requires Members(worklist) == SelectedByGates(modules, gates)
    ensures r.Ok? <==> Validated(modules, registry)
    ensures r.Ok? ==> Routed(modules, gates, phaseOrder, r.value.order) && forall id :: id in r.value.order ==>
      id in modules
    ensures r.Ok? ==>
      (!r.value.completionBlocked <==>
       Unblocked(modules, gates, phases, hard, DisclosureBudget(hard, part, whole), r.value))
  {
    hide Acyclic, Unique, DepsFirst, Ranked, Sort, Keep, WellOrdered, Unblocked, InputsMet, CoverageMet, GatesOwnedOnce;
    var issues, order := ValidateGraph(modules, ids, coveredGates, registry);
    if issues != [] { return Err(issues); }
    ghost var rank := Positions(order);
    var routed := RouteModules(modules, ids, worklist, gates, phaseOrder, phases, hard, part, whole, rank);
    PositionsRanked(DependencyGraph(modules), RouteKey(modules, phaseOrder), Members(routed.value.order), order);
    assert ReferenceBy(modules, phaseOrder, ids, rank, routed.value.order);
    return Ok(routed.value);
  }
}
