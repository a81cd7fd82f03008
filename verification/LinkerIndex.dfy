/** Building the resolver's indexes from the probe's facts: import edges, events, and their position order. */
module LinkerIndex {
  import opened Common
  import opened ProbeFacts
  import opened PythonLinker
  import opened LinkerEvidence
  import opened LinkerForward

  datatype EdgeState = Known(state: ImportState) | UnresolvedRelative | WildcardEdge

  datatype ImportEntry = ImportEntry(pattern: Dotted, state: ImportState, targets: set<Target>)

  type ModuleIndex = map<Dotted, seq<FileRecord>>

  type ImportIndex = map<(ScopeId, Position, string), ImportEntry>

  datatype FileFacts = FileFacts(scopes: seq<Scope>, bindings: seq<Binding>, imports: seq<ImportFact>)

  /** The module a `from` import starts at, or None when it climbs above the top package. */
  function FromBase(file: FileRecord, level: nat, imported: Option<Dotted>): Option<seq<string>> {
    var suffix: seq<string> := if imported.Some? then imported.value else [];
    if level == 0 then Some(suffix)
    else
      var package: seq<string> := if file.isPackage then file.modul else file.modul[..|file.modul| - 1];
      if level - 1 > |package| then None
      else
        var result := package[..|package| - (level - 1)] + suffix;
        if result == [] then None else Some(result)
  }

  function ModuleRecords(modules: ModuleIndex, name: seq<string>): seq<FileRecord> {
    if name != [] && name in modules then modules[name] else []
  }

  function ModuleTargets(records: seq<FileRecord>): set<Target> {
    set r | r in records :: ModuleTarget(r)
  }

  /** The state of an import edge and what its binding carries. A wildcard or an escaping import binds nothing. */
  function ImportEdge(file: FileRecord, fact: ImportFact, modules: ModuleIndex,
                      symbols: SymbolIndex): (r: (EdgeState, Option<ImportEntry>))
    ensures r.1.Some? ==> r.0 == Known(r.1.value.state)
    ensures r.1.Some? && r.1.value.targets != {} ==>
      r.1.value.state in {InternalModule, InternalSymbol, AmbiguousImport}
  {
    match fact
    case PlainImport(modul, alias, _, _) =>
      var records := ModuleRecords(modules, modul);
      var state := if |records| == 1 then InternalModule else if |records| > 1 then AmbiguousImport else External;
      assert |records| == 0 ==> ModuleTargets(records) == {};
      (Known(state), Some(ImportEntry(if alias.Some? then [alias.value] else modul, state, ModuleTargets(records))))
    case FromImport(base, level, name, alias, _, _) =>
      match FromBase(file, level, base)
      case None => (UnresolvedRelative, None)
      case Some(start) =>
        if name == "*" then (WildcardEdge, None)
        else
          var found := ModuleTargets(ModuleRecords(modules, start + [name]))
                     + (if start != [] then ModuleSymbols(symbols, start, name) else {});
          var state :=
            if |found| == 1 then
              if exists t | t in found :: t.ModuleTarget? then InternalModule else InternalSymbol
            else if |found| > 1 then AmbiguousImport
            else if ModuleRecords(modules, start) != [] then UnresolvedInternal
            else External;
          (Known(state), Some(ImportEntry([if alias.Some? then alias.value else name], state, found)))
  }

  /** The name an import statement binds. */
  function LocalName(fact: ImportFact): string {
    if fact.alias.Some? then fact.alias.value
    else match fact
      case PlainImport(modul, _, _, _) => modul[0]
      case FromImport(_, _, name, _, _, _) => name
  }

  /** The import bindings of a file by scope, position and name; a later one replaces an earlier one. */
  function ImportsBy(file: FileRecord, facts: seq<ImportFact>, modules: ModuleIndex,
                     symbols: SymbolIndex): (r: ImportIndex)
    ensures forall k :: k in r && r[k].targets != {} ==> r[k].state in {InternalModule, InternalSymbol, AmbiguousImport}
  {
    if facts == [] then map[]
    else
      var rest := ImportsBy(file, facts[..|facts| - 1], modules, symbols);
      var fact := facts[|facts| - 1];
      match ImportEdge(file, fact, modules, symbols).1
      case None => rest
      case Some(entry) => rest[(fact.scope, fact.pos, LocalName(fact)) := entry]
  }

  function EventOf(b: Binding, imports: ImportIndex, definitions: map<Dotted, set<Target>>): (e: Event)
    requires forall k :: k in imports && imports[k].targets != {} ==>
      imports[k].state in {InternalModule, InternalSymbol, AmbiguousImport}
    ensures e.fact == b && SoundImport(e)
  {
    var key := (b.scope, b.pos, b.name);
    if b.kind.ImportBinding? then
      if key in imports then Event(b, Some(imports[key].pattern), Some(imports[key].state), imports[key].targets)
      else Event(b, None, None, {})
    else if DefinitionKind(b.kind) && b.target.Some? && b.target.value in definitions then
      Event(b, None, None, definitions[b.target.value])
    else Event(b, None, None, {})
  }

  // ----- position order -----

  ghost predicate PositionSorted(events: seq<Event>) {
    forall i, j :: 0 <= i < j < |events| ==> !events[j].fact.pos.Before(events[i].fact.pos)
  }

  /** The place of a kind in the order of the kinds' names, which breaks ties between events at one position. */
  function KindRank(kind: BindingKind): nat {
    match kind
    case AnnotatedAssignment => 0
    case Annotation => 1
    case Assignment => 2
    case AsyncFunctionBinding => 3
    case AugmentedAssignment => 4
    case ClassBinding => 5
    case ComprehensionTarget => 6
    case Delete => 7
    case ExceptTarget => 8
    case ForTarget => 9
    case FunctionBinding => 10
    case ImportBinding => 11
    case NamedExpression => 12
    case Parameter => 13
    case PatternCapture => 14
    case WithTarget => 15
  }

  predicate Earlier(a: Event, b: Event) {
    a.fact.pos.Before(b.fact.pos) || (a.fact.pos == b.fact.pos && KindRank(a.fact.kind) < KindRank(b.fact.kind))
  }

  ghost predicate Sorted(events: seq<Event>) {
    forall i, j :: 0 <= i < j < |events| ==> !Earlier(events[j], events[i])
  }

  /** Inserts behind everything that is not later: a stable sort, one event at a time. */
  function InsertEvent(events: seq<Event>, e: Event): (r: seq<Event>)
    ensures multiset(r) == multiset(events) + multiset{e}
  {
    if events == [] || !Earlier(e, events[|events| - 1]) then events + [e]
    else
      assert events == events[..|events| - 1] + [events[|events| - 1]];
      InsertEvent(events[..|events| - 1], e) + [events[|events| - 1]]
  }

  /** `Earlier` is a strict weak order. */
  lemma EarlierOrders(a: Event, b: Event, c: Event)
    ensures Earlier(a, b) ==> !Earlier(b, a)
    ensures !Earlier(a, b) && !Earlier(b, c) ==> !Earlier(a, c)
  {
    hide KindRank;
  }

  lemma {:induction false} InsertSorted(events: seq<Event>, e: Event)
    requires Sorted(events)
    ensures Sorted(InsertEvent(events, e))
  {
    hide Earlier;
    if events != [] {
      var shorter, last := events[..|events| - 1], events[|events| - 1];
      EarlierOrders(e, last, e);
      if Earlier(e, last) {
        var front := InsertEvent(shorter, e);
        InsertSorted(shorter, e);
        forall x | x in front ensures !Earlier(last, x) {
          assert x in multiset(front);
          assert x in shorter || x == e;
        }
      } else {
        forall i | 0 <= i < |events| ensures !Earlier(e, events[i]) { EarlierOrders(e, last, events[i]); }
      }
    }
  }

  function SortEvents(events: seq<Event>): (r: seq<Event>)
    ensures multiset(r) == multiset(events)
    ensures Sorted(r) && PositionSorted(r)
  {
    if events == [] then []
    else
      assert events == events[..|events| - 1] + [events[|events| - 1]];
      var front := SortEvents(events[..|events| - 1]);
      InsertSorted(front, events[|events| - 1]);
      InsertEvent(front, events[|events| - 1])
  }

  /** The events of a sorted list that bind one name in one scope, in order. */
  function Binders(events: seq<Event>, id: ScopeId, name: string): (r: seq<Event>)
    ensures forall e :: e in r <==> e in events && e.fact.scope == id && e.fact.name == name
    ensures PositionSorted(events) ==> PositionSorted(r)
  {
    if events == [] then []
    else
      var front := Binders(events[..|events| - 1], id, name);
      var last := events[|events| - 1];
      assert events == events[..|events| - 1] + [last];
      if last.fact.scope == id && last.fact.name == name then front + [last] else front
  }

  method IndexEvents(events: seq<Event>) returns (index: map<(ScopeId, string), seq<Event>>)
    ensures forall id, name :: (if (id, name) in index then index[(id, name)] else []) == Binders(events, id, name)
  {
    index := map[];
    for k := 0 to |events|
      invariant forall id, name ::
        (if (id, name) in index then index[(id, name)] else []) == Binders(events[..k], id, name)
    {
      var e := events[k];
      var key := (e.fact.scope, e.fact.name);
      assert events[..k + 1][..k] == events[..k];
      index := index[key := (if key in index then index[key] else []) + [e]];
    }
    assert events[..|events|] == events;
  }

  /** The positions of a scope's wildcard imports, in order. */
  function WildcardsIn(file: FileRecord, facts: seq<ImportFact>, modules: ModuleIndex, symbols: SymbolIndex,
                       id: ScopeId): seq<Position> {
    if facts == [] then []
    else
      var front := WildcardsIn(file, facts[..|facts| - 1], modules, symbols, id);
      var last := facts[|facts| - 1];
      if last.scope == id && ImportEdge(file, last, modules, symbols).0 == WildcardEdge then front + [last.pos]
      else front
  }

  ghost predicate WildcardsAre(wildcards: map<ScopeId, seq<Position>>, file: FileRecord, facts: seq<ImportFact>,
                               modules: ModuleIndex, symbols: SymbolIndex) {
    forall id :: var found := WildcardsIn(file, facts, modules, symbols, id);
      if found == [] then id !in wildcards else id in wildcards && wildcards[id] == found
  }

  /** The loop over the import facts: it fills the binding index and the wildcard index. */
  method ScanImports(file: FileRecord, facts: seq<ImportFact>, modules: ModuleIndex, symbols: SymbolIndex)
    returns (imports: ImportIndex, wildcards: map<ScopeId, seq<Position>>)
    ensures imports == ImportsBy(file, facts, modules, symbols)
    ensures WildcardsAre(wildcards, file, facts, modules, symbols)
  {
    hide ImportEdge, WildcardsAre, WildcardsIn;
    imports := map[];
    wildcards := map[];
    NoWildcards(file, modules, symbols);
    for k := 0 to |facts|
      invariant imports == ImportsBy(file, facts[..k], modules, symbols)
      invariant WildcardsAre(wildcards, file, facts[..k], modules, symbols)
    {
      var fact := facts[k];
      assert facts[..k + 1][..k] == facts[..k] && facts[..k + 1] == facts[..k] + [fact];
      WildcardsMore(wildcards, file, facts[..k], fact, modules, symbols);
      var edge := ImportEdge(file, fact, modules, symbols);
      if edge.0 == WildcardEdge {
        wildcards :=
          wildcards[fact.scope := (if fact.scope in wildcards then wildcards[fact.scope] else []) + [fact.pos]];
      }
      if edge.1.Some? {
        imports := imports[(fact.scope, fact.pos, LocalName(fact)) := edge.1.value];
      }
    }
    assert facts[..|facts|] == facts;
  }

  lemma NoWildcards(file: FileRecord, modules: ModuleIndex, symbols: SymbolIndex)
    ensures WildcardsAre(map[], file, [], modules, symbols)
  {
  }

  lemma WildcardsMore(wildcards: map<ScopeId, seq<Position>>, file: FileRecord, facts: seq<ImportFact>,
                      fact: ImportFact, modules: ModuleIndex, symbols: SymbolIndex)
    requires WildcardsAre(wildcards, file, facts, modules, symbols)
    ensures var more := if ImportEdge(file, fact, modules, symbols).0 == WildcardEdge
                        then wildcards[fact.scope :=
                                       (if fact.scope in wildcards then wildcards[fact.scope] else []) + [fact.pos]]
                         else wildcards;
            WildcardsAre(more, file, facts + [fact], modules, symbols)
  {
    hide ImportEdge;
    assert (facts + [fact])[..|facts|] == facts;
  }

  /** The events of the binding facts, one each, in order. */
  function EventList(bindings: seq<Binding>, imports: ImportIndex,
                     definitions: map<Dotted, set<Target>>): (r: seq<Event>)
    requires forall k :: k in imports && imports[k].targets != {} ==>
      imports[k].state in {InternalModule, InternalSymbol, AmbiguousImport}
    ensures |r| == |bindings| && forall k :: 0 <= k < |r| ==> r[k].fact == bindings[k] && SoundImport(r[k])
  {
    seq(|bindings|, k requires 0 <= k < |bindings| => EventOf(bindings[k], imports, definitions))
  }

  /** The loop over the binding facts. */
  method MakeEvents(bindings: seq<Binding>, imports: ImportIndex, definitions: map<Dotted, set<Target>>)
    returns (events: seq<Event>)
    requires forall k :: k in imports && imports[k].targets != {} ==>
      imports[k].state in {InternalModule, InternalSymbol, AmbiguousImport}
    ensures events == EventList(bindings, imports, definitions)
  {
    events := [];
    for k := 0 to |bindings|
      invariant |events| == k && forall j :: 0 <= j < k ==> events[j] == EventOf(bindings[j], imports, definitions)
    {
      events := events + [EventOf(bindings[k], imports, definitions)];
    }
  }

  /** All events of a file in position order. */
  function SortedFacts(file: FileRecord, facts: FileFacts, modules: ModuleIndex, symbols: SymbolIndex,
                       definitions: map<Dotted, set<Target>>): (r: seq<Event>)
    ensures PositionSorted(r) && Sorted(r)
  {
    SortEvents(EventList(facts.bindings, ImportsBy(file, facts.imports, modules, symbols), definitions))
  }

  /** The indexing step of the linker for one file: the resolver finds every fact once, in position order. */
  method BuildContext(file: FileRecord, facts: FileFacts, modules: ModuleIndex, symbols: SymbolIndex,
                      definitions: map<Dotted, set<Target>>) returns (ctx: Context)
    requires ScopeTree(facts.scopes)
    ensures SoundContext(ctx) && BuiltFrom(ctx, file, facts, modules, symbols, definitions)
  {
    var imports, wildcards := ScanImports(file, facts.imports, modules, symbols);
    var events := MakeEvents(facts.bindings, imports, definitions);
    var index := IndexEvents(SortEvents(events));
    ctx := Context(facts.scopes, index, wildcards, symbols);
    SortedSound(events);
    IndexHolds(ctx, SortEvents(events));
  }

  /**
   * The context indexes the facts: every event under its scope and name in order, every wildcard import's position
   * under its scope.
   */
  ghost predicate BuiltFrom(ctx: Context, file: FileRecord, facts: FileFacts, modules: ModuleIndex,
                            symbols: SymbolIndex, definitions: map<Dotted, set<Target>>) {
    && ctx.scopes == facts.scopes && ctx.symbols == symbols
    && WildcardsAre(ctx.wildcards, file, facts.imports, modules, symbols)
    && forall id, name ::
         EventsOf(ctx, id, name) == Binders(SortedFacts(file, facts, modules, symbols, definitions), id, name)
  }

  lemma SortedSound(events: seq<Event>)
    requires forall k :: 0 <= k < |events| ==> SoundImport(events[k])
    ensures forall e :: e in SortEvents(events) ==> SoundImport(e)
  {
    hide SoundImport;
    forall e | e in SortEvents(events) ensures SoundImport(e) { SortMembers(events, e); }
  }

  lemma SortMembers(events: seq<Event>, e: Event)
    ensures e in SortEvents(events) <==> e in events
  {
    hide SortEvents;
    assert e in SortEvents(events) <==> e in multiset(SortEvents(events));
    assert e in events <==> e in multiset(events);
  }

  lemma IndexHolds(ctx: Context, sorted: seq<Event>)
    requires ScopeTree(ctx.scopes) && PositionSorted(sorted)
    requires forall e :: e in sorted ==> SoundImport(e)
    requires forall id, name :: EventsOf(ctx, id, name) == Binders(sorted, id, name)
    ensures SoundContext(ctx)
    ensures forall e: Event :: e in EventsOf(ctx, e.fact.scope, e.fact.name) <==> e in sorted
  {
    hide SoundImport, PositionSorted;
    forall k, e | k in ctx.events && e in ctx.events[k]
      ensures e.fact.scope == k.0 && e.fact.name == k.1 && SoundImport(e)
    {
      assert e in EventsOf(ctx, k.0, k.1);
    }
  }

  // ----- a built context runs forwards -----

  /** What an import fact records as its binding's value: the path of a plain import. */
  function ImportValue(f: ImportFact): Option<Dotted> {
    match f case PlainImport(modul, _, _, _) => Some(modul) case FromImport(_, _, _, _, _, _) => None
  }

  predicate Binds(f: ImportFact, b: Binding) { (f.scope, f.pos, LocalName(f)) == (b.scope, b.pos, b.name) }

  /** What the probe records of imports: each binding beside its import fact, no statement binding one name twice. */
  ghost predicate Paired(facts: FileFacts) {
    forall b :: b in facts.bindings && b.kind.ImportBinding? ==>
      && (exists f :: f in facts.imports && Binds(f, b))
      && (forall f :: f in facts.imports && Binds(f, b) ==>
          ImportValue(f) == b.value && (f.FromImport? ==> f.name != "*"))
  }

  /** Modules and symbols stand in their indexes under their own names. */
  ghost predicate IndexesKeyed(modules: ModuleIndex, symbols: SymbolIndex) {
    && KeyedSymbols(symbols)
    && forall n, record :: n in modules && record in modules[n] ==> record.modul == n
  }

  /** An entry of the import index comes from an import fact that binds its key. */
  lemma {:induction false} EntryFrom(file: FileRecord, facts: seq<ImportFact>, modules: ModuleIndex,
                                     symbols: SymbolIndex, b: Binding)
    requires (b.scope, b.pos, b.name) in ImportsBy(file, facts, modules, symbols)
    ensures exists f ::
      f in facts && Binds(f, b)
      && ImportEdge(file, f, modules, symbols).1 ==
           Some(ImportsBy(file, facts, modules, symbols)[(b.scope, b.pos, b.name)])
  {
    hide ImportEdge;
    var front, last := facts[..|facts| - 1], facts[|facts| - 1];
    assert facts == front + [last];
    if !Binds(last, b) || ImportEdge(file, last, modules, symbols).1.None? {
      EntryFrom(file, front, modules, symbols, b);
    }
  }

  /** A plain import always has an entry. */
  lemma {:induction false} PlainEntered(file: FileRecord, facts: seq<ImportFact>, modules: ModuleIndex,
                                        symbols: SymbolIndex, b: Binding, f: ImportFact)
    requires f in facts && Binds(f, b) && f.PlainImport?
    ensures (b.scope, b.pos, b.name) in ImportsBy(file, facts, modules, symbols)
  {
    var front, last := facts[..|facts| - 1], facts[|facts| - 1];
    assert facts == front + [last];
    if f in front { PlainEntered(file, front, modules, symbols, b, f); }
  }

  lemma EventKeyed(file: FileRecord, facts: FileFacts, modules: ModuleIndex, symbols: SymbolIndex,
                   definitions: map<Dotted, set<Target>>, b: Binding)
    requires IndexesKeyed(modules, symbols) && Paired(facts) && b in facts.bindings
    ensures KeyedImport(EventOf(b, ImportsBy(file, facts.imports, modules, symbols), definitions))
  {
    hide ImportsBy, FromBase, KeyedSymbols;
    if b.kind.ImportBinding? {
      var imports := ImportsBy(file, facts.imports, modules, symbols);
      var key := (b.scope, b.pos, b.name);
      var f :| f in facts.imports && Binds(f, b);
      if f.PlainImport? { PlainEntered(file, facts.imports, modules, symbols, b, f); }
      if key in imports {
        EntryFrom(file, facts.imports, modules, symbols, b);
        var g :| g in facts.imports && Binds(g, b) && ImportEdge(file, g, modules, symbols).1 == Some(imports[key]);
        EdgeKeyed(file, g, modules, symbols, b);
      }
    }
  }

  lemma EdgeKeyed(file: FileRecord, f: ImportFact, modules: ModuleIndex, symbols: SymbolIndex, b: Binding)
    requires IndexesKeyed(modules, symbols) && Binds(f, b) && ImportValue(f) == b.value
      && ImportEdge(file, f, modules, symbols).1.Some?
    ensures var entry := ImportEdge(file, f, modules, symbols).1.value;
            if b.value.Some? then
              && (entry.pattern == [b.name] || (entry.pattern == b.value.value && b.value.value[0] == b.name))
              && forall t :: t in entry.targets ==> ValueOf(t) == Module(b.value.value)
            else entry.pattern == [b.name]
  {
    hide KeyedSymbols, FromBase, ModuleSymbols;
  }

  /**
   * A scope of a built context without wildcard, global or nonlocal is what the forward theorems are about, whatever
   * happens in it.
   */
  lemma BuiltComparable(ctx: Context, file: FileRecord, facts: FileFacts, modules: ModuleIndex, symbols: SymbolIndex,
                        definitions: map<Dotted, set<Target>>, scope: Scope, history: History)
    requires SoundContext(ctx) && BuiltFrom(ctx, file, facts, modules, symbols, definitions)
    requires IndexesKeyed(modules, symbols) && Paired(facts)
    requires scope in facts.scopes && scope.globals == {} && scope.nonlocals == {}
    requires WildcardsIn(file, facts.imports, modules, symbols, scope.id) == []
    requires forall h :: h in history ==> h.event.fact.scope == scope.id
    ensures Comparable(ctx, scope, history)
  {
    hide SoundContext, EventOf, ImportsBy, KeyedImport, Paired, KeyedSymbols;
    forall k, e | k in ctx.events && e in ctx.events[k] ensures KeyedImport(e) {
      assert e in EventsOf(ctx, k.0, k.1);
      var b := BuiltEvent(ctx, file, facts, modules, symbols, definitions, k.0, k.1, e);
      EventKeyed(file, facts, modules, symbols, definitions, b);
    }
  }

  /** Every event of a built context is made from one of the binding facts, which says all there is to it. */
  lemma BuiltEvent(ctx: Context, file: FileRecord, facts: FileFacts, modules: ModuleIndex, symbols: SymbolIndex,
                   definitions: map<Dotted, set<Target>>, id: ScopeId, name: string, e: Event) returns (b: Binding)
    requires BuiltFrom(ctx, file, facts, modules, symbols, definitions) && e in EventsOf(ctx, id, name)
    ensures b in facts.bindings && e == EventOf(b, ImportsBy(file, facts.imports, modules, symbols), definitions)
    ensures b == e.fact && b.scope == id && b.name == name
  {
    hide EventOf, ImportsBy, SortEvents, PositionSorted, Sorted;
    var events := EventList(facts.bindings, ImportsBy(file, facts.imports, modules, symbols), definitions);
    SortMembers(events, e);
    var i :| 0 <= i < |events| && events[i] == e;
    b := facts.bindings[i];
  }

  lemma FactIndexed(ctx: Context, file: FileRecord, facts: FileFacts, modules: ModuleIndex, symbols: SymbolIndex,
                   definitions: map<Dotted, set<Target>>, b: Binding)
    requires BuiltFrom(ctx, file, facts, modules, symbols, definitions) && b in facts.bindings
    ensures EventOf(b, ImportsBy(file, facts.imports, modules, symbols), definitions) in EventsOf(ctx, b.scope, b.name)
    ensures PositionSorted(EventsOf(ctx, b.scope, b.name))
  {
    hide EventOf, ImportsBy, SortEvents, PositionSorted, Sorted;
    var events := EventList(facts.bindings, ImportsBy(file, facts.imports, modules, symbols), definitions);
    var i :| 0 <= i < |facts.bindings| && facts.bindings[i] == b;
    SortMembers(events, events[i]);
  }
}
