/** The linker's scope-aware name resolver: it walks backwards through aliases, imports and scopes. */
module PythonLinker {
  import opened Common
  import opened ProbeFacts

  datatype FileRecord = FileRecord(modul: Dotted, path: string, sourceId: string, isPackage: bool)

  datatype SymbolRecord = SymbolRecord(file: FileRecord, definition: Position)

  datatype Target =
    | ModuleTarget(file: FileRecord)
    | SymbolTarget(symbol: Dotted, record: SymbolRecord)

  datatype ImportState =
    | InternalModule | InternalSymbol | AmbiguousImport | External | UnresolvedInternal

  /** A binding fact with what indexing adds to it. */
  datatype Event = Event(
    fact: Binding,
    pattern: Option<Dotted>,
    importState: Option<ImportState>,
    targets: set<Target>)

  type SymbolIndex = map<Dotted, map<string, seq<SymbolRecord>>>

  datatype Context = Context(
    scopes: seq<Scope>,
    events: map<(ScopeId, string), seq<Event>>,
    wildcards: map<ScopeId, seq<Position>>,
    symbols: SymbolIndex)

  datatype State = Candidate | Ambiguous | Unresolved

  datatype Reason =
    | AliasCycle | ControlDependentRebinding | UniqueLexicalBinding | UniqueAliasBinding
    | MultipleInternalTargets | ExternalTarget | InternalTargetNotFound
    | ParameterBinding | DeletedBinding | AnnotationOnlyBinding | DynamicRebinding
    | UnknownScope | NonlocalBindingNotFound | EnclosingRebindingNotProven | LocalBeforeBinding
    | WildcardImportScope | UnknownBinding
    | ImportPatternMismatch | ModuleNotCallable | AttributeTargetNotModeled | DynamicCallee

  /** `chain` holds the events themselves; a report prints a projection of each. */
  datatype Resolution = Resolution(
    state: State,
    reason: Reason,
    targets: set<Target>,
    chain: seq<Event>,
    event: Option<Event>)

  type Key = (ScopeId, string, Position)

  function KeyOf(e: Event): Key { (e.fact.scope, e.fact.name, e.fact.pos) }

  // ----- indexes -----

  function EventsOf(ctx: Context, scope: ScopeId, name: string): seq<Event> {
    if (scope, name) in ctx.events then ctx.events[(scope, name)] else []
  }

  /** The prefix of a position-sorted list lying before a position. */
  function EventsBefore(events: seq<Event>, pos: Position): (visible: seq<Event>)
    ensures forall e :: e in visible <==> e in events && e.fact.pos.Before(pos)
    ensures events == [] ==> visible == []
  {
    if events == [] then []
    else if events[0].fact.pos.Before(pos) then [events[0]] + EventsBefore(events[1..], pos)
    else EventsBefore(events[1..], pos)
  }

  function Last(events: seq<Event>): (e: Event)
    requires events != []
    ensures e in events
  {
    events[|events| - 1]
  }

  /** The event lists are keyed by the scope and name of their events. */
  ghost predicate Indexed(ctx: Context) {
    forall k, e :: k in ctx.events && e in ctx.events[k] ==> e.fact.scope == k.0 && e.fact.name == k.1
  }

  ghost predicate WellFormed(ctx: Context) {
    ScopeTree(ctx.scopes) && Indexed(ctx)
  }

  /** How far down the lookup order a scope stands: 0 for a scope the file does not have. */
  function Rank(ctx: Context, id: ScopeId): nat {
    IndexOf(ctx.scopes, id) + 1
  }

  lemma ParentRank(ctx: Context, i: nat)
    requires ScopeTree(ctx.scopes) && i < |ctx.scopes|
    ensures Rank(ctx, ctx.scopes[i].id) == i + 1
    ensures ctx.scopes[i].lookupParent.Some? ==> 0 < Rank(ctx, ctx.scopes[i].lookupParent.value) <= i
    ensures ctx.scopes[i].globals != {} || ctx.scopes[i].nonlocals != {} ==> Rank(ctx, ModuleId) <= i
  {
    IndexOfUnique(ctx.scopes, i);
    IndexOfUnique(ctx.scopes, 0);
    if i > 0 {
      assert LookupParentBefore(ctx.scopes, i);
      var j :| 0 <= j < i && ctx.scopes[j].id == ctx.scopes[i].lookupParent.value;
      IndexOfUnique(ctx.scopes, j);
    }
  }

  /** The nearest strict lookup ancestor that is function-like and binds the name. */
  function FindNonlocal(ctx: Context, id: ScopeId, name: string): (r: Option<ScopeId>)
    requires ScopeTree(ctx.scopes)
    ensures r.Some? ==> 0 < Rank(ctx, r.value) < Rank(ctx, id)
    decreases Rank(ctx, id)
  {
    var i := IndexOf(ctx.scopes, id);
    if i < 0 || ctx.scopes[i].lookupParent == None then None
    else
      var p := ctx.scopes[i].lookupParent.value;
      ParentRank(ctx, i);
      var j := IndexOf(ctx.scopes, p);
      if ctx.scopes[j].kind.FunctionLike() && name in ctx.scopes[j].locals then Some(p)
      else FindNonlocal(ctx, p, name)
  }

  // ----- the resolver -----

  predicate AliasKind(kind: BindingKind) {
    kind.Assignment? || kind.AnnotatedAssignment? || kind.NamedExpression?
  }

  predicate DefinitionKind(kind: BindingKind) {
    kind.FunctionBinding? || kind.AsyncFunctionBinding? || kind.ClassBinding?
  }

  /** The events whose dotted right-hand side is resolved: plain aliases, and conditional ones without targets. */
  predicate FollowsText(e: Event) {
    && AliasKind(e.fact.kind) && e.fact.value.Some? && !e.fact.dynamic
    && (if e.fact.control != [] then e.targets == {} else e.fact.runtime)
  }

  function ResolveEvent(ctx: Context, e: Event, visited: set<Key>): Resolution
    requires WellFormed(ctx)
    decreases Rank(ctx, e.fact.scope), 0, e.fact.pos.line, e.fact.pos.column, 3
  {
    if KeyOf(e) in visited then
      Resolution(Unresolved, AliasCycle, {}, [e], Some(e))
    else if FollowsText(e) then
      FollowedBy(e, ResolveText(ctx, e.fact.value.value, e.fact.scope, e.fact.pos, visited + {KeyOf(e)}, true))
    else
      Settled(e)
  }

  /** An event that hands on the answer for its text, with itself at the head of the chain. */
  function FollowedBy(e: Event, resolved: Resolution): Resolution {
    if e.fact.control != [] then
      Resolution(Ambiguous, ControlDependentRebinding, resolved.targets, [e] + resolved.chain, Some(e))
    else
      Resolution(resolved.state,
                 if resolved.state == Candidate then UniqueAliasBinding else resolved.reason,
                 resolved.targets, [e] + resolved.chain, Some(e))
  }

  /** An event that is answered from its own record. */
  function Settled(e: Event): Resolution {
    var kind := e.fact.kind;
    if e.fact.control != [] then Resolution(Ambiguous, ControlDependentRebinding, e.targets, [e], Some(e))
    else if kind.ImportBinding? then ResolveImport(e)
    else if DefinitionKind(kind) then
      if |e.targets| == 1 then Resolution(Candidate, UniqueLexicalBinding, e.targets, [e], Some(e))
      else if |e.targets| > 1 then Resolution(Ambiguous, MultipleInternalTargets, e.targets, [e], Some(e))
      else Resolution(Unresolved, InternalTargetNotFound, {}, [e], Some(e))
    else if kind.Parameter? then Resolution(Unresolved, ParameterBinding, {}, [e], Some(e))
    else if kind.Delete? then Resolution(Unresolved, DeletedBinding, {}, [e], Some(e))
    else if kind.Annotation? || !e.fact.runtime then Resolution(Unresolved, AnnotationOnlyBinding, {}, [e], Some(e))
    else Resolution(Unresolved, DynamicRebinding, {}, [e], Some(e))
  }

  function ResolveImport(e: Event): Resolution {
    var state := e.importState;
    if (state == Some(InternalModule) || state == Some(InternalSymbol)) && |e.targets| == 1 then
      Resolution(Candidate, UniqueLexicalBinding, e.targets, [e], Some(e))
    else if state == Some(AmbiguousImport) || |e.targets| > 1 then
      Resolution(Ambiguous, MultipleInternalTargets, e.targets, [e], Some(e))
    else if state == Some(External) then
      Resolution(Unresolved, ExternalTarget, {}, [e], Some(e))
    else
      Resolution(Unresolved, InternalTargetNotFound, e.targets, [e], Some(e))
  }

  function ResolveName(ctx: Context, name: string, id: ScopeId, pos: Position, visited: set<Key>,
                       enclosing: bool): Resolution
    requires WellFormed(ctx)
    decreases Rank(ctx, id), if enclosing then 2 else 0, if enclosing then 0 else pos.line,
              if enclosing then 0 else pos.column, 1
  {
    var i := IndexOf(ctx.scopes, id);
    if i < 0 then Resolution(Unresolved, UnknownScope, {}, [], None)
    else
      ParentRank(ctx, i);
      var scope := ctx.scopes[i];
      var events := EventsOf(ctx, id, name);
      var visible := EventsBefore(events, pos);
      if name in scope.globals || name in scope.nonlocals then
        if visible != [] then ResolveEvent(ctx, Last(visible), visited)
        else if name in scope.globals then ResolveName(ctx, name, ModuleId, pos, visited, true)
        else match FindNonlocal(ctx, id, name)
          case None => Resolution(Unresolved, NonlocalBindingNotFound, {}, [], None)
          case Some(owner) => ResolveName(ctx, name, owner, pos, visited, true)
      else if enclosing then
        if |events| > 1 then
          var partials := ResolveEach(ctx, id, events, visited);
          Resolution(Ambiguous, EnclosingRebindingNotProven, partials.0, partials.1, None)
        else if |events| == 1 then ResolveEvent(ctx, events[0], visited)
        else if name in scope.locals then Resolution(Unresolved, LocalBeforeBinding, {}, [], None)
        else ResolveOutward(ctx, name, id, pos, visited)
      else if visible != [] then ResolveEvent(ctx, Last(visible), visited)
      else if (scope.kind.FunctionLike() || scope.kind.ModuleKind?) && name in scope.locals then
        Resolution(Unresolved, LocalBeforeBinding, {}, if events == [] then [] else [events[0]], None)
      else ResolveOutward(ctx, name, id, pos, visited)
  }

  /** The targets and the chains of several events of one scope, put together. */
  function ResolveEach(ctx: Context, id: ScopeId, events: seq<Event>, visited: set<Key>): (set<Target>, seq<Event>)
    requires WellFormed(ctx)
    requires forall e :: e in events ==> e.fact.scope == id
    decreases Rank(ctx, id), 1, |events|, 0, 0
  {
    if events == [] then ({}, [])
    else
      var first := ResolveEvent(ctx, events[0], visited);
      var rest := ResolveEach(ctx, id, events[1..], visited);
      (first.targets + rest.0, first.chain + rest.1)
  }

  /** The last part of name resolution: a wildcard import blocks it, otherwise ask the lookup parent. */
  function ResolveOutward(ctx: Context, name: string, id: ScopeId, pos: Position, visited: set<Key>): Resolution
    requires WellFormed(ctx)
    decreases Rank(ctx, id), 0, 0, 0, 0
  {
    var i := IndexOf(ctx.scopes, id);
    if i < 0 then Resolution(Unresolved, UnknownScope, {}, [], None)
    else if WildcardBefore(ctx, id, pos) then Resolution(Unresolved, WildcardImportScope, {}, [], None)
    else if ctx.scopes[i].lookupParent == None then Resolution(Unresolved, UnknownBinding, {}, [], None)
    else
      ParentRank(ctx, i);
      ResolveName(ctx, name, ctx.scopes[i].lookupParent.value, pos, visited, true)
  }

  predicate WildcardBefore(ctx: Context, id: ScopeId, pos: Position) {
    id in ctx.wildcards && exists p | p in ctx.wildcards[id] :: p.Before(pos)
  }

  function ResolveText(ctx: Context, text: Dotted, id: ScopeId, pos: Position, visited: set<Key>,
                       aliasMode: bool): Resolution
    requires WellFormed(ctx)
    decreases Rank(ctx, id), 0, pos.line, pos.column, 2
  {
    ApplySuffix(ctx.symbols, text, ResolveName(ctx, text[0], id, pos, visited, false), aliasMode)
  }

  /** What is left of a dotted text once its root is bound, or None when an import binds a different path. */
  function SuffixAfter(text: Dotted, event: Option<Event>): Option<seq<string>> {
    if event.Some? && event.value.fact.kind.ImportBinding? then
      var pattern: seq<string> := if event.value.pattern.Some? then event.value.pattern.value else [text[0]];
      if text == pattern then Some([])
      else if pattern < text then Some(text[|pattern|..])
      else if pattern != [text[0]] then None
      else Some(text[1..])
    else Some(text[1..])
  }

  function ModuleSymbols(symbols: SymbolIndex, modul: Dotted, name: string): set<Target> {
    if modul in symbols && name in symbols[modul] then
      set r | r in symbols[modul][name] :: SymbolTarget([name], r)
    else {}
  }

  function ApplySuffix(symbols: SymbolIndex, text: Dotted, root: Resolution, aliasMode: bool): Resolution {
    match SuffixAfter(text, root.event)
    case None => Resolution(Unresolved, ImportPatternMismatch, {}, root.chain, None)
    case Some(suffix) =>
      if suffix == [] then
        var callable := set t | t in root.targets && t.SymbolTarget?;
        if |callable| == 1 && root.state == Candidate then
          Resolution(Candidate, root.reason, callable, root.chain, root.event)
        else if |callable| > 1 || root.state == Ambiguous then
          Resolution(Ambiguous, root.reason, if callable != {} then callable else root.targets, root.chain, root.event)
        else if aliasMode && |root.targets| == 1 && callable == {} then
          Resolution(Candidate, root.reason, root.targets, root.chain, root.event)
        else if root.state != Candidate then root
        else Resolution(Unresolved, ModuleNotCallable, {}, root.chain, root.event)
      else
        var resolved :=
          if |suffix| == 1
          then
            set t, r | t in root.targets && t.ModuleTarget? && r in ModuleSymbols(symbols, t.file.modul, suffix[0]) :: r
          else {};
        if |resolved| == 1 && root.state == Candidate then
          Resolution(Candidate, root.reason, resolved, root.chain, root.event)
        else if |resolved| > 1 || root.state == Ambiguous then
          Resolution(Ambiguous, MultipleInternalTargets, if resolved != {} then resolved else root.targets, root.chain,
                     root.event)
        else if root.state != Candidate then root
        else Resolution(Unresolved, AttributeTargetNotModeled, {}, root.chain, root.event)
  }

  function ResolveCall(ctx: Context, call: Call): Resolution
    requires WellFormed(ctx)
  {
    match call.callee
    case None => Resolution(Unresolved, DynamicCallee, {}, [], None)
    case Some(text) => ResolveText(ctx, text, call.scope, call.pos, {}, false)
  }
}
