/** Backward resolution against forward execution of the binding events that have taken effect in a scope. */
module LinkerForward {
  import opened Common
  import opened ProbeFacts
  import opened PythonLinker
  import opened LinkerEvidence

  /** What a text stands for: a module by its dotted name, a definition, or something the model does not know. */
  datatype Value = Module(name: Dotted) | Definition(target: Target) | Unknown

  function ValueOf(t: Target): Value {
    match t
    case ModuleTarget(file) => Module(file.modul)
    case SymbolTarget(_, _) => Definition(t)
  }

  /** The module a target lives in. */
  function Home(t: Target): Dotted {
    match t
    case ModuleTarget(file) => file.modul
    case SymbolTarget(_, record) => record.file.modul
  }

  /** Importing `a.b.c` loads `a`, `a.b` and `a.b.c`. */
  function Prefixes(path: Dotted): set<seq<string>> { set k | 1 <= k <= |path| :: path[..k] }

  /**
   * An attribute of a module: a loaded submodule first (it is bound in its package), else the module's one top-level
   * symbol.
   */
  ghost function Step(symbols: SymbolIndex, loaded: set<seq<string>>, v: Value, attribute: string): Value {
    if !v.Module? then Unknown
    else if v.name + [attribute] in loaded then Module(v.name + [attribute])
    else if exists s :: ModuleSymbols(symbols, v.name, attribute) == {s} then
      var s :| ModuleSymbols(symbols, v.name, attribute) == {s}; Definition(s)
    else Unknown
  }

  ghost function Walk(symbols: SymbolIndex, loaded: set<seq<string>>, v: Value, path: seq<string>): Value
    decreases |path|
  {
    if path == [] then v else Walk(symbols, loaded, Step(symbols, loaded, v, path[0]), path[1..])
  }

  // ----- running a scope -----

  /** What a text stands for, and the bindings that led there, the latest first. */
  datatype Seen = Seen(value: Value, chain: seq<Event>)

  /** The names a scope holds, and the modules loaded so far. */
  datatype Store = Store(names: map<string, Seen>, loaded: set<seq<string>>)

  /** A name of another scope, and what that scope's import of it loaded. */
  datatype View = View(seen: Seen, loaded: set<seq<string>>)

  const NOWHERE := View(Seen(Unknown, []), {})

  /** The resolver's answer for a name, read as a value; `import a.b` binds `a` itself and loads `a.b`. */
  ghost function Viewed(r: Resolution): View {
    if r.state == Candidate && r.event.Some? && exists t :: r.targets == {t} then
      var t :| r.targets == {t};
      var path := BoundPath(r.event.value);
      if |path| > 1 then View(Seen(Module(path[..1]), r.chain), Prefixes(path)) else View(Seen(ValueOf(t), r.chain), {})
    else NOWHERE
  }

  ghost function Elsewhere(ctx: Context, name: string, id: ScopeId, pos: Position): View
    requires WellFormed(ctx)
  {
    Viewed(ResolveName(ctx, name, id, pos, {}, true))
  }

  /**
   * Reading a name. A local of a function or module has to be bound; an unbound local of a class body is read from the
   * global namespace, past every enclosing function; any other name is looked up in the lookup parent.
   */
  ghost function Read(ctx: Context, scope: Scope, store: Store, name: string, pos: Position): View
    requires WellFormed(ctx)
  {
    if name in store.names then View(store.names[name], {})
    else if scope.lookupParent == None then NOWHERE
    else if name in scope.locals then
      if scope.kind.ClassKind? then Elsewhere(ctx, name, ModuleId, pos) else NOWHERE
    else Elsewhere(ctx, name, scope.lookupParent.value, pos)
  }

  ghost function Evaluate(ctx: Context, scope: Scope, store: Store, text: Dotted, pos: Position): Seen
    requires WellFormed(ctx)
  {
    var view := Read(ctx, scope, store, text[0], pos);
    Seen(Walk(ctx.symbols, store.loaded + view.loaded, view.seen.value, text[1..]), view.seen.chain)
  }

  /** A definition or an internal import of one target, under whatever control. */
  ghost predicate Names(e: Event, t: Target) {
    && e.targets == {t}
    && (DefinitionKind(e.fact.kind)
        || (e.fact.kind.ImportBinding? && e.importState in {Some(InternalModule), Some(InternalSymbol)}))
  }

  /** `import a.b`, with or without an alias, records its path as the value. */
  predicate PlainImported(e: Event) { e.fact.kind.ImportBinding? && e.fact.value.Some? }

  predicate Copies(e: Event) { AliasKind(e.fact.kind) && e.fact.runtime && !e.fact.dynamic && e.fact.value.Some? }

  /** The modules an event loads. */
  ghost function Loads(e: Event): set<seq<string>> {
    if PlainImported(e) then Prefixes(e.fact.value.value)
    else if e.fact.kind.ImportBinding? && exists t :: t in e.targets && Names(e, t) then
      var t :| t in e.targets && Names(e, t); Prefixes(Home(t))
    else {}
  }

  /** What an event gives its name; `read` is the store at the moment its right-hand side was read. */
  ghost function Written(ctx: Context, scope: Scope, read: Store, e: Event): Seen
    requires WellFormed(ctx)
  {
    if PlainImported(e) then
      Seen(if e.pattern == e.fact.value then Module(e.fact.value.value[..1]) else Module(e.fact.value.value), [e])
    else if exists t :: t in e.targets && Names(e, t) then
      var t :| t in e.targets && Names(e, t); Seen(ValueOf(t), [e])
    else if Copies(e) then
      var source := Evaluate(ctx, scope, read, e.fact.value.value, e.fact.pos);
      Seen(source.value, [e] + source.chain)
    else Seen(Unknown, [e])
  }

  /** A bare annotation leaves the name as it was. */
  predicate Silent(e: Event) {
    !e.fact.kind.ImportBinding? && !DefinitionKind(e.fact.kind) && !e.fact.kind.Delete?
    && (e.fact.kind.Annotation? || !e.fact.runtime)
  }

  /** One binding event taking effect. */
  ghost function Execute(ctx: Context, scope: Scope, store: Store, read: Store, e: Event): Store
    requires WellFormed(ctx)
  {
    var names :=
      if e.fact.kind.Delete? then store.names - {e.fact.name}
      else if Silent(e) then store.names
      else store.names[e.fact.name := Written(ctx, scope, read, e)];
    Store(names, store.loaded + Loads(e))
  }

  /** An event that has taken effect, and how many had when its right-hand side was read. */
  datatype Took = Took(event: Event, read: nat)

  /** What has taken effect in a scope, in the order in which it did - which need not be the order of positions. */
  type History = seq<Took>

  function ReadAt(history: History, k: nat): (n: nat)
    requires k < |history|
    ensures n <= k
  {
    if history[k].read < k then history[k].read else k
  }

  /** `start` is what the process had loaded before. */
  ghost function Run(ctx: Context, scope: Scope, start: set<seq<string>>, history: History, n: nat): Store
    requires WellFormed(ctx) && n <= |history|
    decreases n
  {
    if n == 0 then Store(map[], start)
    else
      Execute(ctx, scope, Run(ctx, scope, start, history, n - 1),
              Run(ctx, scope, start, history, ReadAt(history, n - 1)), history[n - 1].event)
  }

  ghost function LoadedAt(start: set<seq<string>>, history: History, n: nat): set<seq<string>>
    requires n <= |history|
  {
    if n == 0 then start else LoadedAt(start, history, n - 1) + Loads(history[n - 1].event)
  }

  /** The place in the history of the event whose binding of a name is in force after `n` events. */
  function InForce(history: History, n: nat, name: string): (k: Option<nat>)
    requires n <= |history|
    ensures k.Some? ==> k.value < n && history[k.value].event.fact.name == name
                        && !history[k.value].event.fact.kind.Delete? && !Silent(history[k.value].event)
  {
    if n == 0 then None
    else
      var e := history[n - 1].event;
      if e.fact.name != name || Silent(e) then InForce(history, n - 1, name)
      else if e.fact.kind.Delete? then None
      else Some(n - 1)
  }

  /**
   * What an import event says of itself: its pattern is its path, or the one name it binds; a plain one targets its
   * path.
   */
  ghost predicate KeyedImport(e: Event) {
    e.fact.kind.ImportBinding? ==>
      if e.fact.value.Some? then
        && (e.pattern == Some([e.fact.name]) || (e.pattern == e.fact.value && e.fact.value.value[0] == e.fact.name))
        && forall t :: t in e.targets ==> ValueOf(t) == Module(e.fact.value.value)
      else e.pattern in {None, Some([e.fact.name])}
  }

  /** Symbols stand under the module they live in. */
  ghost predicate KeyedSymbols(symbols: SymbolIndex) {
    forall n: Dotted, a, t :: t in ModuleSymbols(symbols, n, a) ==> Home(t) == n
  }

  ghost predicate Keyed(ctx: Context) {
    KeyedSymbols(ctx.symbols) && forall k, e :: k in ctx.events && e in ctx.events[k] ==> KeyedImport(e)
  }

  /**
   * What the comparison is about: a scope without wildcard imports and global or nonlocal declarations, and events that
   * take effect there. Any of the scope's events may be among them, in any order and any number of times.
   */
  ghost predicate Comparable(ctx: Context, scope: Scope, history: History) {
    && SoundContext(ctx) && Keyed(ctx) && scope in ctx.scopes
    && scope.id !in ctx.wildcards
    && scope.globals == {} && scope.nonlocals == {}
    && (forall h :: h in history ==> h.event.fact.scope == scope.id)
  }

  /** The store holds for a name what the binding in force wrote, and nothing else. */
  lemma {:induction false} StoreHolds(ctx: Context, scope: Scope, start: set<seq<string>>, history: History, n: nat,
                                      name: string)
    requires WellFormed(ctx) && n <= |history|
    ensures var store := Run(ctx, scope, start, history, n);
            && store.loaded == LoadedAt(start, history, n)
            && match InForce(history, n, name)
               case None => name !in store.names
               case Some(k) =>
                 && name in store.names
                 && store.names[name] ==
                      Written(ctx, scope, Run(ctx, scope, start, history, ReadAt(history, k)), history[k].event)
  {
    hide Written, Loads;
    if n > 0 { StoreHolds(ctx, scope, start, history, n - 1, name); }
  }

  lemma {:induction false} LoadedBy(start: set<seq<string>>, history: History, n: nat, k: nat)
    requires k < n <= |history|
    ensures Loads(history[k].event) <= LoadedAt(start, history, n)
  {
    hide Loads;
    if k < n - 1 { LoadedBy(start, history, n - 1, k); }
  }

  // ----- where resolver and execution part -----

  /** What the resolver says of a text. */
  ghost function Told(r: Resolution): Seen {
    if r.state == Candidate && exists t :: r.targets == {t} then var t :| r.targets == {t}; Seen(ValueOf(t), r.chain)
    else Seen(Unknown, [])
  }

  /** The path leads from a module into a loaded submodule. */
  predicate Enters(loaded: set<seq<string>>, v: Value, path: seq<string>) {
    path != [] && v.Module? && v.name + [path[0]] in loaded
  }

  /** An import's path does not lead to the text, or the text goes on into a loaded submodule. */
  ghost predicate PathParts(loaded: set<seq<string>>, path: Dotted, v: Value, text: Dotted) {
    path <= text ==> Enters(loaded, v, text[|path|..])
  }

  /** The scope in which the search for a name outside ends. */
  function Answering(ctx: Context, name: string, id: ScopeId, pos: Position): ScopeId
    requires WellFormed(ctx)
    decreases Rank(ctx, id)
  {
    var i := IndexOf(ctx.scopes, id);
    if i < 0 then id
    else
      ParentRank(ctx, i);
      var scope := ctx.scopes[i];
      if name in scope.globals || name in scope.nonlocals then
        if EventsBefore(EventsOf(ctx, id, name), pos) != [] then id
        else if name in scope.globals then Answering(ctx, name, ModuleId, pos)
        else match FindNonlocal(ctx, id, name)
          case None => id
          case Some(owner) => Answering(ctx, name, owner, pos)
      else if EventsOf(ctx, id, name) != [] || name in scope.locals || WildcardBefore(ctx, id, pos)
        || scope.lookupParent == None then id
      else Answering(ctx, name, scope.lookupParent.value, pos)
  }

  /**
   * A name the scope has not bound. An unbound class local is answered by the nearest scope around it that knows the
   * name, where execution asks the module; apart from that only a path can part the two.
   */
  ghost predicate PartsOutside(ctx: Context, scope: Scope, loaded: set<seq<string>>, text: Dotted, pos: Position)
    requires WellFormed(ctx)
  {
    scope.lookupParent.Some? && (text[0] in scope.locals ==> scope.kind.ClassKind?) &&
    var r := ResolveName(ctx, text[0], scope.lookupParent.value, pos, {}, true);
    || (text[0] in scope.locals && Answering(ctx, text[0], scope.lookupParent.value, pos) != ModuleId)
    || (r.state == Candidate && r.event.Some? && PathParts(loaded, BoundPath(r.event.value), Told(r).value, text))
  }

  /** The event whose binding of a name the resolver takes at a position. */
  function Picked(ctx: Context, id: ScopeId, name: string, pos: Position): Option<Event> {
    var visible := EventsBefore(EventsOf(ctx, id, name), pos);
    if visible == [] then None else Some(Last(visible))
  }

  function Effective(history: History, n: nat, name: string): Option<Event>
    requires n <= |history|
  {
    match InForce(history, n, name) case None => None case Some(k) => Some(history[k].event)
  }

  /**
   * Whether resolver and execution part on a text after `n` events, read off the index and the history: along the
   * aliases, the last binder by position is not the one in force, or is conditional, or is an import of another path or
   * without one internal target; or a text goes on into a loaded submodule; or the hops end at an unbound class local.
   */
  ghost predicate Parts(ctx: Context, scope: Scope, start: set<seq<string>>, history: History, n: nat, text: Dotted,
                        pos: Position)
    requires WellFormed(ctx) && n <= |history|
    decreases n
  {
    var loaded := LoadedAt(start, history, n);
    match (Picked(ctx, scope.id, text[0], pos), InForce(history, n, text[0]))
    case (None, None) => PartsOutside(ctx, scope, loaded, text, pos)
    case (Some(e), Some(k)) =>
      if history[k].event != e || e.fact.control != [] then true
      else if Copies(e) then
        Parts(ctx, scope, start, history, ReadAt(history, k), e.fact.value.value, e.fact.pos)
        || Enters(loaded, Told(ResolveText(ctx, e.fact.value.value, scope.id, e.fact.pos, {}, true)).value, text[1..])
      else if e.fact.kind.ImportBinding?
           then !IsOrigin(e) || PathParts(loaded, BoundPath(e), Told(Settled(e)).value, text)
      else Enters(loaded, Told(Settled(e)).value, text[1..])
    case _ => true
  }

  /** When either side knows a value, both know it by the same bindings exactly unless they part. */
  ghost predicate Meet(told: Seen, seen: Seen, parts: bool) {
    told.value != Unknown || seen.value != Unknown ==> (told == seen <==> !parts)
  }

  /** The same of values alone. */
  ghost predicate ValuesMeet(told: Value, seen: Value, parts: bool) {
    told != Unknown || seen != Unknown ==> (told == seen <==> !parts)
  }

  // ----- walking -----

  /** Without loaded submodules a walk is what the resolver's suffix rule does. */
  lemma AttributeWalk(symbols: SymbolIndex, t: Target, path: seq<string>)
    ensures Walk(symbols, {}, ValueOf(t), path) ==
      match Attribute(symbols, t, path) case Some(u) => ValueOf(u) case None => Unknown
  {
    if |path| > 0 {
      var v := Step(symbols, {}, ValueOf(t), path[0]);
      Stuck(symbols, {}, v, path[1..]);
      if t.ModuleTarget? && exists s :: ModuleSymbols(symbols, t.file.modul, path[0]) == {s} {
        var s :| ModuleSymbols(symbols, t.file.modul, path[0]) == {s};
        assert s in ModuleSymbols(symbols, t.file.modul, path[0]);
        assert v == Definition(s);
      }
    }
  }

  /** Nothing is known of the attributes of a definition. */
  lemma {:induction false} Stuck(symbols: SymbolIndex, loaded: set<seq<string>>, v: Value, path: seq<string>)
    ensures !v.Module? ==> Walk(symbols, loaded, v, path) == if path == [] then v else Unknown
    decreases |path|
  {
    if path != [] && !v.Module? { Stuck(symbols, loaded, Unknown, path[1..]); }
  }

  lemma WalksMeet(symbols: SymbolIndex, loaded: set<seq<string>>, v: Value, path: seq<string>)
    ensures ValuesMeet(Walk(symbols, {}, v, path), Walk(symbols, loaded, v, path), Enters(loaded, v, path))
  {
    if path != [] {
      var told, seen := Step(symbols, {}, v, path[0]), Step(symbols, loaded, v, path[0]);
      Stuck(symbols, {}, told, path[1..]);
      Stuck(symbols, loaded, seen, path[1..]);
    }
  }

  /** Two different values do not lead to the same one: symbols stand under their own module. */
  lemma WalksApart(symbols: SymbolIndex, loaded: set<seq<string>>, v: Value, w: Value, path: seq<string>)
    requires KeyedSymbols(symbols) && v != w
    ensures ValuesMeet(Walk(symbols, {}, v, path), Walk(symbols, loaded, w, path), true)
  {
    if path != [] {
      var told, seen := Step(symbols, {}, v, path[0]), Step(symbols, loaded, w, path[0]);
      StepHome(symbols, {}, v, path[0]);
      StepHome(symbols, loaded, w, path[0]);
      Stuck(symbols, {}, told, path[1..]);
      Stuck(symbols, loaded, seen, path[1..]);
    }
  }

  lemma StepHome(symbols: SymbolIndex, loaded: set<seq<string>>, v: Value, attribute: string)
    requires KeyedSymbols(symbols)
    ensures var next := Step(symbols, loaded, v, attribute);
      next.Definition? ==> v.Module? && Home(next.target) == v.name
  {
    var next := Step(symbols, loaded, v, attribute);
    if next.Definition? { assert next.target in ModuleSymbols(symbols, v.name, attribute); }
  }

  /** From the root of an imported path, all of it loaded, a text walks along the path first. */
  lemma {:induction false} WalksAlong(symbols: SymbolIndex, loaded: set<seq<string>>, path: Dotted, text: Dotted,
                                      k: nat)
    requires 1 <= k <= |path| && path <= text && Prefixes(path) <= loaded
    ensures Walk(symbols, loaded, Module(path[..k]), text[k..]) == Walk(symbols, loaded, Module(path), text[|path|..])
    decreases |path| - k
  {
    if k == |path| {
      assert path[..k] == path;
    } else {
      assert path[..k] + [text[k]] == path[..k + 1];
      assert path[..k + 1] in Prefixes(path);
      assert text[k..][0] == text[k] && text[k..][1..] == text[k + 1..];
      WalksAlong(symbols, loaded, path, text, k + 1);
    }
  }

  /** An import of a path, told by its target and seen from its root. */
  lemma PathMeets(symbols: SymbolIndex, loaded: set<seq<string>>, path: Dotted, v: Value, text: Dotted)
    requires path[0] == text[0]
    requires |path| > 1 ==> v == Module(path) && Prefixes(path) <= loaded
    ensures var told := if path <= text then Walk(symbols, {}, v, text[|path|..]) else Unknown;
            var seen := Walk(symbols, loaded, if |path| > 1 then Module(path[..1]) else v, text[1..]);
            ValuesMeet(told, seen, PathParts(loaded, path, v, text))
  {
    if path <= text {
      WalksMeet(symbols, loaded, v, text[|path|..]);
      if |path| > 1 { WalksAlong(symbols, loaded, path, text, 1); }
    } else {
      assert |path| > 1;
    }
  }

  // ----- the resolver's suffix rule -----

  /** What the resolver says of a text, from what it says of the root. */
  lemma SuffixTold(ctx: Context, text: Dotted, root: Resolution)
    requires Justified(ctx, root)
    requires root.state == Candidate ==> root.chain[0].fact.name == text[0]
    ensures var told := Told(ApplySuffix(ctx.symbols, text, root, true));
            if root.state == Candidate then
              var path := BoundPath(root.event.value);
              && told.value ==
                   (if path <= text then Walk(ctx.symbols, {}, Told(root).value, text[|path|..]) else Unknown)
              && (told.value != Unknown ==> told.chain == root.chain)
            else told.value == Unknown
  {
    var r := ApplySuffix(ctx.symbols, text, root, true);
    if root.state == Candidate {
      var e := root.chain[0];
      var u :| root.targets == {u};
      SuffixJustified(ctx, text, root, true);
      if BoundPath(e) <= text { AttributeWalk(ctx.symbols, u, text[|BoundPath(e)|..]); }
      if r.state == Candidate {
        var t, w :| r.targets == {t} && Proves(ctx, r.chain, w) && Denotes(ctx.symbols, r.chain[0], w, text) == Some(t);
        SuffixDenotes(ctx, text, root, u);
      } else if BoundPath(e) <= text {
        SuffixFails(ctx, text, root, u);
      }
    } else {
      CandidateFromUnresolvedRoot(ctx.symbols, text, root, true);
    }
  }

  /** A candidate root whose text is a candidate denotes its target. */
  lemma SuffixDenotes(ctx: Context, text: Dotted, root: Resolution, u: Target)
    requires root.state == Candidate && root.targets == {u} && root.event.Some?
    requires root.event.value.fact.name == text[0]
    requires ApplySuffix(ctx.symbols, text, root, true).state == Candidate
    ensures BoundPath(root.event.value) <= text
    ensures exists t ::
      ApplySuffix(ctx.symbols, text, root, true).targets == {t}
      && Denotes(ctx.symbols, root.event.value, u, text) == Some(t)
  {
    var e := root.event.value;
    SuffixAfterPath(text, e);
    var r := ApplySuffix(ctx.symbols, text, root, true);
    var suffix := text[|BoundPath(e)|..];
    var callable := set t | t in root.targets && t.SymbolTarget?;
    assert callable == if u.SymbolTarget? then {u} else {};
    if suffix != [] {
      assert (set t, r | t in root.targets && t.ModuleTarget?
              && r in ModuleSymbols(ctx.symbols, t.file.modul, suffix[0]) :: r)
          == if u.ModuleTarget? then ModuleSymbols(ctx.symbols, u.file.modul, suffix[0]) else {};
      var t := OnlyMember(r.targets);
    }
  }

  /** A candidate root whose text is no candidate denotes nothing. */
  lemma SuffixFails(ctx: Context, text: Dotted, root: Resolution, u: Target)
    requires root.state == Candidate && root.targets == {u} && root.event.Some?
    requires root.event.value.fact.name == text[0] && BoundPath(root.event.value) <= text
    requires ApplySuffix(ctx.symbols, text, root, true).state != Candidate
    ensures Denotes(ctx.symbols, root.event.value, u, text) == None
  {
    var e := root.event.value;
    var suffix := text[|BoundPath(e)|..];
    SuffixAfterPath(text, e);
    var callable := set t | t in root.targets && t.SymbolTarget?;
    assert callable == if u.SymbolTarget? then {u} else {};
    if |suffix| == 1 && u.ModuleTarget? {
      assert (set t, r | t in root.targets && t.ModuleTarget?
              && r in ModuleSymbols(ctx.symbols, t.file.modul, suffix[0]) :: r)
          == ModuleSymbols(ctx.symbols, u.file.modul, suffix[0]);
    }
  }

  /** The index of a scope that belongs to the file. */
  lemma ScopeIndex(ctx: Context, scope: Scope) returns (i: nat)
    requires WellFormed(ctx) && scope in ctx.scopes
    ensures i < |ctx.scopes| && ctx.scopes[i] == scope && IndexOf(ctx.scopes, scope.id) == i
  {
    i :| 0 <= i < |ctx.scopes| && ctx.scopes[i] == scope;
    IndexOfUnique(ctx.scopes, i);
  }

  lemma BoundAnswer(ctx: Context, scope: Scope, name: string, pos: Position)
    requires WellFormed(ctx) && scope in ctx.scopes && scope.globals == {} && scope.nonlocals == {}
    requires EventsBefore(EventsOf(ctx, scope.id, name), pos) != []
    ensures ResolveName(ctx, name, scope.id, pos, {}, false)
         == ResolveEvent(ctx, Last(EventsBefore(EventsOf(ctx, scope.id, name), pos)), {})
  {
    var i := ScopeIndex(ctx, scope);
  }

  // ----- names from outside -----

  /** The event a candidate name rests on is in the index. */
  lemma {:induction false} NameIndexed(ctx: Context, name: string, id: ScopeId, pos: Position, enclosing: bool)
    requires WellFormed(ctx)
    ensures var r := ResolveName(ctx, name, id, pos, {}, enclosing);
            r.state == Candidate && r.event.Some? ==> exists k :: k in ctx.events && r.event.value in ctx.events[k]
    decreases Rank(ctx, id), if enclosing then 2 else 0
  {
    var i := IndexOf(ctx.scopes, id);
    if 0 <= i {
      ParentRank(ctx, i);
      var scope := ctx.scopes[i];
      var events := EventsOf(ctx, id, name);
      var visible := EventsBefore(events, pos);
      if events != [] { assert forall e :: e in events ==> (id, name) in ctx.events && e in ctx.events[(id, name)]; }
      if name in scope.globals || name in scope.nonlocals {
        if visible == [] {
          if name in scope.globals {
            NameIndexed(ctx, name, ModuleId, pos, true);
          } else if FindNonlocal(ctx, id, name).Some? {
            NameIndexed(ctx, name, FindNonlocal(ctx, id, name).value, pos, true);
          }
        }
      } else if scope.lookupParent.Some? {
        NameIndexed(ctx, name, scope.lookupParent.value, pos, true);
      }
    }
  }

  /** The scope the search ends in gives the answer, with an event of its own. */
  lemma {:induction false} AnswerFrom(ctx: Context, name: string, id: ScopeId, pos: Position)
    requires SoundContext(ctx)
    ensures var there := Answering(ctx, name, id, pos);
            var r := ResolveName(ctx, name, id, pos, {}, true);
            && r == ResolveName(ctx, name, there, pos, {}, true) && Rank(ctx, there) <= Rank(ctx, id)
            && (r.state == Candidate ==> r.chain != [] && r.chain[0].fact.scope == there)
    decreases Rank(ctx, id)
  {
    var i := IndexOf(ctx.scopes, id);
    if 0 <= i {
      ParentRank(ctx, i);
      var scope := ctx.scopes[i];
      var events := EventsOf(ctx, id, name);
      var visible := EventsBefore(events, pos);
      if name in scope.globals || name in scope.nonlocals {
        if visible != [] {
          EventJustified(ctx, Last(visible), {});
        } else if name in scope.globals {
          AnswerFrom(ctx, name, ModuleId, pos);
        } else if FindNonlocal(ctx, id, name).Some? {
          AnswerFrom(ctx, name, FindNonlocal(ctx, id, name).value, pos);
        }
      } else if |events| == 1 {
        EventJustified(ctx, events[0], {});
      } else if events == [] && name !in scope.locals && !WildcardBefore(ctx, id, pos) && scope.lookupParent.Some? {
        AnswerFrom(ctx, name, scope.lookupParent.value, pos);
      }
    }
  }

  /** An answer from another scope, told and seen. */
  lemma OutsideMeets(ctx: Context, name: string, id: ScopeId, pos: Position, loaded: set<seq<string>>, text: Dotted)
    requires SoundContext(ctx) && Keyed(ctx) && text[0] == name
    ensures var r := ResolveName(ctx, name, id, pos, {}, true);
            var view := Viewed(r);
            Meet(Told(ApplySuffix(ctx.symbols, text, r, true)),
                 Seen(Walk(ctx.symbols, loaded + view.loaded, view.seen.value, text[1..]), view.seen.chain),
                 r.state == Candidate && r.event.Some?
                 && PathParts(loaded, BoundPath(r.event.value), Told(r).value, text))
  {
    hide SoundContext, Justified, Walk, ApplySuffix, PathParts, Keyed, BoundPath, Told;
    assert WellFormed(ctx) by { SoundIsWellFormed(ctx); }
    var r := ResolveName(ctx, name, id, pos, {}, true);
    NameJustified(ctx, name, id, pos, {}, true);
    SuffixTold(ctx, text, r);
    if r.state == Candidate {
      NameIndexed(ctx, name, id, pos, true);
      var t := CandidateShape(ctx, r);
      var path := BoundPath(r.event.value);
      OutsidePath(ctx, r, t);
      PathMeets(ctx.symbols, loaded + Viewed(r).loaded, path, ValueOf(t), text);
      LongerPath(loaded, path, ValueOf(t), text);
      UntoldChain(ApplySuffix(ctx.symbols, text, r, true));
    } else {
      NoView(r, loaded);
      Stuck(ctx.symbols, loaded, Unknown, text[1..]);
    }
  }

  lemma UntoldChain(r: Resolution)
    ensures Told(r).value == Unknown ==> Told(r).chain == []
  {
  }

  lemma NoView(r: Resolution, loaded: set<seq<string>>)
    requires r.state != Candidate
    ensures Viewed(r) == NOWHERE && loaded + Viewed(r).loaded == loaded
  {
  }

  lemma CandidateShape(ctx: Context, r: Resolution) returns (t: Target)
    requires Justified(ctx, r) && r.state == Candidate
    ensures r.targets == {t} && r.event.Some? && r.chain != [] && r.event.value == r.chain[0]
      && Told(r) == Seen(ValueOf(t), r.chain)
    ensures Viewed(r) ==
            var path := BoundPath(r.event.value);
            if |path| > 1 then View(Seen(Module(path[..1]), r.chain), Prefixes(path))
            else View(Seen(ValueOf(t), r.chain), {})
  {
    t :| r.targets == {t};
  }

  lemma SoundIsWellFormed(ctx: Context)
    requires SoundContext(ctx)
    ensures WellFormed(ctx)
  {
  }

  /** What a path has loaded does not reach beyond it. */
  lemma LongerPath(loaded: set<seq<string>>, path: Dotted, v: Value, text: Dotted)
    requires |path| > 1 ==> v == Module(path)
    ensures PathParts(loaded + (if |path| > 1 then Prefixes(path) else {}), path, v, text) <==>
      PathParts(loaded, path, v, text)
  {
    assert forall p :: p in Prefixes(path) ==> |p| <= |path|;
    assert loaded + {} == loaded;
  }

  /** A candidate whose event binds a longer path names the module of that path. */
  lemma OutsidePath(ctx: Context, r: Resolution, t: Target)
    requires Keyed(ctx) && Justified(ctx, r) && r.state == Candidate && r.targets == {t}
    requires exists k :: k in ctx.events && r.event.value in ctx.events[k]
    ensures BoundPath(r.event.value)[0] == r.event.value.fact.name
    ensures |BoundPath(r.event.value)| > 1 ==> ValueOf(t) == Module(BoundPath(r.event.value))
  {
    var e := r.event.value;
    assert KeyedImport(e);
    if |BoundPath(e)| > 1 {
      assert e == r.chain[0];
      assert !PlainAlias(e);
      assert |r.chain| == 1;
    }
  }

  // ----- the theorem -----

  lemma OriginExactly(e: Event)
    ensures IsOrigin(e) <==>
              && e.fact.control == [] && |e.targets| == 1
              && (DefinitionKind(e.fact.kind)
                  || (e.fact.kind.ImportBinding? && e.importState in {Some(InternalModule), Some(InternalSymbol)}))
  {
    if |e.targets| == 1 {
      var t := OnlyMember(e.targets);
      assert t in e.targets;
    }
  }

  /** What the resolver says of an event that is no alias. */
  lemma SettledTold(e: Event)
    requires e.fact.control == [] && !FollowsText(e)
    ensures if IsOrigin(e) then
              exists t ::
                e.targets == {t} && Settled(e).targets == {t} && Names(e, t)
                && Told(Settled(e)) == Seen(ValueOf(t), [e])
            else Told(Settled(e)).value == Unknown && Settled(e).state != Candidate
    ensures Settled(e).event == Some(e) && Settled(e).chain == [e]
  {
    OriginExactly(e);
    if IsOrigin(e) { var t :| t in e.targets && Origin(e, t); }
  }

  lemma UnboundAnswer(ctx: Context, scope: Scope, name: string, pos: Position)
    requires WellFormed(ctx) && scope in ctx.scopes && scope.globals == {} && scope.nonlocals == {}
      && scope.id !in ctx.wildcards
    requires EventsBefore(EventsOf(ctx, scope.id, name), pos) == []
    ensures var r := ResolveName(ctx, name, scope.id, pos, {}, false);
            if scope.lookupParent == None || (name in scope.locals && !scope.kind.ClassKind?)
            then r.state == Unresolved && r.targets == {}
            else r == ResolveName(ctx, name, scope.lookupParent.value, pos, {}, true)
  {
    var i := ScopeIndex(ctx, scope);
  }

  lemma UntoldUnresolved(ctx: Context, text: Dotted, root: Resolution)
    ensures root.state != Candidate && root.targets == {} ==>
      Told(ApplySuffix(ctx.symbols, text, root, true)).value == Unknown
  {
    if root.state != Candidate { CandidateFromUnresolvedRoot(ctx.symbols, text, root, true); }
  }

  /** Neither side has a binding of the scope to offer. */
  lemma UnboundForward(ctx: Context, scope: Scope, start: set<seq<string>>, history: History, n: nat, text: Dotted,
                       pos: Position)
    requires Comparable(ctx, scope, history) && n <= |history|
    requires EventsBefore(EventsOf(ctx, scope.id, text[0]), pos) == [] && InForce(history, n, text[0]) == None
    ensures Meet(Told(ResolveText(ctx, text, scope.id, pos, {}, true)),
                 Evaluate(ctx, scope, Run(ctx, scope, start, history, n), text, pos),
                 PartsOutside(ctx, scope, LoadedAt(start, history, n), text, pos))
  {
    hide Walk, ApplySuffix, PathParts, Viewed, Told, SoundContext, Keyed, Run, LoadedAt, InForce, Answering;
    assert WellFormed(ctx) by { SoundIsWellFormed(ctx); }
    var name := text[0];
    var store := Run(ctx, scope, start, history, n);
    StoreHolds(ctx, scope, start, history, n, name);
    UnboundAnswer(ctx, scope, name, pos);
    UntoldUnresolved(ctx, text, ResolveName(ctx, name, scope.id, pos, {}, false));
    Stuck(ctx.symbols, store.loaded + {}, Unknown, text[1..]);
    if scope.lookupParent.Some? {
      var id := scope.lookupParent.value;
      OutsideMeets(ctx, name, id, pos, store.loaded, text);
      if name in scope.locals && scope.kind.ClassKind? { ClassForward(ctx, text, id, pos, store.loaded); }
    }
  }

  /** An unbound class local: the answer from around the class against the module's. */
  lemma ClassForward(ctx: Context, text: Dotted, id: ScopeId, pos: Position, loaded: set<seq<string>>)
    requires SoundContext(ctx) && Keyed(ctx)
    ensures var r := ResolveName(ctx, text[0], id, pos, {}, true);
            var view := Elsewhere(ctx, text[0], ModuleId, pos);
            Meet(Told(ApplySuffix(ctx.symbols, text, r, true)),
                 Seen(Walk(ctx.symbols, loaded + view.loaded, view.seen.value, text[1..]), view.seen.chain),
                 || Answering(ctx, text[0], id, pos) != ModuleId
                 || (r.state == Candidate && r.event.Some?
                     && PathParts(loaded, BoundPath(r.event.value), Told(r).value, text)))
  {
    hide Walk, ApplySuffix, PathParts, Told, SoundContext, Keyed, BoundPath, Answering, Justified;
    assert WellFormed(ctx) by { SoundIsWellFormed(ctx); }
    var r, global_ := ResolveName(ctx, text[0], id, pos, {}, true), ResolveName(ctx, text[0], ModuleId, pos, {}, true);
    AnswerFrom(ctx, text[0], id, pos);
    AnswerFrom(ctx, text[0], ModuleId, pos);
    OutsideMeets(ctx, text[0], id, pos, loaded, text);
    NameJustified(ctx, text[0], id, pos, {}, true);
    SuffixTold(ctx, text, r);
    ModuleRank(ctx, Answering(ctx, text[0], ModuleId, pos));
    if Answering(ctx, text[0], id, pos) != ModuleId {
      Stuck(ctx.symbols, loaded + {}, Unknown, text[1..]);
      if global_.state != Candidate { NoView(global_, loaded); }
    }
  }

  /** No scope stands before the module. */
  lemma ModuleRank(ctx: Context, id: ScopeId)
    requires WellFormed(ctx)
    ensures Rank(ctx, ModuleId) == 1
    ensures Rank(ctx, id) == 1 ==> id == ModuleId
  {
    IndexOfUnique(ctx.scopes, 0);
  }

  /** An alias hands on what its text stands for, then the rest of the text is walked. */
  lemma AliasMeets(symbols: SymbolIndex, loaded: set<seq<string>>, e: Event, told: Seen, seen: Seen, parts: bool,
                   rest: seq<string>)
    requires KeyedSymbols(symbols) && Meet(told, seen, parts)
    ensures Meet(Seen(Walk(symbols, {}, told.value, rest), [e] + told.chain),
                 Seen(Walk(symbols, loaded, seen.value, rest), [e] + seen.chain),
                 parts || Enters(loaded, told.value, rest))
  {
    assert [e] + told.chain == [e] + seen.chain ==> told.chain == seen.chain by {
      assert ([e] + told.chain)[1..] == told.chain && ([e] + seen.chain)[1..] == seen.chain;
    }
    if told.value == seen.value {
      WalksMeet(symbols, loaded, told.value, rest);
      Stuck(symbols, {}, told.value, rest);
      Stuck(symbols, loaded, seen.value, rest);
    } else {
      WalksApart(symbols, loaded, told.value, seen.value, rest);
    }
  }

  /** The binder is an import or a definition. */
  lemma BinderForward(ctx: Context, scope: Scope, text: Dotted, e: Event, read: Store, loaded: set<seq<string>>)
    requires WellFormed(ctx) && Keyed(ctx) && KeyedImport(e) && e.fact.name == text[0]
    requires e.fact.control == [] && !Copies(e) && !e.fact.kind.Delete? && !Silent(e) && Loads(e) <= loaded
    requires Justified(ctx, Settled(e))
    ensures var parts := if e.fact.kind.ImportBinding?
                         then !IsOrigin(e) || PathParts(loaded, BoundPath(e), Told(Settled(e)).value, text)
                         else Enters(loaded, Told(Settled(e)).value, text[1..]);
            var written := Written(ctx, scope, read, e);
            Meet(Told(ApplySuffix(ctx.symbols, text, Settled(e), true)),
                 Seen(Walk(ctx.symbols, loaded, written.value, text[1..]), written.chain), parts)
  {
    SettledTold(e);
    SuffixTold(ctx, text, Settled(e));
    if IsOrigin(e) {
      var t :| e.targets == {t} && Settled(e).targets == {t} && Names(e, t)
        && Told(Settled(e)) == Seen(ValueOf(t), [e]);
      var path := BoundPath(e);
      PathMeets(ctx.symbols, loaded, path, ValueOf(t), text);
      assert path == [text[0]] ==> path <= text && text[|path|..] == text[1..];
      if PlainImported(e) { assert |e.fact.value.value| == 1 ==> e.fact.value.value[..1] == e.fact.value.value; }
    } else {
      OriginExactly(e);
      Stuck(ctx.symbols, loaded, Unknown, text[1..]);
    }
  }

  /**
   * Resolving a text backwards and evaluating it forwards, when either knows anything, give the same value by the same
   * bindings exactly unless they part.
   */
  lemma {:induction false} TextForward(ctx: Context, scope: Scope, start: set<seq<string>>, history: History, n: nat,
                                       text: Dotted, pos: Position)
    requires Comparable(ctx, scope, history) && n <= |history|
    ensures Meet(Told(ResolveText(ctx, text, scope.id, pos, {}, true)),
                 Evaluate(ctx, scope, Run(ctx, scope, start, history, n), text, pos),
                 Parts(ctx, scope, start, history, n, text, pos))
    decreases n, 0
  {
    hide Walk, ApplySuffix, PathParts, PartsOutside, Viewed, Told, SoundContext, Keyed, Loads, Run, Justified, InForce,
         Evaluate, ResolveText;
    assert WellFormed(ctx) by { SoundIsWellFormed(ctx); }
    var picked, force := Picked(ctx, scope.id, text[0], pos), InForce(history, n, text[0]);
    if picked == None && force == None {
      UnboundForward(ctx, scope, start, history, n, text, pos);
    } else if picked.Some? && Effective(history, n, text[0]) == picked && picked.value.fact.control == [] {
      BoundForward(ctx, scope, start, history, n, text, pos, picked.value);
    } else {
      ApartForward(ctx, scope, start, history, n, text, pos);
    }
  }

  lemma EventNamed(ctx: Context, id: ScopeId, name: string, e: Event)
    requires SoundContext(ctx) && Keyed(ctx) && (id, name) in ctx.events && e in ctx.events[(id, name)]
    ensures e.fact.scope == id && e.fact.name == name && SoundImport(e) && KeyedImport(e)
  {
  }

  /** The first binding behind what the resolver says of a text. */
  lemma ToldHead(ctx: Context, scope: Scope, text: Dotted, pos: Position)
    requires SoundContext(ctx) && scope in ctx.scopes && scope.id !in ctx.wildcards && scope.globals == {}
      && scope.nonlocals == {}
    ensures var told := Told(ResolveText(ctx, text, scope.id, pos, {}, true));
            told.value != Unknown ==>
              && told.chain != []
              && match Picked(ctx, scope.id, text[0], pos)
                 case Some(e) => told.chain[0] == e && e.fact.control == []
                 case None => told.chain[0].fact.scope != scope.id
  {
    hide ApplySuffix, Justified, Proves;
    assert WellFormed(ctx) by { SoundIsWellFormed(ctx); }
    var i := ScopeIndex(ctx, scope);
    ParentRank(ctx, i);
    var name := text[0];
    var root := ResolveName(ctx, name, scope.id, pos, {}, false);
    NameJustified(ctx, name, scope.id, pos, {}, false);
    SuffixTold(ctx, text, root);
    match Picked(ctx, scope.id, name, pos) {
      case Some(e) =>
        BoundAnswer(ctx, scope, name, pos);
        assert (scope.id, name) in ctx.events && e in ctx.events[(scope.id, name)];
        EventJustified(ctx, e, {});
        CandidatePlain(ctx, e);
      case None =>
        UnboundAnswer(ctx, scope, name, pos);
        if scope.lookupParent.Some? { NameJustified(ctx, name, scope.lookupParent.value, pos, {}, true); }
    }
    CandidateChain(ctx, root);
  }

  lemma CandidateChain(ctx: Context, r: Resolution)
    requires Justified(ctx, r)
    ensures r.state == Candidate ==> r.chain != []
  {
  }

  lemma CandidatePlain(ctx: Context, e: Event)
    requires WellFormed(ctx)
    ensures ResolveEvent(ctx, e, {}).state == Candidate ==> e.fact.control == []
  {
  }

  /** The first binding behind what a text stands for. */
  lemma SeenHead(ctx: Context, scope: Scope, start: set<seq<string>>, history: History, n: nat, text: Dotted,
                 pos: Position)
    requires Comparable(ctx, scope, history) && n <= |history|
    ensures var seen := Evaluate(ctx, scope, Run(ctx, scope, start, history, n), text, pos);
            seen.value != Unknown ==>
              && seen.chain != []
              && match Effective(history, n, text[0])
                 case Some(e) => seen.chain[0] == e
                 case None => seen.chain[0].fact.scope != scope.id
  {
    hide Run, InForce, Walk, SoundContext, Keyed, LoadedAt;
    assert WellFormed(ctx) by { SoundIsWellFormed(ctx); }
    StoreHolds(ctx, scope, start, history, n, text[0]);
    match InForce(history, n, text[0]) {
      case Some(k) =>
        WrittenHead(ctx, scope, Run(ctx, scope, start, history, ReadAt(history, k)), history[k].event);
      case None =>
        var i := ScopeIndex(ctx, scope);
        ParentRank(ctx, i);
        ModuleRank(ctx, scope.id);
        Stuck(ctx.symbols, LoadedAt(start, history, n) + {}, Unknown, text[1..]);
        if scope.lookupParent.Some? {
          ElsewhereHead(ctx, text[0], scope.lookupParent.value, pos);
          ElsewhereHead(ctx, text[0], ModuleId, pos);
        }
    }
  }

  lemma WrittenHead(ctx: Context, scope: Scope, read: Store, e: Event)
    requires WellFormed(ctx)
    ensures Written(ctx, scope, read, e).chain != [] && Written(ctx, scope, read, e).chain[0] == e
  {
    hide Evaluate;
  }

  lemma ElsewhereHead(ctx: Context, name: string, id: ScopeId, pos: Position)
    requires SoundContext(ctx)
    ensures var seen := Elsewhere(ctx, name, id, pos).seen;
            && (seen.value != Unknown ==> seen.chain != [] && Rank(ctx, seen.chain[0].fact.scope) <= Rank(ctx, id))
            && (seen.value == Unknown ==> Elsewhere(ctx, name, id, pos) == NOWHERE)
  {
    hide Answering;
    AnswerFrom(ctx, name, id, pos);
  }

  /** Different bindings are in force, or the resolver does not commit itself. */
  lemma ApartForward(ctx: Context, scope: Scope, start: set<seq<string>>, history: History, n: nat, text: Dotted,
                     pos: Position)
    requires Comparable(ctx, scope, history) && n <= |history|
    requires Picked(ctx, scope.id, text[0], pos).Some? || Effective(history, n, text[0]).Some?
    requires var picked := Picked(ctx, scope.id, text[0], pos);
             Effective(history, n, text[0]) != picked || picked.value.fact.control != []
    ensures Meet(Told(ResolveText(ctx, text, scope.id, pos, {}, true)),
                 Evaluate(ctx, scope, Run(ctx, scope, start, history, n), text, pos), true)
  {
    hide Told, Evaluate, Run, InForce, ResolveText, Keyed, SoundContext;
    ToldHead(ctx, scope, text, pos);
    SeenHead(ctx, scope, start, history, n, text, pos);
    var name := text[0];
    if Picked(ctx, scope.id, name, pos).Some? {
      assert WellFormed(ctx) by { SoundIsWellFormed(ctx); }
      PickedHere(ctx, scope.id, name, pos);
    }
  }

  lemma PickedHere(ctx: Context, id: ScopeId, name: string, pos: Position)
    requires WellFormed(ctx) && Picked(ctx, id, name, pos).Some?
    ensures var e := Picked(ctx, id, name, pos).value; e.fact.scope == id && e.fact.name == name
  {
    var e := Picked(ctx, id, name, pos).value;
    assert (id, name) in ctx.events && e in ctx.events[(id, name)];
  }

  /** An unconditional event that gives its name a new value is last by position and in force. */
  lemma {:induction false} BoundForward(ctx: Context, scope: Scope, start: set<seq<string>>, history: History, n: nat,
                                        text: Dotted, pos: Position, e: Event)
    requires Comparable(ctx, scope, history) && n <= |history|
    requires Picked(ctx, scope.id, text[0], pos) == Some(e) == Effective(history, n, text[0]) && e.fact.control == []
    ensures Meet(Told(ResolveText(ctx, text, scope.id, pos, {}, true)),
                 Evaluate(ctx, scope, Run(ctx, scope, start, history, n), text, pos),
                 Parts(ctx, scope, start, history, n, text, pos))
    decreases n, 0, 0
  {
    hide Walk, ApplySuffix, PathParts, PartsOutside, Viewed, Told, SoundContext, Loads, Run, KeyedSymbols, Justified,
         Evaluate, Written, Silent, ResolveEvent, Parts, Enters, Meet, Keyed, InForce, LoadedAt, ResolveName;
    assert WellFormed(ctx) by { SoundIsWellFormed(ctx); }
    var k := InForce(history, n, text[0]).value;
    var m := ReadAt(history, k);
    var read, store := Run(ctx, scope, start, history, m), Run(ctx, scope, start, history, n);
    assert (scope.id, text[0]) in ctx.events && e in ctx.events[(scope.id, text[0])];
    EventNamed(ctx, scope.id, text[0], e);
    EventJustified(ctx, e, {});
    BoundAnswer(ctx, scope, text[0], pos);
    StoreHolds(ctx, scope, start, history, n, text[0]);
    LoadedBy(start, history, n, k);
    EvaluatedBound(ctx, scope, store, text, pos);
    PartsBound(ctx, scope, start, history, n, text, pos, e, k);
    if Copies(e) {
      var value := e.fact.value.value;
      TextForward(ctx, scope, start, history, m, value, e.fact.pos);
      AliasTold(ctx, scope, e, text);
      AliasWritten(ctx, scope, read, e);
      assert KeyedSymbols(ctx.symbols) by { SymbolsKeyed(ctx); }
      var told := Told(ResolveText(ctx, value, scope.id, e.fact.pos, {}, true));
      var seen := Evaluate(ctx, scope, read, value, e.fact.pos);
      AliasMeets(ctx.symbols, store.loaded, e, told, seen, Parts(ctx, scope, start, history, m, value, e.fact.pos),
                 text[1..]);
      MeetUntold(Told(ApplySuffix(ctx.symbols, text, ResolveEvent(ctx, e, {}), true)),
                 Seen(Walk(ctx.symbols, {}, told.value, text[1..]), [e] + told.chain),
                 Seen(Walk(ctx.symbols, store.loaded, seen.value, text[1..]), [e] + seen.chain),
                 Parts(ctx, scope, start, history, m, value, e.fact.pos)
                 || Enters(store.loaded, told.value, text[1..]));
    } else {
      SettledAnswer(ctx, e);
      BinderForward(ctx, scope, text, e, read, store.loaded);
    }
  }

  /** The bindings behind an answer that is not known do not matter. */
  lemma MeetUntold(told: Seen, same: Seen, seen: Seen, parts: bool)
    requires told.value == same.value && (told.value != Unknown ==> told == same) && Meet(same, seen, parts)
    ensures Meet(told, seen, parts)
  {
  }

  lemma SymbolsKeyed(ctx: Context)
    requires Keyed(ctx)
    ensures KeyedSymbols(ctx.symbols)
  {
  }

  lemma SettledAnswer(ctx: Context, e: Event)
    requires WellFormed(ctx) && e.fact.control == [] && !Copies(e) && !Silent(e)
    ensures ResolveEvent(ctx, e, {}) == Settled(e)
  {
  }

  lemma PartsBound(ctx: Context, scope: Scope, start: set<seq<string>>, history: History, n: nat, text: Dotted,
                   pos: Position, e: Event, k: nat)
    requires WellFormed(ctx) && n <= |history|
    requires Picked(ctx, scope.id, text[0], pos) == Some(e) && e.fact.control == []
    requires InForce(history, n, text[0]) == Some(k) && history[k].event == e
    ensures var loaded := LoadedAt(start, history, n);
            Parts(ctx, scope, start, history, n, text, pos) ==
              if Copies(e) then
                Parts(ctx, scope, start, history, ReadAt(history, k), e.fact.value.value, e.fact.pos)
                || Enters(loaded, Told(ResolveText(ctx, e.fact.value.value, scope.id, e.fact.pos, {}, true)).value,
                          text[1..])
              else if e.fact.kind.ImportBinding?
                   then !IsOrigin(e) || PathParts(loaded, BoundPath(e), Told(Settled(e)).value, text)
              else Enters(loaded, Told(Settled(e)).value, text[1..])
  {
    hide PathParts, Enters, Told, ResolveText, LoadedAt, IsOrigin, Settled, Silent, InForce;
  }

  lemma EvaluatedBound(ctx: Context, scope: Scope, store: Store, text: Dotted, pos: Position)
    requires WellFormed(ctx) && text[0] in store.names
    ensures var s := store.names[text[0]];
            Evaluate(ctx, scope, store, text, pos) == Seen(Walk(ctx.symbols, store.loaded, s.value, text[1..]), s.chain)
  {
    hide Walk;
    assert store.loaded + {} == store.loaded;
  }

  lemma AliasWritten(ctx: Context, scope: Scope, read: Store, e: Event)
    requires WellFormed(ctx) && Copies(e)
    ensures var source := Evaluate(ctx, scope, read, e.fact.value.value, e.fact.pos);
            Written(ctx, scope, read, e) == Seen(source.value, [e] + source.chain)
  {
    hide Evaluate;
  }

  lemma AliasTold(ctx: Context, scope: Scope, e: Event, text: Dotted)
    requires SoundContext(ctx) && SoundImport(e) && Copies(e) && e.fact.control == [] && e.fact.name == text[0]
      && e.fact.scope == scope.id
    ensures var told := Told(ApplySuffix(ctx.symbols, text, ResolveEvent(ctx, e, {}), true));
            var inner := Told(ResolveText(ctx, e.fact.value.value, scope.id, e.fact.pos, {}, true));
            && told.value == Walk(ctx.symbols, {}, inner.value, text[1..])
            && (told.value != Unknown ==> told.chain == [e] + inner.chain)
  {
    hide Walk, ApplySuffix;
    var r := ResolveEvent(ctx, e, {});
    var inner := ResolveText(ctx, e.fact.value.value, scope.id, e.fact.pos, {}, true);
    TextIgnoresVisited(ctx, e.fact.value.value, scope.id, e.fact.pos, {} + {KeyOf(e)}, true);
    assert r == FollowedBy(e, inner);
    EventJustified(ctx, e, {});
    SuffixTold(ctx, text, r);
    Stuck(ctx.symbols, {}, Unknown, text[1..]);
    assert r.state == Candidate ==> BoundPath(r.event.value) == [text[0]];
  }

  /** Outside alias mode exactly the symbols survive. */
  lemma CallMode(ctx: Context, text: Dotted, root: Resolution)
    requires Justified(ctx, root)
    requires root.state == Candidate ==> root.chain[0].fact.name == text[0]
    ensures var call := ApplySuffix(ctx.symbols, text, root, false);
            var alias := ApplySuffix(ctx.symbols, text, root, true);
            && (call.state == Candidate <==>
                alias.state == Candidate && forall t :: t in alias.targets ==> t.SymbolTarget?)
            && (call.state == Candidate ==> call.targets == alias.targets && call.chain == alias.chain)
  {
    if root.state != Candidate {
      CandidateFromUnresolvedRoot(ctx.symbols, text, root, false);
      CandidateFromUnresolvedRoot(ctx.symbols, text, root, true);
    } else {
      SuffixJustified(ctx, text, root, true);
      SuffixJustified(ctx, text, root, false);
      var u :| root.targets == {u};
      var callable := set t | t in root.targets && t.SymbolTarget?;
      assert callable == if u.SymbolTarget? then {u} else {};
    }
  }

  /** The resolver names the definition the callee stands for, by the bindings that put it there. */
  ghost predicate Agree(r: Resolution, seen: Seen) {
    r.state == Candidate && exists t :: r.targets == {t} && t.SymbolTarget? && seen == Seen(Definition(t), r.chain)
  }

  /**
   * Backward resolution against forward execution: if the resolver names a candidate for a call or the callee stands
   * for a known definition, then the two agree exactly unless they part along the callee's aliases.
   */
  lemma CallForward(ctx: Context, scope: Scope, start: set<seq<string>>, history: History, n: nat, call: Call)
    requires Comparable(ctx, scope, history) && n <= |history|
    requires call.scope == scope.id && call.callee.Some?
    ensures var r := ResolveCall(ctx, call);
            var seen := Evaluate(ctx, scope, Run(ctx, scope, start, history, n), call.callee.value, call.pos);
            r.state == Candidate || seen.value.Definition? ==>
              (Agree(r, seen) <==> !Parts(ctx, scope, start, history, n, call.callee.value, call.pos))
  {
    hide Evaluate, Run, Parts, ResolveName, ApplySuffix, Keyed;
    var text := call.callee.value;
    TextForward(ctx, scope, start, history, n, text, call.pos);
    NameJustified(ctx, text[0], scope.id, call.pos, {}, false);
    CallMode(ctx, text, ResolveName(ctx, text[0], scope.id, call.pos, {}, false));
    TextJustified(ctx, text, scope.id, call.pos, {}, true);
    var alias := ResolveText(ctx, text, scope.id, call.pos, {}, true);
    if alias.state == Candidate {
      var t :| alias.targets == {t};
      assert t in alias.targets;
    }
  }

  /**
   * The ways in which a candidate can be wrong: along the aliases the last binder by position is not the one in force,
   * or the hops end at an unbound class local, or a text goes on into a loaded submodule.
   */
  ghost predicate Misled(ctx: Context, scope: Scope, start: set<seq<string>>, history: History, n: nat, text: Dotted,
                         pos: Position)
    requires WellFormed(ctx) && n <= |history|
    decreases n
  {
    var loaded := LoadedAt(start, history, n);
    var picked := Picked(ctx, scope.id, text[0], pos);
    if picked != Effective(history, n, text[0]) then true
    else if picked.None? then PartsOutside(ctx, scope, loaded, text, pos)
    else
      var e := picked.value;
      if PlainAlias(e) then
        Misled(ctx, scope, start, history, ReadAt(history, InForce(history, n, text[0]).value), e.fact.value.value,
               e.fact.pos)
        || Enters(loaded, Told(ResolveText(ctx, e.fact.value.value, scope.id, e.fact.pos, {}, true)).value, text[1..])
      else IsOrigin(e) && BoundPath(e) <= text && Enters(loaded, Told(Settled(e)).value, text[|BoundPath(e)|..])
  }

  lemma {:induction false} ToldMisled(ctx: Context, scope: Scope, start: set<seq<string>>, history: History, n: nat,
                                      text: Dotted, pos: Position)
    requires Comparable(ctx, scope, history) && n <= |history|
    requires Told(ResolveText(ctx, text, scope.id, pos, {}, true)).value != Unknown
    ensures Parts(ctx, scope, start, history, n, text, pos) <==> Misled(ctx, scope, start, history, n, text, pos)
    decreases n
  {
    hide Walk, ApplySuffix, PartsOutside, Enters, SoundContext, Keyed, Justified, LoadedAt, Settled, Told, BoundPath,
         InForce, Silent;
    assert WellFormed(ctx) by { SoundIsWellFormed(ctx); }
    var picked := Picked(ctx, scope.id, text[0], pos);
    ToldHead(ctx, scope, text, pos);
    if picked.Some? && picked == Effective(history, n, text[0]) {
      var e := picked.value;
      var k := InForce(history, n, text[0]).value;
      BoundAnswer(ctx, scope, text[0], pos);
      assert (scope.id, text[0]) in ctx.events && e in ctx.events[(scope.id, text[0])];
      EventNamed(ctx, scope.id, text[0], e);
      if Copies(e) {
        AliasTold(ctx, scope, e, text);
        Stuck(ctx.symbols, {}, Unknown, text[1..]);
        ToldMisled(ctx, scope, start, history, ReadAt(history, k), e.fact.value.value, e.fact.pos);
      } else {
        ToldBinder(ctx, text, e);
      }
    }
  }

  lemma ToldBinder(ctx: Context, text: Dotted, e: Event)
    requires SoundContext(ctx) && SoundImport(e) && KeyedImport(e) && e.fact.name == text[0]
    requires e.fact.control == [] && !e.fact.kind.Delete? && !Silent(e) && !Copies(e)
    requires Told(ApplySuffix(ctx.symbols, text, ResolveEvent(ctx, e, {}), true)).value != Unknown
    ensures IsOrigin(e) && BoundPath(e) <= text && !PlainAlias(e)
    ensures !e.fact.kind.ImportBinding? ==> text[|BoundPath(e)|..] == text[1..]
  {
    EventJustified(ctx, e, {});
    SettledAnswer(ctx, e);
    SuffixTold(ctx, text, Settled(e));
    SettledTold(e);
    OriginExactly(e);
  }

  /** A candidate names what the callee stands for, by the bindings that put it there, exactly unless it is misled. */
  lemma CandidateRightExactly(ctx: Context, scope: Scope, start: set<seq<string>>, history: History, n: nat, call: Call)
    requires Comparable(ctx, scope, history) && n <= |history|
    requires call.scope == scope.id && call.callee.Some? && ResolveCall(ctx, call).state == Candidate
    ensures Agree(ResolveCall(ctx, call),
                  Evaluate(ctx, scope, Run(ctx, scope, start, history, n), call.callee.value, call.pos))
       <==> !Misled(ctx, scope, start, history, n, call.callee.value, call.pos)
  {
    hide Evaluate, Run, Parts, Misled, ResolveName, ApplySuffix, Keyed;
    var text := call.callee.value;
    CallForward(ctx, scope, start, history, n, call);
    NameJustified(ctx, text[0], scope.id, call.pos, {}, false);
    CallMode(ctx, text, ResolveName(ctx, text[0], scope.id, call.pos, {}, false));
    TextJustified(ctx, text, scope.id, call.pos, {}, true);
    var alias := ResolveText(ctx, text, scope.id, call.pos, {}, true);
    assert Told(alias).value != Unknown by { var t :| alias.targets == {t}; }
    ToldMisled(ctx, scope, start, history, n, text, call.pos);
  }
}
