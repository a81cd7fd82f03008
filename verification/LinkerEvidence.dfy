/** Termination, the visited set, and the evidence behind every candidate of the resolver. */
module LinkerEvidence {
  import opened Common
  import opened ProbeFacts
  import opened PythonLinker

  // ----- the visited set never matters -----

  /** Everything visited stands strictly after the event in the (scope rank, position) order. */
  ghost predicate AfterEvent(ctx: Context, visited: set<Key>, e: Event) {
    forall k :: k in visited ==>
      Rank(ctx, k.0) > Rank(ctx, e.fact.scope) || (k.0 == e.fact.scope && e.fact.pos.Before(k.2))
  }

  /** Everything visited stands at or after a position of a scope. */
  ghost predicate NotBefore(ctx: Context, visited: set<Key>, id: ScopeId, pos: Position) {
    forall k :: k in visited ==>
      Rank(ctx, k.0) > Rank(ctx, id) || (k.0 == id && !k.2.Before(pos))
  }

  ghost predicate DeeperThan(ctx: Context, visited: set<Key>, id: ScopeId) {
    forall k :: k in visited ==> Rank(ctx, k.0) > Rank(ctx, id)
  }

  lemma {:induction false} EventIgnoresVisited(ctx: Context, e: Event, visited: set<Key>)
    requires WellFormed(ctx) && AfterEvent(ctx, visited, e)
    ensures ResolveEvent(ctx, e, visited) == ResolveEvent(ctx, e, {})
    ensures ResolveEvent(ctx, e, visited).reason != AliasCycle
    decreases Rank(ctx, e.fact.scope), 0, e.fact.pos.line, e.fact.pos.column, 3
  {
    if FollowsText(e) {
      VisitedStep(ctx, e, visited);
      VisitedStep(ctx, e, {});
      TextIgnoresVisited(ctx, e.fact.value.value, e.fact.scope, e.fact.pos, visited + {KeyOf(e)}, true);
      TextIgnoresVisited(ctx, e.fact.value.value, e.fact.scope, e.fact.pos, {} + {KeyOf(e)}, true);
    }
  }

  lemma VisitedStep(ctx: Context, e: Event, visited: set<Key>)
    requires AfterEvent(ctx, visited, e)
    ensures NotBefore(ctx, visited + {KeyOf(e)}, e.fact.scope, e.fact.pos)
  {
  }

  lemma {:induction false} NameIgnoresVisited(ctx: Context, name: string, id: ScopeId, pos: Position, visited: set<Key>,
                                              enclosing: bool)
    requires WellFormed(ctx)
    requires if enclosing then DeeperThan(ctx, visited, id) else NotBefore(ctx, visited, id, pos)
    ensures ResolveName(ctx, name, id, pos, visited, enclosing) == ResolveName(ctx, name, id, pos, {}, enclosing)
    ensures ResolveName(ctx, name, id, pos, visited, enclosing).reason != AliasCycle
    decreases Rank(ctx, id), if enclosing then 2 else 0, if enclosing then 0 else pos.line,
              if enclosing then 0 else pos.column, 1
  {
    var i := IndexOf(ctx.scopes, id);
    if 0 <= i {
      ParentRank(ctx, i);
      var scope := ctx.scopes[i];
      var events := EventsOf(ctx, id, name);
      var visible := EventsBefore(events, pos);
      if name in scope.globals || name in scope.nonlocals {
        if visible != [] {
          EventIgnoresVisited(ctx, Last(visible), visited);
        } else if name in scope.globals {
          NameIgnoresVisited(ctx, name, ModuleId, pos, visited, true);
        } else if FindNonlocal(ctx, id, name).Some? {
          NameIgnoresVisited(ctx, name, FindNonlocal(ctx, id, name).value, pos, visited, true);
        }
      } else if enclosing {
        if |events| > 1 {
          EachIgnoresVisited(ctx, id, events, visited);
        } else if |events| == 1 {
          EventIgnoresVisited(ctx, events[0], visited);
        } else {
          OutwardIgnoresVisited(ctx, name, id, pos, visited);
        }
      } else if visible != [] {
        EventIgnoresVisited(ctx, Last(visible), visited);
      } else {
        OutwardIgnoresVisited(ctx, name, id, pos, visited);
      }
    }
  }

  lemma {:induction false} EachIgnoresVisited(ctx: Context, id: ScopeId, events: seq<Event>, visited: set<Key>)
    requires WellFormed(ctx) && DeeperThan(ctx, visited, id)
    requires forall e :: e in events ==> e.fact.scope == id
    ensures ResolveEach(ctx, id, events, visited) == ResolveEach(ctx, id, events, {})
    decreases Rank(ctx, id), 1, |events|, 0, 0
  {
    if events != [] {
      EventIgnoresVisited(ctx, events[0], visited);
      EachIgnoresVisited(ctx, id, events[1..], visited);
    }
  }

  lemma {:induction false} OutwardIgnoresVisited(ctx: Context, name: string, id: ScopeId, pos: Position,
                                                 visited: set<Key>)
    requires WellFormed(ctx)
    requires forall k :: k in visited ==> Rank(ctx, k.0) >= Rank(ctx, id)
    ensures ResolveOutward(ctx, name, id, pos, visited) == ResolveOutward(ctx, name, id, pos, {})
    ensures ResolveOutward(ctx, name, id, pos, visited).reason != AliasCycle
    decreases Rank(ctx, id), 0, 0, 0, 0
  {
    var i := IndexOf(ctx.scopes, id);
    if 0 <= i && ctx.scopes[i].lookupParent.Some? {
      ParentRank(ctx, i);
      NameIgnoresVisited(ctx, name, ctx.scopes[i].lookupParent.value, pos, visited, true);
    }
  }

  lemma {:induction false} TextIgnoresVisited(ctx: Context, text: Dotted, id: ScopeId, pos: Position, visited: set<Key>,
                                              aliasMode: bool)
    requires WellFormed(ctx) && NotBefore(ctx, visited, id, pos)
    ensures ResolveText(ctx, text, id, pos, visited, aliasMode) == ResolveText(ctx, text, id, pos, {}, aliasMode)
    ensures ResolveText(ctx, text, id, pos, visited, aliasMode).reason != AliasCycle
    decreases Rank(ctx, id), 0, pos.line, pos.column, 2
  {
    NameIgnoresVisited(ctx, text[0], id, pos, visited, false);
  }

  /** No cycle is ever reported: neither for a recorded binding nor for a call. */
  lemma AliasCycleUnreachable(ctx: Context, e: Event, call: Call)
    requires WellFormed(ctx)
    ensures ResolveEvent(ctx, e, {}).reason != AliasCycle
    ensures ResolveCall(ctx, call).reason != AliasCycle
  {
    EventIgnoresVisited(ctx, e, {});
    if call.callee.Some? {
      TextIgnoresVisited(ctx, call.callee.value, call.scope, call.pos, {}, false);
    }
  }

  // ----- the binding chain is a proof of the candidate -----

  /** What import indexing guarantees: an import without a known internal target carries none. */
  ghost predicate SoundImport(e: Event) {
    e.fact.kind.ImportBinding? && e.targets != {} ==>
      e.importState in {Some(InternalModule), Some(InternalSymbol), Some(AmbiguousImport)}
  }

  ghost predicate SoundContext(ctx: Context) {
    WellFormed(ctx) && forall k, e :: k in ctx.events && e in ctx.events[k] ==> SoundImport(e)
  }

  /** The path an event binds: its own name, or all of `a.b` for `import a.b`. */
  function BoundPath(e: Event): Dotted {
    if e.fact.kind.ImportBinding? && e.pattern.Some? then e.pattern.value else [e.fact.name]
  }

  /** Following attributes from a target: only a module's unique top-level symbol is known. */
  ghost function Attribute(symbols: SymbolIndex, t: Target, path: seq<string>): Option<Target> {
    if path == [] then Some(t)
    else if |path| == 1 && t.ModuleTarget? && exists s :: ModuleSymbols(symbols, t.file.modul, path[0]) == {s} then
      var s :| ModuleSymbols(symbols, t.file.modul, path[0]) == {s}; Some(s)
    else None
  }

  /** What a dotted text denotes when the event binds its root to the target. */
  ghost function Denotes(symbols: SymbolIndex, e: Event, t: Target, text: Dotted): Option<Target> {
    if BoundPath(e) <= text then Attribute(symbols, t, text[|BoundPath(e)|..]) else None
  }

  /** An unconditional import, def or class that names exactly one target. */
  ghost predicate Origin(e: Event, t: Target) {
    && e.fact.control == []
    && (DefinitionKind(e.fact.kind)
        || (e.fact.kind.ImportBinding? && e.importState in {Some(InternalModule), Some(InternalSymbol)}))
    && e.targets == {t}
  }

  ghost predicate IsOrigin(e: Event) {
    exists t :: t in e.targets && Origin(e, t)
  }

  /** An unconditional plain assignment of a dotted name. */
  ghost predicate PlainAlias(e: Event) {
    e.fact.control == [] && AliasKind(e.fact.kind) && e.fact.runtime && !e.fact.dynamic && e.fact.value.Some?
  }

  /** One hop of a chain: the next event binds the root of this alias, in an outer scope or earlier in its own. */
  ghost predicate Hop(ctx: Context, e: Event, next: Event) {
    && PlainAlias(e)
    && next.fact.name == e.fact.value.value[0]
    && (Rank(ctx, next.fact.scope) < Rank(ctx, e.fact.scope)
        || (next.fact.scope == e.fact.scope && next.fact.pos.Before(e.fact.pos)))
  }

  /** Replays a chain from its last event to its first, reading nothing but the events and the symbol table. */
  ghost predicate Proves(ctx: Context, chain: seq<Event>, t: Target)
    decreases |chain|
  {
    if |chain| == 0 then false
    else if |chain| == 1 then Origin(chain[0], t)
    else
      && Hop(ctx, chain[0], chain[1])
      && exists u :: Proves(ctx, chain[1..], u)
                     && Denotes(ctx.symbols, chain[1], u, chain[0].fact.value.value) == Some(t)
  }

  /** A candidate carries one target, proved by its chain; an unresolved result carries none. */
  ghost predicate Justified(ctx: Context, r: Resolution) {
    && (r.state == Unresolved ==> r.targets == {})
    && (r.state == Candidate ==>
          && r.chain != [] && r.event == Some(r.chain[0])
          && exists t :: r.targets == {t} && Proves(ctx, r.chain, t))
  }

  /** The same for a text: the chain binds its root, and the text denotes the target from there. */
  ghost predicate JustifiedText(ctx: Context, r: Resolution, text: Dotted, aliasMode: bool) {
    && (r.state == Unresolved ==> r.targets == {})
    && (r.state == Candidate ==>
          && r.chain != [] && r.event == Some(r.chain[0]) && r.chain[0].fact.name == text[0]
          && exists t, u :: r.targets == {t} && Proves(ctx, r.chain, u)
                            && Denotes(ctx.symbols, r.chain[0], u, text) == Some(t)
                            && (t.SymbolTarget? || aliasMode))
  }

  lemma OnlyMember<T>(s: set<T>) returns (t: T)
    requires |s| == 1
    ensures s == {t}
  {
    t :| t in s;
    assert |s - {t}| == 0;
  }

  lemma {:induction false} EventJustified(ctx: Context, e: Event, visited: set<Key>)
    requires SoundContext(ctx) && SoundImport(e)
    ensures var r := ResolveEvent(ctx, e, visited);
            Justified(ctx, r) && (r.state == Candidate ==> r.chain[0] == e)
    decreases Rank(ctx, e.fact.scope), 0, e.fact.pos.line, e.fact.pos.column, 3
  {
    if KeyOf(e) in visited {
    } else if FollowsText(e) {
      var resolved := ResolveText(ctx, e.fact.value.value, e.fact.scope, e.fact.pos, visited + {KeyOf(e)}, true);
      TextJustified(ctx, e.fact.value.value, e.fact.scope, e.fact.pos, visited + {KeyOf(e)}, true);
      FollowedJustified(ctx, e, resolved);
    } else if Settled(e).state == Candidate {
      var t := OnlyMember(e.targets);
      assert Proves(ctx, [e], t);
    }
  }

  lemma FollowedJustified(ctx: Context, e: Event, resolved: Resolution)
    requires FollowsText(e)
    requires JustifiedText(ctx, resolved, e.fact.value.value, true)
    requires Upstream(ctx, resolved, e.fact.scope, e.fact.pos, false)
    ensures Justified(ctx, FollowedBy(e, resolved))
  {
    if FollowedBy(e, resolved).state == Candidate {
      var chain := [e] + resolved.chain;
      assert chain[1..] == resolved.chain;
      var t, u :| resolved.targets == {t} && Proves(ctx, resolved.chain, u)
                  && Denotes(ctx.symbols, resolved.chain[0], u, e.fact.value.value) == Some(t);
      assert Proves(ctx, chain, t);
    }
  }

  /** Where the first event of a candidate's chain stands, seen from the place that asks for the name. */
  ghost predicate Upstream(ctx: Context, r: Resolution, id: ScopeId, pos: Position, enclosing: bool) {
    r.state == Candidate && r.chain != [] ==>
      var e := r.chain[0].fact;
      Rank(ctx, e.scope) < Rank(ctx, id) || (e.scope == id && (enclosing || e.pos.Before(pos)))
  }

  lemma {:induction false} NameJustified(ctx: Context, name: string, id: ScopeId, pos: Position, visited: set<Key>,
                                         enclosing: bool)
    requires SoundContext(ctx)
    ensures var r := ResolveName(ctx, name, id, pos, visited, enclosing);
            && Justified(ctx, r)
            && Upstream(ctx, r, id, pos, enclosing)
            && (r.state == Candidate ==> r.chain[0].fact.name == name)
    decreases Rank(ctx, id), if enclosing then 2 else 0, if enclosing then 0 else pos.line,
              if enclosing then 0 else pos.column, 1
  {
    var i := IndexOf(ctx.scopes, id);
    if 0 <= i {
      ParentRank(ctx, i);
      var scope := ctx.scopes[i];
      var events := EventsOf(ctx, id, name);
      var visible := EventsBefore(events, pos);
      if name in scope.globals || name in scope.nonlocals {
        if visible != [] {
          EventJustified(ctx, Last(visible), visited);
        } else if name in scope.globals {
          NameJustified(ctx, name, ModuleId, pos, visited, true);
        } else if FindNonlocal(ctx, id, name).Some? {
          NameJustified(ctx, name, FindNonlocal(ctx, id, name).value, pos, visited, true);
        }
      } else if enclosing && |events| == 1 {
        EventJustified(ctx, events[0], visited);
      } else if !enclosing && visible != [] {
        EventJustified(ctx, Last(visible), visited);
      } else if 0 <= i && scope.lookupParent.Some? {
        NameJustified(ctx, name, scope.lookupParent.value, pos, visited, true);
      }
    }
  }

  lemma {:induction false} TextJustified(ctx: Context, text: Dotted, id: ScopeId, pos: Position, visited: set<Key>,
                                         aliasMode: bool)
    requires SoundContext(ctx)
    ensures var r := ResolveText(ctx, text, id, pos, visited, aliasMode);
            JustifiedText(ctx, r, text, aliasMode) && Upstream(ctx, r, id, pos, false)
    decreases Rank(ctx, id), 0, pos.line, pos.column, 2
  {
    NameJustified(ctx, text[0], id, pos, visited, false);
    SuffixJustified(ctx, text, ResolveName(ctx, text[0], id, pos, visited, false), aliasMode);
  }

  /** What is left of a text is what follows the path its root event binds. */
  lemma SuffixAfterPath(text: Dotted, e: Event)
    requires e.fact.name == text[0]
    ensures BoundPath(e) <= text ==> SuffixAfter(text, Some(e)) == Some(text[|BoundPath(e)|..])
    ensures !(BoundPath(e) <= text) ==> SuffixAfter(text, Some(e)) == None
  {
    var path := BoundPath(e);
    assert [text[0]] <= text;
    if path <= text && path != text {
      assert path < text;
    } else if path == text {
      assert text[|path|..] == [];
    }
  }

  lemma SuffixJustified(ctx: Context, text: Dotted, root: Resolution, aliasMode: bool)
    requires Justified(ctx, root)
    requires root.state == Candidate ==> root.chain[0].fact.name == text[0]
    ensures JustifiedText(ctx, ApplySuffix(ctx.symbols, text, root, aliasMode), text, aliasMode)
    ensures var r := ApplySuffix(ctx.symbols, text, root, aliasMode);
            r.state == Candidate ==> root.state == Candidate && r.chain == root.chain
  {
    var r := ApplySuffix(ctx.symbols, text, root, aliasMode);
    if r.state == Candidate && root.state == Candidate {
      var e := root.chain[0];
      var u :| root.targets == {u} && Proves(ctx, root.chain, u);
      var t := OnlyMember(r.targets);
      var suffix := SuffixAfter(text, root.event).value;
      SuffixAfterPath(text, e);
      if suffix != [] {
        assert r.targets == if u.ModuleTarget? then ModuleSymbols(ctx.symbols, u.file.modul, suffix[0]) else {};
      }
      assert Denotes(ctx.symbols, e, u, text) == Some(t);
    }
  }

  /** Every event of a proved chain is unconditional: aliases all the way, and an import, def or class at the end. */
  lemma {:induction false} ChainShape(ctx: Context, chain: seq<Event>, t: Target)
    requires Proves(ctx, chain, t)
    ensures forall k :: 0 <= k < |chain| - 1 ==> PlainAlias(chain[k]) && Hop(ctx, chain[k], chain[k + 1])
    ensures IsOrigin(chain[|chain| - 1])
    decreases |chain|
  {
    if |chain| > 1 {
      var u :| Proves(ctx, chain[1..], u) && Denotes(ctx.symbols, chain[1], u, chain[0].fact.value.value) == Some(t);
      ChainShape(ctx, chain[1..], u);
      forall k | 0 <= k < |chain| - 1
        ensures PlainAlias(chain[k]) && Hop(ctx, chain[k], chain[k + 1])
      {
        if k > 0 {
          assert chain[1..][k - 1] == chain[k] && chain[1..][k] == chain[k + 1];
        }
      }
    }
  }

  /** A candidate call names one symbol, never a module, and its chain proves it without consulting the resolver. */
  lemma CandidateCallProved(ctx: Context, call: Call)
    requires SoundContext(ctx)
    ensures var r := ResolveCall(ctx, call);
            && (r.state == Unresolved ==> r.targets == {})
            && (r.state == Candidate ==>
                  && call.callee.Some?
                  && r.chain != [] && r.chain[0].fact.name == call.callee.value[0]
                  && (forall e :: e in r.chain ==> e.fact.control == [])
                  && exists t, u :: r.targets == {t} && t.SymbolTarget?
                                    && Proves(ctx, r.chain, u)
                                    && Denotes(ctx.symbols, r.chain[0], u, call.callee.value) == Some(t))
  {
    if call.callee.Some? {
      TextJustified(ctx, call.callee.value, call.scope, call.pos, {}, false);
      var r := ResolveCall(ctx, call);
      if r.state == Candidate {
        var t, u :| r.targets == {t} && Proves(ctx, r.chain, u)
                    && Denotes(ctx.symbols, r.chain[0], u, call.callee.value) == Some(t) && t.SymbolTarget?;
        ChainShape(ctx, r.chain, u);
      }
    }
  }

  /** A candidate binding record names one target, and its chain starts at the binding itself. */
  lemma CandidateBindingProved(ctx: Context, e: Event)
    requires SoundContext(ctx) && SoundImport(e)
    ensures var r := ResolveEvent(ctx, e, {});
            && (r.state == Unresolved ==> r.targets == {})
            && (r.state == Candidate ==>
                  && r.chain != [] && r.chain[0] == e
                  && (forall x :: x in r.chain ==> x.fact.control == [])
                  && exists t :: r.targets == {t} && Proves(ctx, r.chain, t))
  {
    EventJustified(ctx, e, {});
    var r := ResolveEvent(ctx, e, {});
    if r.state == Candidate {
      var t :| r.targets == {t} && Proves(ctx, r.chain, t);
      ChainShape(ctx, r.chain, t);
    }
  }

  /** The alias branch does not look at the state: exactly when it turns a root that is no candidate into one. */
  lemma CandidateFromUnresolvedRoot(symbols: SymbolIndex, text: Dotted, root: Resolution, aliasMode: bool)
    requires root.state != Candidate
    ensures ApplySuffix(symbols, text, root, aliasMode).state == Candidate
       <==> && aliasMode && root.state == Unresolved
            && SuffixAfter(text, root.event) == Some([])
            && exists t :: root.targets == {t} && t.ModuleTarget?
  {
    var callable := set t | t in root.targets && t.SymbolTarget?;
    if |root.targets| == 1 {
      var t := OnlyMember(root.targets);
      if t.SymbolTarget? { assert callable == {t}; } else { assert callable == {}; }
    }
  }
}
