/** The resolver on runs of a file's own syntax: what has taken effect when the callee of a call is read. */
module LinkerTraces {
  import opened Common
  import opened ProbeFacts
  import opened PythonAst
  import opened ProbeSteps
  import opened ExecutionOrder
  import opened ExecutionRecords
  import opened PythonLinker
  import opened LinkerEvidence
  import opened LinkerForward
  import opened LinkerIndex

  /** The indexed event of a binding; one that is not recorded in the scope is no event the resolver could pick. */
  ghost function EventFor(ctx: Context, scope: Scope, around: seq<Control>, f: BindingFact): (e: Event)
    ensures e.fact == BindingOf(scope, around, f)
  {
    var b := BindingOf(scope, around, f);
    if exists e :: e in EventsOf(ctx, scope.id, f.name) && e.fact == b then
      var e :| e in EventsOf(ctx, scope.id, f.name) && e.fact == b; e
    else Event(b, None, None, {})
  }

  /** What a trace leaves behind in a scope; `around` are the control keywords around the scope. */
  ghost function HistoryOf(ctx: Context, scope: Scope, around: seq<Control>, acts: Trace): (history: History)
    ensures |history| == TakesIn(acts)
    ensures forall h :: h in history ==> h.event.fact.scope == scope.id
  {
    if acts == [] then []
    else
      var front := HistoryOf(ctx, scope, around, acts[..|acts| - 1]);
      match acts[|acts| - 1]
      case Reads(_) => front
      case Takes(f, since) =>
        front + [Took(EventFor(ctx, scope, around, f), if since <= |front| then |front| - since else 0)]
  }

  /** The store when a trace has run that far. */
  ghost function StoreAfter(ctx: Context, scope: Scope, around: seq<Control>, start: set<seq<string>>,
                            before: Trace): Store
    requires WellFormed(ctx)
  {
    Run(ctx, scope, start, HistoryOf(ctx, scope, around, before), TakesIn(before))
  }

  ghost predicate PartsAt(ctx: Context, scope: Scope, around: seq<Control>, start: set<seq<string>>, before: Trace,
                          call: Call)
    requires WellFormed(ctx) && call.callee.Some?
  {
    Parts(ctx, scope, start, HistoryOf(ctx, scope, around, before), TakesIn(before), call.callee.value, call.pos)
  }

  ghost predicate MisledAt(ctx: Context, scope: Scope, around: seq<Control>, start: set<seq<string>>, before: Trace,
                           call: Call)
    requires WellFormed(ctx) && call.callee.Some?
  {
    Misled(ctx, scope, start, HistoryOf(ctx, scope, around, before), TakesIn(before), call.callee.value, call.pos)
  }

  /**
   * Wherever a run of a scope's code reads the callee of a call: what the resolver says of the call is right exactly
   * unless it is misled, and it is the answer exactly unless the two part.
   */
  lemma CodeForward(ctx: Context, scope: Scope, around: seq<Control>, start: set<seq<string>>, code: Code,
                    before: Trace, f: CallFact)
    requires Comparable(ctx, scope, []) && Reaches(code, before, f) && f.callee.Some?
    ensures var call := CallOf(scope, around, f);
            var r := ResolveCall(ctx, call);
            var seen := Evaluate(ctx, scope, StoreAfter(ctx, scope, around, start, before), f.callee.value, f.pos);
            && (r.state == Candidate || seen.value.Definition? ==>
                (Agree(r, seen) <==> !PartsAt(ctx, scope, around, start, before, call)))
            && (r.state == Candidate ==> (Agree(r, seen) <==> !MisledAt(ctx, scope, around, start, before, call)))
  {
    hide Evaluate, Run, Parts, Misled, ResolveCall, SoundContext, Keyed;
    var history := HistoryOf(ctx, scope, around, before);
    var call := CallOf(scope, around, f);
    assert WellFormed(ctx) by { SoundIsWellFormed(ctx); }
    assert Comparable(ctx, scope, history);
    CallForward(ctx, scope, start, history, |history|, call);
    if ResolveCall(ctx, call).state == Candidate { CandidateRightExactly(ctx, scope, start, history, |history|, call); }
  }

  lemma {:induction false} RunPrefix(ctx: Context, scope: Scope, start: set<seq<string>>, a: History, b: History,
                                     n: nat)
    requires WellFormed(ctx) && n <= |a| && a <= b
    ensures Run(ctx, scope, start, a, n) == Run(ctx, scope, start, b, n)
    decreases n
  {
    hide Execute;
    if n > 0 {
      RunPrefix(ctx, scope, start, a, b, n - 1);
      RunPrefix(ctx, scope, start, a, b, ReadAt(a, n - 1));
    }
  }

  /** One more binding, its value read right before. */
  lemma StoreMore(ctx: Context, scope: Scope, around: seq<Control>, start: set<seq<string>>, before: Trace,
                  f: BindingFact)
    requires WellFormed(ctx)
    ensures StoreAfter(ctx, scope, around, start, before + [Takes(f, 0)]) ==
            var store := StoreAfter(ctx, scope, around, start, before);
            Execute(ctx, scope, store, store, EventFor(ctx, scope, around, f))
  {
    hide Execute, EventFor;
    var more := before + [Takes(f, 0)];
    assert more[..|more| - 1] == before;
    var a, b := HistoryOf(ctx, scope, around, before), HistoryOf(ctx, scope, around, more);
    assert b == a + [Took(EventFor(ctx, scope, around, f), |a|)];
    RunPrefix(ctx, scope, start, a, b, |a|);
  }

  // ----- bindings in statements above -----

  /** A record that can bind a name of the scope. */
  ghost predicate Touches(g: BindingFact, name: string) {
    g.name == name && (g.place == 0 || g.how.kind.NamedExpression?)
  }

  ghost predicate Free(e: Effect, name: string) { forall g :: g in e.bindings ==> !Touches(g, name) }

  /** One definition of the name under no control, and nothing else that binds it. */
  ghost predicate DefinesOnce(e: Effect, name: string, f: BindingFact) {
    && f in e.bindings && f.place == 0 && f.name == name && f.control == [] && DefinitionKind(f.how.kind)
    && forall g :: g in e.bindings && Touches(g, name) ==> g == f
  }

  predicate Binds(a: Act, name: string) { a.Takes? && a.binding.name == name }

  ghost predicate Unbinding(x: Trace, name: string) { forall a :: a in x ==> !Binds(a, name) }

  /** The last act on a name is the binding. */
  ghost predicate BoundLast(x: Trace, name: string, f: BindingFact) {
    exists k :: 0 <= k < |x| && x[k].Takes? && x[k].binding == f && Unbinding(x[k + 1..], name)
  }

  lemma BoundLastMore(x: Trace, y: Trace, name: string, f: BindingFact)
    requires BoundLast(x, name, f) && Unbinding(y, name)
    ensures BoundLast(x + y, name, f)
  {
    var k :| 0 <= k < |x| && x[k].Takes? && x[k].binding == f && Unbinding(x[k + 1..], name);
    assert (x + y)[k] == x[k] && (x + y)[k + 1..] == x[k + 1..] + y;
    assert forall a :: a in x[k + 1..] + y <==> a in x[k + 1..] || a in y;
  }

  lemma BoundLastBehind(x: Trace, y: Trace, name: string, f: BindingFact)
    requires BoundLast(y, name, f)
    ensures BoundLast(x + y, name, f)
  {
    var k :| 0 <= k < |y| && y[k].Takes? && y[k].binding == f && Unbinding(y[k + 1..], name);
    assert (x + y)[|x| + k] == y[k] && (x + y)[|x| + k + 1..] == y[k + 1..];
  }

  /** A trace that takes the binding, and none but it on the name, takes it last. */
  lemma {:induction false} TakenLast(x: Trace, name: string, f: BindingFact)
    requires f.name == name && Taken(x, f) && forall a :: a in x && Binds(a, name) ==> a.binding == f
    ensures BoundLast(x, name, f)
  {
    var last := x[|x| - 1];
    if Binds(last, name) {
      assert x[|x|..] == [];
      assert x[|x| - 1].binding == f;
    } else {
      var front := x[..|x| - 1];
      assert x == front + [last];
      assert Taken(front, f) by { var a :| a in x && a.Takes? && a.binding == f; assert a in front; }
      TakenLast(front, name, f);
      BoundLastMore(front, [last], name, f);
    }
  }

  lemma NoStray(e: Effect, name: string)
    requires forall g :: g in e.bindings && Touches(g, name) ==> DefinitionKind(g.how.kind)
    ensures name !in StrayNames(e)
  {
    assert forall g :: g in e.bindings && StrayRecord(g, name) ==> Touches(g, name);
  }

  lemma FreeUnbinding(t: iset<Trace>, e: Effect, name: string, x: Trace)
    requires Fit(t, e) && Free(e, name) && x in t
    ensures Unbinding(x, name)
  {
    NoStray(e, name);
    forall a | a in x ensures !Binds(a, name) { assert Recorded(a, Own(e), StrayNames(e)); }
  }

  lemma DefinedLast(t: iset<Trace>, e: Effect, name: string, f: BindingFact, x: Trace)
    requires Fit(t, e) && DefinesOnce(e, name, f) && x in t
    ensures BoundLast(x, name, f)
  {
    NoStray(e, name);
    assert Whole(x, Own(e)) && Certain(f) && f in Own(e);
    forall a | a in x && Binds(a, name) ensures a.binding == f { assert Recorded(a, Own(e), StrayNames(e)); }
    TakenLast(x, name, f);
  }

  /** After the statements up to another, the last act on the name is the definition above. */
  lemma {:induction false} BoundAbove(body: seq<Node>, i: nat, j: nat, name: string, f: BindingFact, x: Trace)
    requires i < j <= |body| && x in ActsAll(body[..j])
    requires DefinesOnce(EffectOf(body[i]), name, f) && forall h :: i < h < j ==> Free(EffectOf(body[h]), name)
    ensures BoundLast(x, name, f)
    decreases j
  {
    hide DefinesOnce, Free, Acts, EffectOf, BoundLast;
    assert body[..j][..j - 1] == body[..j - 1] && body[..j][j - 1] == body[j - 1];
    var front, y :| front in ActsAll(body[..j - 1]) && y in Acts(body[j - 1]) && x == front + y;
    ActsFit(body[j - 1]);
    if i == j - 1 {
      DefinedLast(Acts(body[i]), EffectOf(body[i]), name, f, y);
      BoundLastBehind(front, y, name, f);
    } else {
      BoundAbove(body, i, j - 1, name, f, front);
      FreeUnbinding(Acts(body[j - 1]), EffectOf(body[j - 1]), name, y);
      BoundLastMore(front, y, name, f);
    }
  }

  /** What a trace did last to a name is in force. */
  lemma {:induction false} InForceLast(ctx: Context, scope: Scope, around: seq<Control>, x: Trace, name: string,
                                       f: BindingFact)
    requires BoundLast(x, name, f) && f.name == name && DefinitionKind(f.how.kind)
    ensures Effective(HistoryOf(ctx, scope, around, x), TakesIn(x), name) == Some(EventFor(ctx, scope, around, f))
  {
    hide EventFor;
    var k :| 0 <= k < |x| && x[k].Takes? && x[k].binding == f && Unbinding(x[k + 1..], name);
    var front, last := x[..|x| - 1], x[|x| - 1];
    assert x == front + [last];
    var history := HistoryOf(ctx, scope, around, x);
    if k == |x| - 1 {
      assert history[|history| - 1].event == EventFor(ctx, scope, around, f);
    } else {
      assert x[k + 1..][|x| - k - 2] == last && !Binds(last, name);
      assert front[k + 1..] == x[k + 1..][..|x| - k - 2];
      assert BoundLast(front, name, f);
      InForceLast(ctx, scope, around, front, name, f);
      InForcePrefix(HistoryOf(ctx, scope, around, front), history, TakesIn(front), name);
    }
  }

  lemma {:induction false} InForcePrefix(a: History, b: History, n: nat, name: string)
    requires n <= |a| && a <= b
    ensures Effective(b, n, name) == Effective(a, n, name)
  {
    if n > 0 { InForcePrefix(a, b, n - 1, name); }
  }

  // ----- the index -----

  function PositionsIn(e: Effect): set<Position> {
    (set g | g in e.bindings :: g.pos) + (set c | c in e.calls :: c.pos)
  }

  /** Every record of a statement stands before every record of a later one. */
  ghost predicate LaidOut(body: seq<Node>) {
    forall a, b, p, q ::
      0 <= a < b < |body| && p in PositionsIn(EffectOf(body[a])) && q in PositionsIn(EffectOf(body[b])) ==> p.Before(q)
  }

  /** A binding record of a block's own scope is one of its statements'. */
  lemma {:induction false} OwnOfAll(body: seq<Node>, g: BindingFact)
    ensures g in Own(EffectOfAll(body)) <==> exists h :: 0 <= h < |body| && g in Own(EffectOf(body[h]))
  {
    hide Own, StrayNames, EffectOf, Effect.Then;
    if body == [] {
      NothingOwned();
    } else {
      var front, last := body[..|body| - 1], body[|body| - 1];
      OwnOfAll(front, g);
      OwnThen(EffectOfAll(front), EffectOf(last));
      if h :| 0 <= h < |front| && g in Own(EffectOf(front[h])) { assert body[h] == front[h]; }
      if h :| 0 <= h < |body| && g in Own(EffectOf(body[h])) { assert h < |front| ==> front[h] == body[h]; }
    }
  }

  /** The module's binding facts are the block's own records. */
  lemma ModuleFact(facts: FileFacts, calls: seq<Call>, e: Effect, b: Binding) returns (g: BindingFact)
    requires FactsOf(facts.scopes, facts.bindings, calls, facts.imports, e) && b in facts.bindings
      && b.scope == ModuleId
    ensures g in Own(e) && b == BindingOf(facts.scopes[0], [], g)
  {
    var i :| 0 <= i < |facts.bindings| && facts.bindings[i] == b;
    g := e.bindings[i];
    KindOfId(facts.scopes, facts.bindings, calls, facts.imports, e, g.place);
    if g.place > 0 { OnlyModule(facts, calls, e, g.place); }
  }

  lemma OnlyModule(facts: FileFacts, calls: seq<Call>, e: Effect, i: nat)
    requires FactsOf(facts.scopes, facts.bindings, calls, facts.imports, e) && 0 < i < |facts.scopes|
    ensures facts.scopes[i].id != ModuleId
  {
    PlacedIn(facts.scopes, facts.bindings, calls, facts.imports, e, i - 1);
  }

  lemma {:induction false} BeforeSorted(events: seq<Event>, pos: Position)
    requires PositionSorted(events)
    ensures PositionSorted(EventsBefore(events, pos))
  {
    hide Position.Before;
    if events != [] {
      var first, rest := events[0], events[1..];
      assert events == [first] + rest;
      BeforeSorted(rest, pos);
      FirstNotBehind(events, EventsBefore(rest, pos));
    }
  }

  lemma FirstNotBehind(events: seq<Event>, visible: seq<Event>)
    requires events != [] && PositionSorted(events) && PositionSorted(visible) && forall e :: e in visible ==>
      e in events[1..]
    ensures PositionSorted([events[0]] + visible)
  {
    hide Position.Before;
    var all := [events[0]] + visible;
    forall i, j | 0 <= i < j < |all| ensures !all[j].fact.pos.Before(all[i].fact.pos) {
      if i == 0 {
        assert visible[j - 1] in visible;
        var k :| 0 <= k < |events[1..]| && events[1..][k] == visible[j - 1];
        assert events[k + 1] == visible[j - 1];
      } else {
        assert all[i] == visible[i - 1] && all[j] == visible[j - 1];
      }
    }
  }

  /** The last of the visible events is the one behind all others. */
  lemma LatestPicked(events: seq<Event>, pos: Position, e: Event)
    requires PositionSorted(events) && e in EventsBefore(events, pos)
    requires forall x :: x in EventsBefore(events, pos) && x != e ==> x.fact.pos.Before(e.fact.pos)
    ensures Last(EventsBefore(events, pos)) == e
  {
    var visible := EventsBefore(events, pos);
    BeforeSorted(events, pos);
    var i :| 0 <= i < |visible| && visible[i] == e;
  }

  /** A statement's records stand before those of a later one. */
  lemma RecordsInOrder(body: seq<Node>, a: nat, b: nat, p: Position, q: Position)
    requires LaidOut(body) && a < b < |body| && p in PositionsIn(EffectOf(body[a]))
      && q in PositionsIn(EffectOf(body[b]))
    ensures p.Before(q) && !q.Before(p)
  {
    hide PositionsIn, EffectOf;
  }

  /** Of the module's bindings of the name that stand before the call, the definition stands last. */
  lemma OthersBefore(body: seq<Node>, i: nat, j: nat, name: string, f: BindingFact, call: CallFact, g: BindingFact)
    requires LaidOut(body) && i < j < |body| && call in EffectOf(body[j]).calls
    requires DefinesOnce(EffectOf(body[i]), name, f) && forall h :: i < h <= j ==> Free(EffectOf(body[h]), name)
    requires g in Own(EffectOfAll(body)) && g.name == name && g.pos.Before(call.pos)
    ensures g == f || g.pos.Before(f.pos)
  {
    hide EffectOf, LaidOut;
    OwnOfAll(body, g);
    assert Touches(g, name);
    forall k | i < k <= j ensures g !in Own(EffectOf(body[k])) { assert Free(EffectOf(body[k]), name); }
    var h :| 0 <= h < |body| && g in Own(EffectOf(body[h]));
    assert g.pos in PositionsIn(EffectOf(body[h])) && f.pos in PositionsIn(EffectOf(body[i]))
      && call.pos in PositionsIn(EffectOf(body[j]));
    if h < i { RecordsInOrder(body, h, i, g.pos, f.pos); }
    if h > j { RecordsInOrder(body, j, h, call.pos, g.pos); }
  }

  /** A file's own syntax, its facts and its index. */
  ghost predicate Indexes(ctx: Context, file: FileRecord, facts: FileFacts, calls: seq<Call>, modules: ModuleIndex,
                          symbols: SymbolIndex, definitions: map<Dotted, set<Target>>, body: seq<Node>) {
    && FactsOf(facts.scopes, facts.bindings, calls, facts.imports, EffectOfAll(body))
    && SoundContext(ctx) && BuiltFrom(ctx, file, facts, modules, symbols, definitions)
  }

  lemma HasModule(ctx: Context, file: FileRecord, facts: FileFacts, calls: seq<Call>, modules: ModuleIndex,
                  symbols: SymbolIndex, definitions: map<Dotted, set<Target>>, body: seq<Node>)
    requires Indexes(ctx, file, facts, calls, modules, symbols, definitions, body)
    ensures |facts.scopes| > 0 && facts.scopes[0].id == ModuleId
  {
    hide EffectOfAll;
    FactsCounted(facts.scopes, facts.bindings, calls, facts.imports, EffectOfAll(body));
  }

  /** A run of a module's code that has come to a call inside its statement `j`. */
  ghost predicate CameTo(body: seq<Node>, j: nat, before: Trace, call: CallFact)
    requires j < |body|
  {
    && call in EffectOf(body[j]).calls
    && exists x, z, n: nat :: x in ActsAll(body[..j]) && z in Acts(body[j]) && n <= |z| && before == x + z[..n]
  }

  /**
   * Where order of position and order of effect agree: when the last statement above the call that binds the name
   * defines it once and under no control, the resolver picks that definition, and it is the one in force.
   */
  lemma DefinitionPicked(ctx: Context, file: FileRecord, facts: FileFacts, calls: seq<Call>, modules: ModuleIndex,
                         symbols: SymbolIndex, definitions: map<Dotted, set<Target>>, body: seq<Node>, i: nat, j: nat,
                         name: string, f: BindingFact, before: Trace, call: CallFact)
    requires Indexes(ctx, file, facts, calls, modules, symbols, definitions, body)
    requires LaidOut(body) && i < j < |body| && CameTo(body, j, before, call)
    requires DefinesOnce(EffectOf(body[i]), name, f) && forall h :: i < h <= j ==> Free(EffectOf(body[h]), name)
    ensures var e := EventFor(ctx, facts.scopes[0], [], f);
            && e in EventsOf(ctx, ModuleId, name)
            && Picked(ctx, ModuleId, name, call.pos) == Some(e)
            && Effective(HistoryOf(ctx, facts.scopes[0], [], before), TakesIn(before), name) == Some(e)
  {
    hide FactsOf, SoundContext, BuiltFrom, EffectOf, EffectOfAll, LaidOut, Own, PositionSorted, PositionsIn, Free, Acts,
         ActsAll, BoundLast, EventFor;
    FactsCounted(facts.scopes, facts.bindings, calls, facts.imports, EffectOfAll(body));
    var module_ := facts.scopes[0];
    DefinitionAboveLast(body, i, j, name, f, before, call);
    InForceLast(ctx, module_, [], before, name, f);
    var b := DefinitionFact(facts, calls, body, i, name, f);
    FactIndexed(ctx, file, facts, modules, symbols, definitions, b);
    var e := EventOf(b, ImportsBy(file, facts.imports, modules, symbols), definitions);
    EventForFact(ctx, file, facts, modules, symbols, definitions, f, e);
    assert f.pos in PositionsIn(EffectOf(body[i])) && call.pos in PositionsIn(EffectOf(body[j])) by {
      Places(body, i, j, f, call);
    }
    RecordsInOrder(body, i, j, f.pos, call.pos);
    var events := EventsOf(ctx, ModuleId, name);
    forall x | x in EventsBefore(events, call.pos) && x != e ensures x.fact.pos.Before(e.fact.pos) {
      var c := BuiltEvent(ctx, file, facts, modules, symbols, definitions, ModuleId, name, x);
      var g := ModuleFact(facts, calls, EffectOfAll(body), c);
      OthersBefore(body, i, j, name, f, call, g);
    }
    LatestPicked(events, call.pos, e);
  }

  lemma Places(body: seq<Node>, i: nat, j: nat, f: BindingFact, call: CallFact)
    requires i < |body| && j < |body| && f in EffectOf(body[i]).bindings && call in EffectOf(body[j]).calls
    ensures f.pos in PositionsIn(EffectOf(body[i])) && call.pos in PositionsIn(EffectOf(body[j]))
  {
    hide EffectOf;
  }

  lemma DefinitionAboveLast(body: seq<Node>, i: nat, j: nat, name: string, f: BindingFact, before: Trace,
                            call: CallFact)
    requires i < j < |body| && CameTo(body, j, before, call)
    requires DefinesOnce(EffectOf(body[i]), name, f) && forall h :: i < h <= j ==> Free(EffectOf(body[h]), name)
    ensures BoundLast(before, name, f)
  {
    hide EffectOf, Acts, ActsAll, BoundLast, DefinesOnce, Free;
    var x, z, n: nat :| x in ActsAll(body[..j]) && z in Acts(body[j]) && n <= |z| && before == x + z[..n];
    BoundAbove(body, i, j, name, f, x);
    ActsFit(body[j]);
    FreeUnbinding(Acts(body[j]), EffectOf(body[j]), name, z);
    assert Unbinding(z[..n], name) by { assert forall a :: a in z[..n] ==> a in z; }
    BoundLastMore(x, z[..n], name, f);
  }

  /** The binding fact of a record of the module's own. */
  lemma DefinitionFact(facts: FileFacts, calls: seq<Call>, body: seq<Node>, i: nat, name: string, f: BindingFact)
    returns (b: Binding)
    requires FactsOf(facts.scopes, facts.bindings, calls, facts.imports, EffectOfAll(body)) && i < |body|
    requires f in EffectOf(body[i]).bindings && f.place == 0 && f.name == name
    ensures b in facts.bindings && b == BindingOf(facts.scopes[0], [], f) && b.scope == ModuleId && b.name == name
      && b.pos == f.pos
  {
    hide EffectOf, EffectOfAll;
    var e := EffectOfAll(body);
    OwnOfAll(body, f);
    assert f in Own(EffectOf(body[i]));
    var k :| 0 <= k < |e.bindings| && e.bindings[k] == f;
    b := facts.bindings[k];
  }

  lemma EventForFact(ctx: Context, file: FileRecord, facts: FileFacts, modules: ModuleIndex, symbols: SymbolIndex,
                     definitions: map<Dotted, set<Target>>, f: BindingFact, e: Event)
    requires BuiltFrom(ctx, file, facts, modules, symbols, definitions) && |facts.scopes| > 0
    requires e in EventsOf(ctx, facts.scopes[0].id, f.name) && e.fact == BindingOf(facts.scopes[0], [], f)
    ensures EventFor(ctx, facts.scopes[0], [], f) == e
  {
    hide BuiltFrom, EventOf, ImportsBy;
    var id := facts.scopes[0].id;
    var there := EventFor(ctx, facts.scopes[0], [], f);
    assert there in EventsOf(ctx, id, f.name);
    var a := BuiltEvent(ctx, file, facts, modules, symbols, definitions, id, f.name, e);
    var b := BuiltEvent(ctx, file, facts, modules, symbols, definitions, id, f.name, there);
  }

  /** So a call of that name by itself is resolved to the definition, and that is what it reaches. */
  lemma DefinitionReached(ctx: Context, file: FileRecord, facts: FileFacts, calls: seq<Call>, modules: ModuleIndex,
                          symbols: SymbolIndex, definitions: map<Dotted, set<Target>>, body: seq<Node>, i: nat, j: nat,
                          name: string, f: BindingFact, start: set<seq<string>>, before: Trace, call: CallFact,
                          t: Target)
    requires Indexes(ctx, file, facts, calls, modules, symbols, definitions, body)
    requires Comparable(ctx, facts.scopes[0], [])
    requires LaidOut(body) && i < j < |body| && CameTo(body, j, before, call) && call.callee == Some([name])
    requires DefinesOnce(EffectOf(body[i]), name, f) && forall h :: i < h <= j ==> Free(EffectOf(body[h]), name)
    requires EventFor(ctx, facts.scopes[0], [], f).targets == {t} && t.SymbolTarget?
    ensures var module_ := facts.scopes[0];
            var r := ResolveCall(ctx, CallOf(module_, [], call));
            && r.state == Candidate && r.targets == {t}
            && Agree(r, Evaluate(ctx, module_, StoreAfter(ctx, module_, [], start, before), [name], call.pos))
  {
    hide Indexes, SoundContext, Keyed, EffectOf, LaidOut, CameTo, DefinesOnce, Free, EventFor, Evaluate, Run,
         ResolveCall, HistoryOf, LoadedAt, InForce;
    HasModule(ctx, file, facts, calls, modules, symbols, definitions, body);
    var module_ := facts.scopes[0];
    assert WellFormed(ctx) by { SoundIsWellFormed(ctx); }
    DefinitionPicked(ctx, file, facts, calls, modules, symbols, definitions, body, i, j, name, f, before, call);
    var history, e := HistoryOf(ctx, module_, [], before), EventFor(ctx, module_, [], f);
    DefinitionOf(body[i], name, f);
    PickedDefinition(ctx, module_, name, call, e, t);
    assert Comparable(ctx, module_, history);
    CandidateRightExactly(ctx, module_, start, history, |history|, CallOf(module_, [], call));
    assert [name][1..] == [];
  }

  lemma DefinitionOf(node: Node, name: string, f: BindingFact)
    requires DefinesOnce(EffectOf(node), name, f)
    ensures f.name == name && f.control == [] && DefinitionKind(f.how.kind)
  {
    hide EffectOf;
  }

  lemma PickedDefinition(ctx: Context, scope: Scope, name: string, call: CallFact, e: Event, t: Target)
    requires SoundContext(ctx) && scope in ctx.scopes && scope.globals == {} && scope.nonlocals == {}
      && call.callee == Some([name])
    requires Picked(ctx, scope.id, name, call.pos) == Some(e) && e.targets == {t} && t.SymbolTarget?
    requires e.fact.control == [] && DefinitionKind(e.fact.kind)
    ensures var r := ResolveCall(ctx, CallOf(scope, [], call)); r.state == Candidate && r.targets == {t}
  {
    hide ApplySuffix, ResolveName, EventsBefore;
    PickedHere(ctx, scope.id, name, call.pos);
    BoundAnswer(ctx, scope, name, call.pos);
    SettledOne(e, t);
    WholeText(ctx, name, Settled(e), t);
  }

  lemma SettledOne(e: Event, t: Target)
    requires e.fact.control == [] && e.targets == {t} && DefinitionKind(e.fact.kind)
    ensures Settled(e) == Resolution(Candidate, UniqueLexicalBinding, {t}, [e], Some(e)) && !FollowsText(e)
      && BoundPath(e) == [e.fact.name]
    ensures Viewed(Settled(e)) == View(Seen(ValueOf(t), [e]), {})
  {
  }

  lemma WholeText(ctx: Context, name: string, root: Resolution, t: Target)
    requires root.state == Candidate && root.targets == {t} && t.SymbolTarget? && root.event.Some?
      && !root.event.value.fact.kind.ImportBinding?
    ensures var r := ApplySuffix(ctx.symbols, [name], root, false); r.state == Candidate && r.targets == {t}
  {
    assert [name][1..] == [];
    assert (set x | x in root.targets && x.SymbolTarget?) == {t};
  }
}
