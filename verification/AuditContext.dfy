/** Audit contexts: defaults laid under what a caller supplies, and amendments merged into an earlier context. */
module AuditContext {
  import opened Common
  import opened Activation

  datatype Defaults = Defaults(mode: Json, targetTier: Json, declarations: map<string, Json>)

  datatype ContextError =
    | EmptyContext | DeclarationsNotObject | LedgerNotArray
    | ImmutableField(key: string) | ResolvedDeclaration | ReducedFact | FactsNotObject | MutatedFinding
      | FindingNotObject
    | ReducedFindings | AmendmentsNotArray | ResolvedRisk

  const UNKNOWN := Str("unknown")
  const V2 := Str("2.0.0")
  const FACT_KEYS := ["blast_radius", "write_chain_components"]
  const IMMUTABLE := {
    "schema_version", "goal", "decision_owner", "stakeholder", "subject", "scope", "audit_stage", "legacy_state",
    "organization_scope", "execution_profile", "audit_intent", "mode", "context_mode", "target_tier"}
  const TRI_STATE := {"pii", "multi_tenant", "post_incident"}

  function Get(c: Context, key: string): Option<Json> { if key in c then Some(c[key]) else None }

  predicate IsV2(c: Context) { Get(c, "schema_version") == Some(V2) }

  function Declared(c: Context): map<string, Json> {
    if "declarations" in c && c["declarations"].Obj? then c["declarations"].fields else map[]
  }

  /** Findings that are mandatory and neither resolved, closed nor rejected. */
  predicate OpenMandatory(finding: Json) {
    && finding.Obj? && Get(finding.fields, "priority") == Some(Str("mandatory"))
    && Get(finding.fields, "state") !in {Some(Str("resolved")), Some(Str("closed")), Some(Str("rejected"))}
  }

  function CountOpen(ledger: seq<Json>): nat {
    if ledger == [] then 0
    else CountOpen(ledger[..|ledger| - 1]) + (if OpenMandatory(ledger[|ledger| - 1]) then 1 else 0)
  }

  // ----- normalizing -----

  function Overlay(d: Defaults, s: Context): Context {
    (map["mode" := d.mode, "target_tier" := d.targetTier] + s)["declarations" := Obj(d.declarations + Declared(s))]
  }

  /** What a 2.0.0 context says under its newer names is put under the older ones as well. */
  function Extras(s: Context): Context {
    var profile := Get(s, "execution_profile");
    var scope := Get(s, "organization_scope");
    var a: Context := if profile.Some? && profile.value != Null then map["mode" := profile.value] else map[];
    var b := if scope.Some? && scope.value != Null
             then a["context_mode" := Str(if scope.value == Str("single-team") then "single" else "enterprise")] else a;
    var facts := if "facts" in s && s["facts"].Obj? then s["facts"].fields else map[];
    var c := if "blast_radius" in facts then b["blast_radius" := facts["blast_radius"]] else b;
    var e := if "write_chain_components" in facts then c["write_chain_components" := facts["write_chain_components"]]
             else c;
    if "finding_ledger" in s && s["finding_ledger"].Arr?
    then e["mandatory_findings" := Int(CountOpen(s["finding_ledger"].items))] else e
  }

  function Normalize(d: Defaults, supplied: Option<Context>): Result<Context, ContextError> {
    var s := if supplied.Some? then supplied.value else map[];
    if supplied == Some(map[]) then Err(EmptyContext)
    else if "declarations" in s && !s["declarations"].Obj? then Err(DeclarationsNotObject)
    else if !IsV2(s) then Ok(Overlay(d, s))
    else if "finding_ledger" in s && !s["finding_ledger"].Arr? then Err(LedgerNotArray)
    else Ok(Overlay(d, s) + Extras(s))
  }

  method NormalizeContext(d: Defaults, supplied: Option<Context>) returns (r: Result<Context, ContextError>)
    ensures r == Normalize(d, supplied)
  {
    hide Extras, Overlay;
    if supplied == Some(map[]) { return Err(EmptyContext); }
    var s: Context := if supplied.Some? then supplied.value else map[];
    r := LayOver(d, s);
    if r.Err? || !IsV2(s) { return; }
    if "finding_ledger" in s && !s["finding_ledger"].Arr? { return Err(LedgerNotArray); }
    r := Ok(r.value + Extras(s));
  }

  /** The loop over the supplied fields; declarations are joined one by one, every other field replaces its default. */
  method LayOver(d: Defaults, s: Context) returns (r: Result<Context, ContextError>)
    ensures r == if "declarations" in s && !s["declarations"].Obj? then Err(DeclarationsNotObject)
                 else Ok(Overlay(d, s))
  {
    hide LaidOver, Overlay;
    var declarations := d.declarations;
    var normalized: Context := map["mode" := d.mode, "target_tier" := d.targetTier];
    var todo := s.Keys;
    LaidOverNothing(d, s);
    while todo != {}
      invariant todo <= s.Keys && LaidOver(d, s, todo, declarations, normalized)
      invariant "declarations" in s && "declarations" !in todo ==> s["declarations"].Obj?
      decreases |todo|
    {
      var key :| key in todo;
      LaidOverKey(d, s, todo, declarations, normalized, key);
      todo := todo - {key};
      if key == "declarations" {
        if !s[key].Obj? { return Err(DeclarationsNotObject); }
        declarations := declarations + s[key].fields;
      } else {
        normalized := normalized[key := s[key]];
      }
    }
    LaidOverAll(d, s, declarations, normalized);
    r := Ok(normalized["declarations" := Obj(declarations)]);
  }

  /** Every field outside `todo` has been laid over the defaults. */
  ghost predicate LaidOver(d: Defaults, s: Context, todo: set<string>, declarations: map<string, Json>,
                           normalized: Context) {
    && declarations == (if "declarations" in todo then d.declarations else d.declarations + Declared(s))
    && normalized == map["mode" := d.mode, "target_tier" := d.targetTier] + (s - (todo + {"declarations"}))
  }

  lemma LaidOverNothing(d: Defaults, s: Context)
    ensures LaidOver(d, s, s.Keys, d.declarations, map["mode" := d.mode, "target_tier" := d.targetTier])
  {
    assert s - (s.Keys + {"declarations"}) == map[];
    assert "declarations" !in s ==> Declared(s) == map[];
    assert d.declarations + map[] == d.declarations;
  }

  lemma LaidOverKey(d: Defaults, s: Context, todo: set<string>, declarations: map<string, Json>, normalized: Context,
                    key: string)
    requires LaidOver(d, s, todo, declarations, normalized) && key in todo && todo <= s.Keys
    ensures key == "declarations" && s[key].Obj? ==>
      LaidOver(d, s, todo - {key}, declarations + s[key].fields, normalized)
    ensures key != "declarations" ==> LaidOver(d, s, todo - {key}, declarations, normalized[key := s[key]])
  {
    if key == "declarations" {
      assert todo - {key} + {"declarations"} == todo + {"declarations"};
    } else {
      assert map["mode" := d.mode, "target_tier" := d.targetTier] + (s - (todo - {key} + {"declarations"})) ==
        normalized[key := s[key]];
    }
  }

  lemma LaidOverAll(d: Defaults, s: Context, declarations: map<string, Json>, normalized: Context)
    requires LaidOver(d, s, {}, declarations, normalized)
    ensures normalized["declarations" := Obj(declarations)] == Overlay(d, s)
  {
  }

  /** Only what the extras are read from matters to them. */
  lemma SameExtras(s: Context, t: Context)
    requires forall k :: k in {"execution_profile", "organization_scope", "facts", "finding_ledger"} ==>
      Get(t, k) == Get(s, k)
    ensures Extras(t) == Extras(s)
  {
    SameLedger(s, t);
    assert Get(t, "facts") == Get(s, "facts");
    assert Get(t, "execution_profile") == Get(s, "execution_profile");
    assert Get(t, "organization_scope") == Get(s, "organization_scope");
  }

  lemma ExtraKeys(s: Context)
    ensures Extras(s).Keys <= {"mode", "context_mode", "blast_radius", "write_chain_components", "mandatory_findings"}
  {
  }

  lemma OverlayKeeps(d: Defaults, s: Context, key: string)
    requires key !in {"mode", "target_tier", "declarations"}
    ensures Get(Overlay(d, s), key) == Get(s, key)
  {
  }

  /** A context with every default in it is not changed by laying it over the defaults. */
  lemma OverlayNothing(d: Defaults, n: Context)
    requires "mode" in n && "target_tier" in n && "declarations" in n && n["declarations"].Obj?
    requires d.declarations + n["declarations"].fields == n["declarations"].fields
    ensures Overlay(d, n) == n
  {
  }

  /** Normalizing a normalized context changes nothing. */
  lemma NormalizeIdempotent(d: Defaults, supplied: Option<Context>)
    requires Normalize(d, supplied).Ok?
    ensures var n := Normalize(d, supplied).value; n != map[] && Normalize(d, Some(n)) == Ok(n)
  {
    hide Extras, Overlay;
    var s := if supplied.Some? then supplied.value else map[];
    var n := Overlay(d, s);
    OverlaidDeclarations(d, s);
    OverlayKeeps(d, s, "schema_version");
    if IsV2(s) {
      var t := n + Extras(s);
      ExtraKeys(s);
      forall k | k in {"execution_profile", "organization_scope", "facts", "finding_ledger"}
        ensures Get(t, k) == Get(s, k)
      {
        OverlayKeeps(d, s, k);
      }
      SameExtras(s, t);
      SameLedger(s, t);
      OverlayNothing(d, t);
      assert t + Extras(s) == t;
    } else {
      OverlayNothing(d, n);
    }
  }

  lemma SameLedger(s: Context, t: Context)
    requires Get(t, "finding_ledger") == Get(s, "finding_ledger")
    ensures "finding_ledger" in t <==> "finding_ledger" in s
    ensures "finding_ledger" in s ==> t["finding_ledger"] == s["finding_ledger"]
  {
  }

  lemma OverlaidDeclarations(d: Defaults, s: Context)
    ensures var n := Overlay(d, s);
            && "mode" in n && "target_tier" in n && "declarations" in n
            && n["declarations"] == Obj(d.declarations + Declared(s))
            && d.declarations + (d.declarations + Declared(s)) == d.declarations + Declared(s)
  {
  }

  // ----- merging an amendment -----

  /** Whole numbers, truth values among them. */
  predicate IsWhole(v: Option<Json>) { v.Some? && (v.value.Int? || v.value.Bool?) }

  function WholeOf(v: Json): int
    requires v.Int? || v.Bool?
  {
    if v.Int? then v.whole else if v.truth then 1 else 0
  }

  predicate Shrinks(current: Option<Json>, candidate: Json) {
    IsWhole(current) && IsWhole(Some(candidate)) && WholeOf(candidate) < WholeOf(current.value)
  }

  function Larger(current: Option<Json>, candidate: Json): Json {
    if IsWhole(current) && IsWhole(Some(candidate)) && WholeOf(candidate) <= WholeOf(current.value) then current.value
    else candidate
  }

  predicate DeclarationKept(existing: map<string, Json>, name: string, candidate: Json) {
    name in existing ==> Same(existing[name], UNKNOWN) || Same(existing[name], candidate)
  }

  function MergeDeclarations(existing: map<string, Json>,
                             value: map<string, Json>): Result<map<string, Json>, ContextError> {
    if forall name | name in value :: DeclarationKept(existing, name, value[name]) then Ok(existing + value)
    else Err(ResolvedDeclaration)
  }

  function MergeFacts(existing: map<string, Json>, value: map<string, Json>): Result<map<string, Json>, ContextError> {
    if forall name | name in value :: !Shrinks(Get(existing, name), value[name]) then Ok(existing + value)
    else Err(ReducedFact)
  }

  /** The text of a value; that of a fraction, a list or an object stands for itself. */
  datatype FindingKey = Text(text: string) | Rendered(value: Json)

  function Digits(n: nat): string {
    (if n < 10 then "" else Digits(n / 10)) + [('0' as int + n % 10) as char]
  }

  function Render(v: Json): FindingKey {
    match v
    case Null => Text("None")
    case Bool(b) => Text(if b then "True" else "False")
    case Int(n) => Text(if n < 0 then "-" + Digits(-n) else Digits(n))
    case Str(t) => Text(t)
    case _ => Rendered(v)
  }

  /** The id of a finding, `missing` where it has none. */
  function FindingId(finding: Json, missing: string): FindingKey
    requires finding.Obj?
  {
    if "id" in finding.fields then Render(finding.fields["id"]) else Text(missing)
  }

  /** A known finding without an id is filed under "None". */
  function ById(ledger: seq<Json>): map<FindingKey, Json> {
    if ledger == [] then map[]
    else
      var last := ledger[|ledger| - 1];
      var front := ById(ledger[..|ledger| - 1]);
      if last.Obj? then front[FindingId(last, "None") := last] else front
  }

  /** The ledger so far, and its findings by id. */
  datatype Filing = Filing(items: seq<Json>, known: map<FindingKey, Json>)

  /** Findings are only added: one that is known has to be the same as before. A new one without an id counts as "". */
  function MergeLedger(filed: Filing, value: seq<Json>): Result<Filing, ContextError> {
    if value == [] then Ok(filed)
    else
      var front := MergeLedger(filed, value[..|value| - 1]);
      var item := value[|value| - 1];
      if front.Err? then front
      else if !item.Obj? then Err(FindingNotObject)
      else
        var key := FindingId(item, "");
        if key !in front.value.known then Ok(Filing(front.value.items + [item], front.value.known[key := item]))
        else if Same(front.value.known[key], item) then front
        else Err(MutatedFinding)
  }

  function FiledAs(ledger: seq<Json>): Filing { Filing(ledger, ById(ledger)) }

  function MergeAmendments(existing: seq<Json>, value: seq<Json>): seq<Json> {
    if value == [] then existing
    else
      var front := MergeAmendments(existing, value[..|value| - 1]);
      if exists x | x in front :: Same(x, value[|value| - 1]) then front else front + [value[|value| - 1]]
  }

  function GrowFact(merged: Context, key: string, candidate: Json): Result<Context, ContextError> {
    if Shrinks(Get(merged, key), candidate) then Err(ReducedFact)
    else Ok(merged[key := Larger(Get(merged, key), candidate)])
  }

  function GrowFacts(merged: Context, facts: map<string, Json>, keys: seq<string>): Result<Context, ContextError> {
    if keys == [] then Ok(merged)
    else
      var front := GrowFacts(merged, facts, keys[..|keys| - 1]);
      var key := keys[|keys| - 1];
      if front.Err? || key !in facts then front else GrowFact(front.value, key, facts[key])
  }

  /** One field of an amendment. */
  function MergeField(merged: Context, v2: bool, key: string, value: Json): Result<Context, ContextError> {
    if key in IMMUTABLE then
      if key in merged && !Same(merged[key], value) then Err(ImmutableField(key)) else Ok(merged[key := value])
    else if key == "declarations" then MergeDeclarationsField(merged, value)
    else if key == "facts" then
      if !value.Obj? then Err(FactsNotObject)
      else if !v2 then GrowFacts(merged, value.fields, FACT_KEYS)
      else MergeFactsField(merged, value.fields)
    else if key == "finding_ledger" then
      if !value.Arr? then Err(LedgerNotArray)
      else if !v2 then CountFindings(merged, value.items)
      else MergeLedgerField(merged, value.items)
    else if key == "amendments" then
      if !value.Arr? || ("amendments" in merged && !merged["amendments"].Arr?) then Err(AmendmentsNotArray)
      else Ok(merged["amendments" :=
                     Arr(MergeAmendments(if "amendments" in merged then merged["amendments"].items else [],
                                         value.items))])
    else if key in FACT_KEYS then GrowFact(merged, key, value)
    else if key in TRI_STATE && key in merged && !Same(merged[key], UNKNOWN) && !Same(merged[key], value)
         then Err(ResolvedRisk)
    else Ok(merged[key := value])
  }

  function MergeDeclarationsField(merged: Context, value: Json): Result<Context, ContextError> {
    if !value.Obj? || ("declarations" in merged && !merged["declarations"].Obj?) then Err(DeclarationsNotObject)
    else
      var combined := MergeDeclarations(Declared(merged), value.fields);
      if combined.Err? then Err(combined.error) else Ok(merged["declarations" := Obj(combined.value)])
  }

  function MergeFactsField(merged: Context, value: map<string, Json>): Result<Context, ContextError> {
    if "facts" in merged && !merged["facts"].Obj? then Err(FactsNotObject)
    else
      var combined := MergeFacts(if "facts" in merged then merged["facts"].fields else map[], value);
      if combined.Err? then Err(combined.error) else Ok(merged["facts" := Obj(combined.value)])
  }

  function Ledger(c: Context): seq<Json> {
    if "finding_ledger" in c && c["finding_ledger"].Arr? then c["finding_ledger"].items else []
  }

  function MergeLedgerField(merged: Context, value: seq<Json>): Result<Context, ContextError> {
    if "finding_ledger" in merged && !merged["finding_ledger"].Arr? then Err(LedgerNotArray)
    else
      var combined := MergeLedger(FiledAs(Ledger(merged)), value);
      if combined.Err? then Err(combined.error) else Ok(merged["finding_ledger" := Arr(combined.value.items)])
  }

  /** Before 2.0.0 a ledger only raises the number of mandatory findings. */
  function CountFindings(merged: Context, value: seq<Json>): Result<Context, ContextError> {
    var current := if "mandatory_findings" in merged then merged["mandatory_findings"] else Int(0);
    var discovered := Int(CountOpen(value));
    if Shrinks(Some(current), discovered) then Err(ReducedFindings)
    else Ok(merged["mandatory_findings" := Larger(Some(current), discovered)])
  }

  /** An amendment is read in the order it was written. */
  type Amendment = seq<(string, Json)>

  function MergeFields(base: Context, v2: bool, amendment: Amendment): Result<Context, ContextError> {
    if amendment == [] then Ok(base)
    else
      var front := MergeFields(base, v2, amendment[..|amendment| - 1]);
      var (key, value) := amendment[|amendment| - 1];
      if front.Err? then front else MergeField(front.value, v2, key, value)
  }

  function Settle(merged: Context): Context {
    var facts := if "facts" in merged && merged["facts"].Obj? then merged["facts"].fields else map[];
    var a := if "blast_radius" in facts
             then merged["blast_radius" := Larger(Get(merged, "blast_radius"), facts["blast_radius"])] else merged;
    var b := if "write_chain_components" in facts
             then a["write_chain_components" :=
                    Larger(Get(a, "write_chain_components"), facts["write_chain_components"])] else a;
    if "finding_ledger" in merged && merged["finding_ledger"].Arr?
    then b["mandatory_findings" := Int(CountOpen(Ledger(merged)))] else b
  }

  predicate BringsV2(base: Context, amendment: Amendment) {
    IsV2(base) || exists i | 0 <= i < |amendment| :: amendment[i] == ("schema_version", V2)
  }

  function Merge(base: Context, amendment: Amendment): Result<Context, ContextError> {
    var merged := MergeFields(base, BringsV2(base, amendment), amendment);
    if merged.Err? then merged else Ok(Settle(merged.value))
  }

  method MergeContext(base: Context, amendment: Amendment) returns (r: Result<Context, ContextError>)
    ensures r == Merge(base, amendment)
  {
    hide MergeField, Settle;
    var v2 := BringsV2(base, amendment);
    var merged := base;
    for k := 0 to |amendment|
      invariant MergeFields(base, v2, amendment[..k]) == Ok(merged)
    {
      assert amendment[..k + 1][..k] == amendment[..k];
      var step := MergeField(merged, v2, amendment[k].0, amendment[k].1);
      if step.Err? {
        MergeStops(base, v2, amendment, k + 1);
        return step;
      }
      merged := step.value;
    }
    assert amendment[..|amendment|] == amendment;
    r := Ok(Settle(merged));
  }

  lemma {:induction false} MergeStops(base: Context, v2: bool, amendment: Amendment, k: nat)
    requires k <= |amendment| && MergeFields(base, v2, amendment[..k]).Err?
    ensures MergeFields(base, v2, amendment) == MergeFields(base, v2, amendment[..k])
    decreases |amendment|
  {
    if k == |amendment| {
      assert amendment[..k] == amendment;
    } else {
      assert amendment[..|amendment| - 1][..k] == amendment[..k];
      MergeStops(base, v2, amendment[..|amendment| - 1], k);
    }
  }

  // ----- what a merge keeps -----

  /** Every declaration that was resolved has the same value, as comparison sees it. */
  ghost predicate DeclarationsKept(before: map<string, Json>, after: map<string, Json>) {
    forall name :: name in before && !Same(before[name], UNKNOWN) ==> name in after && Same(before[name], after[name])
  }

  /**
   * What an amendment may not touch: resolved declarations, the schema version, and known findings of a 2.0.0 context.
   */
  ghost predicate Kept(before: Context, after: Context) {
    && DeclarationsKept(Declared(before), Declared(after))
    && ("schema_version" in before ==>
        "schema_version" in after && Same(before["schema_version"], after["schema_version"]))
    && (IsV2(before) && "finding_ledger" in before && before["finding_ledger"].Arr? ==>
          IsV2(after) && "finding_ledger" in after && after["finding_ledger"].Arr? && Ledger(before) <= Ledger(after))
  }

  lemma KeptTransitive(a: Context, b: Context, c: Context)
    requires Kept(a, b) && Kept(b, c)
    ensures Kept(a, c)
  {
    forall name | name in Declared(a) && !Same(Declared(a)[name], UNKNOWN)
      ensures name in Declared(c) && Same(Declared(a)[name], Declared(c)[name])
    {
      assert Same(Declared(a)[name], Declared(b)[name]);
    }
  }

  lemma {:induction false} LedgerGrows(filed: Filing, value: seq<Json>)
    requires MergeLedger(filed, value).Ok?
    ensures filed.items <= MergeLedger(filed, value).value.items
  {
    hide FindingId, ById, Canon;
    if value != [] { LedgerGrows(filed, value[..|value| - 1]); }
  }

  lemma SameFields(a: Context, b: Context)
    requires forall k :: k in {"declarations", "finding_ledger", "schema_version"} ==> Get(a, k) == Get(b, k)
    ensures Kept(a, b)
  {
    assert Get(a, "declarations") == Get(b, "declarations");
    assert Get(a, "finding_ledger") == Get(b, "finding_ledger");
    assert Get(a, "schema_version") == Get(b, "schema_version");
  }

  lemma {:induction false} GrowFactsOnly(merged: Context, facts: map<string, Json>, keys: seq<string>, k: string)
    requires GrowFacts(merged, facts, keys).Ok? && k !in keys
    ensures Get(GrowFacts(merged, facts, keys).value, k) == Get(merged, k)
  {
    hide Shrinks, Larger;
    if keys != [] { GrowFactsOnly(merged, facts, keys[..|keys| - 1], k); }
  }

  lemma MergeFieldKeeps(merged: Context, v2: bool, key: string, value: Json)
    requires (IsV2(merged) ==> v2) && MergeField(merged, v2, key, value).Ok?
    ensures Kept(merged, MergeField(merged, v2, key, value).value)
  {
    hide Canon, MergeAmendments, Shrinks, Larger, GrowFacts;
    var after := MergeField(merged, v2, key, value).value;
    if key == "schema_version" {
      VersionField(merged, value);
    } else if key == "declarations" {
      DeclarationsField(merged, value);
    } else if key == "facts" && !v2 {
      forall k | k in {"declarations", "finding_ledger", "schema_version"} ensures Get(after, k) == Get(merged, k) {
        GrowFactsOnly(merged, value.fields, FACT_KEYS, k);
      }
      SameFields(merged, after);
    } else if key == "finding_ledger" && v2 {
      LedgerGrows(FiledAs(Ledger(merged)), value.items);
      LedgerField(merged, value.items);
    } else {
      SameFields(merged, after);
    }
  }

  lemma VersionField(merged: Context, value: Json)
    requires "schema_version" in merged ==> Same(merged["schema_version"], value)
    ensures Kept(merged, merged["schema_version" := value])
  {
  }

  lemma DeclarationsField(merged: Context, value: Json)
    requires MergeDeclarationsField(merged, value).Ok?
    ensures Kept(merged, MergeDeclarationsField(merged, value).value)
  {
    hide Canon;
    var after := MergeDeclarationsField(merged, value).value;
    forall name | name in Declared(merged) && !Same(Declared(merged)[name], UNKNOWN)
      ensures name in Declared(after) && Same(Declared(merged)[name], Declared(after)[name])
    {
      if name in value.fields { assert DeclarationKept(Declared(merged), name, value.fields[name]); }
    }
  }

  lemma LedgerField(merged: Context, value: seq<Json>)
    requires MergeLedgerField(merged, value).Ok?
      && Ledger(merged) <= MergeLedger(FiledAs(Ledger(merged)), value).value.items
    ensures Kept(merged, MergeLedgerField(merged, value).value)
  {
    hide Canon, MergeLedger;
  }

  lemma {:induction false} MergeFieldsKeep(base: Context, v2: bool, amendment: Amendment)
    requires (BringsV2(base, amendment) ==> v2) && MergeFields(base, v2, amendment).Ok?
    ensures Kept(base, MergeFields(base, v2, amendment).value)
    ensures IsV2(MergeFields(base, v2, amendment).value) ==> BringsV2(base, amendment)
  {
    hide MergeField, Kept, Same, IsV2;
    if amendment == [] {
      SameFields(base, base);
    } else {
      var rest, last := amendment[..|amendment| - 1], amendment[|amendment| - 1];
      BringsMore(base, rest, amendment);
      MergeFieldsKeep(base, v2, rest);
      var front := MergeFields(base, v2, rest).value;
      VersionComes(front, v2, last.0, last.1);
      MergeFieldKeeps(front, v2, last.0, last.1);
      KeptTransitive(base, front, MergeField(front, v2, last.0, last.1).value);
    }
  }

  lemma BringsMore(base: Context, rest: Amendment, amendment: Amendment)
    requires amendment != [] && rest == amendment[..|amendment| - 1]
    ensures BringsV2(base, rest) ==> BringsV2(base, amendment)
    ensures amendment[|amendment| - 1] == ("schema_version", V2) ==> BringsV2(base, amendment)
  {
    if BringsV2(base, rest) && !IsV2(base) {
      var i :| 0 <= i < |rest| && rest[i] == ("schema_version", V2);
      assert amendment[i] == rest[i];
    }
  }

  lemma VersionComes(merged: Context, v2: bool, key: string, value: Json)
    requires MergeField(merged, v2, key, value).Ok?
    ensures IsV2(MergeField(merged, v2, key, value).value) ==> IsV2(merged) || (key, value) == ("schema_version", V2)
  {
    hide Canon, MergeAmendments, Shrinks, Larger, GrowFacts, Same;
    if key == "facts" && !v2 { GrowFactsOnly(merged, value.fields, FACT_KEYS, "schema_version"); }
  }

  lemma SettleKeeps(merged: Context)
    ensures Kept(merged, Settle(merged))
  {
    hide Larger;
    SameFields(merged, Settle(merged));
  }

  /** Merging an amendment keeps what was resolved and adds findings only behind those already known. */
  lemma MergeKeeps(base: Context, amendment: Amendment)
    requires Merge(base, amendment).Ok?
    ensures Kept(base, Merge(base, amendment).value)
  {
    hide Kept, Settle, MergeFields, BringsV2;
    var v2 := BringsV2(base, amendment);
    MergeFieldsKeep(base, v2, amendment);
    SettleKeeps(MergeFields(base, v2, amendment).value);
    KeptTransitive(base, MergeFields(base, v2, amendment).value, Merge(base, amendment).value);
  }

  /** Normalizing keeps it too: what is supplied outweighs the defaults. */
  lemma NormalizeKeeps(d: Defaults, s: Context)
    requires Normalize(d, Some(s)).Ok?
    ensures Kept(s, Normalize(d, Some(s)).value)
  {
    hide Extras, Same;
    var n := Normalize(d, Some(s)).value;
    ExtraKeys(s);
    OverlayKeeps(d, s, "schema_version");
    OverlayKeeps(d, s, "finding_ledger");
    assert Get(n, "schema_version") == Get(s, "schema_version") && Get(n, "finding_ledger") == Get(s, "finding_ledger");
    SameLedger(s, n);
    assert Declared(n) == d.declarations + Declared(s);
    forall name | name in Declared(s) && !Same(Declared(s)[name], UNKNOWN)
      ensures name in Declared(n) && Same(Declared(s)[name], Declared(n)[name])
    {
      SameAsItself(Declared(s)[name]);
    }
    if "schema_version" in s { SameAsItself(s["schema_version"]); }
  }

  lemma SameAsItself(v: Json)
    ensures Same(v, v)
  {
  }

  lemma {:induction false} CountGrows(a: seq<Json>, b: seq<Json>)
    requires a <= b
    ensures CountOpen(a) <= CountOpen(b)
    decreases |b|
  {
    hide OpenMandatory;
    if |a| < |b| { CountGrows(a, b[..|b| - 1]); } else { assert a == b; }
  }

  /** In a normalized 2.0.0 context the number of mandatory findings is the ledger's. */
  lemma NormalizedCount(d: Defaults, s: Context)
    requires Normalize(d, Some(s)).Ok? && IsV2(s) && "finding_ledger" in s
    ensures var n := Normalize(d, Some(s)).value;
            "mandatory_findings" in n && n["mandatory_findings"] == Int(CountOpen(Ledger(s))) && Ledger(n) == Ledger(s)
  {
    hide Overlay, Same;
    var n := Normalize(d, Some(s)).value;
    ExtraKeys(s);
    OverlayKeeps(d, s, "finding_ledger");
    assert Get(n, "finding_ledger") == Get(s, "finding_ledger");
    SameLedger(s, n);
  }

  // ----- fields fixed once they are there -----

  /** Fixed fields keep their value once present; a risk keeps its answer once it has one. */
  ghost predicate FieldsKept(fixed: set<string>, before: Context, after: Context) {
    && (forall key :: key in fixed && key in before ==> key in after && Same(before[key], after[key]))
    && (forall key :: key in TRI_STATE && key in before && !Same(before[key], UNKNOWN) ==>
        key in after && Same(before[key], after[key]))
  }

  /** The fixed fields that normalizing does not derive from others. */
  const LASTING := IMMUTABLE - {"mode", "context_mode"}

  lemma FieldsKeptTransitive(fixed: set<string>, a: Context, b: Context, c: Context)
    requires FieldsKept(fixed, a, b) && FieldsKept(fixed, b, c)
    ensures FieldsKept(fixed, a, c)
  {
  }

  lemma FieldsUntouched(fixed: set<string>, a: Context, b: Context)
    requires forall key :: key in fixed + TRI_STATE ==> Get(a, key) == Get(b, key)
    ensures FieldsKept(fixed, a, b)
  {
    hide Same;
    forall key | key in fixed + TRI_STATE && key in a ensures key in b && Same(a[key], b[key]) {
      assert Get(a, key) == Get(b, key);
      SameAsItself(a[key]);
    }
  }

  lemma OtherKeyKept(merged: Context, v2: bool, key: string, value: Json, k: string)
    requires MergeField(merged, v2, key, value).Ok?
    requires k != key && k !in {"blast_radius", "write_chain_components", "mandatory_findings"}
    ensures Get(MergeField(merged, v2, key, value).value, k) == Get(merged, k)
  {
    hide Canon, MergeAmendments, Shrinks, Larger, GrowFacts, Same, MergeDeclarations, MergeFacts, MergeLedger;
    if key == "facts" && !v2 { GrowFactsOnly(merged, value.fields, FACT_KEYS, k); }
  }

  lemma MergedKeyKept(merged: Context, v2: bool, key: string, value: Json)
    requires MergeField(merged, v2, key, value).Ok? && key in IMMUTABLE + TRI_STATE && key in merged
    requires key in TRI_STATE ==> !Same(merged[key], UNKNOWN)
    ensures var after := MergeField(merged, v2, key, value).value; key in after && Same(merged[key], after[key])
  {
    hide Same;
  }

  lemma FixedKeyKept(merged: Context, v2: bool, key: string, value: Json, k: string)
    requires MergeField(merged, v2, key, value).Ok? && k in IMMUTABLE + TRI_STATE && k in merged
    requires k in TRI_STATE ==> !Same(merged[k], UNKNOWN)
    ensures var after := MergeField(merged, v2, key, value).value; k in after && Same(merged[k], after[k])
  {
    hide Same, MergeField;
    if k == key {
      MergedKeyKept(merged, v2, key, value);
    } else {
      OtherKeyKept(merged, v2, key, value, k);
      assert Get(MergeField(merged, v2, key, value).value, k) == Get(merged, k);
      SameAsItself(merged[k]);
    }
  }

  lemma MergeFieldKeepsFields(merged: Context, v2: bool, key: string, value: Json)
    requires MergeField(merged, v2, key, value).Ok?
    ensures FieldsKept(IMMUTABLE, merged, MergeField(merged, v2, key, value).value)
  {
    hide Same, MergeField;
    var after := MergeField(merged, v2, key, value).value;
    forall k | k in IMMUTABLE && k in merged ensures k in after && Same(merged[k], after[k]) {
      FixedKeyKept(merged, v2, key, value, k);
    }
    forall k | k in TRI_STATE && k in merged && !Same(merged[k], UNKNOWN)
      ensures k in after && Same(merged[k], after[k])
    {
      FixedKeyKept(merged, v2, key, value, k);
    }
  }

  lemma {:induction false} MergeFieldsKeepFields(base: Context, v2: bool, amendment: Amendment)
    requires MergeFields(base, v2, amendment).Ok?
    ensures FieldsKept(IMMUTABLE, base, MergeFields(base, v2, amendment).value)
  {
    hide MergeField, FieldsKept;
    if amendment == [] {
      FieldsUntouched(IMMUTABLE, base, base);
    } else {
      var rest, last := amendment[..|amendment| - 1], amendment[|amendment| - 1];
      MergeFieldsKeepFields(base, v2, rest);
      var front := MergeFields(base, v2, rest).value;
      MergeFieldKeepsFields(front, v2, last.0, last.1);
      FieldsKeptTransitive(IMMUTABLE, base, front, MergeField(front, v2, last.0, last.1).value);
    }
  }

  lemma SettleLeaves(merged: Context, key: string)
    requires key !in {"blast_radius", "write_chain_components", "mandatory_findings"}
    ensures Get(Settle(merged), key) == Get(merged, key)
  {
    hide Larger;
  }

  /** A merge changes no fixed field, mode included, and no answered risk. */
  lemma MergeKeepsFields(base: Context, amendment: Amendment)
    requires Merge(base, amendment).Ok?
    ensures FieldsKept(IMMUTABLE, base, Merge(base, amendment).value)
  {
    hide FieldsKept, MergeFields, BringsV2, Settle;
    var merged := MergeFields(base, BringsV2(base, amendment), amendment).value;
    MergeFieldsKeepFields(base, BringsV2(base, amendment), amendment);
    forall key | key in IMMUTABLE + TRI_STATE ensures Get(merged, key) == Get(Settle(merged), key) {
      SettleLeaves(merged, key);
    }
    FieldsUntouched(IMMUTABLE, merged, Settle(merged));
    FieldsKeptTransitive(IMMUTABLE, base, merged, Settle(merged));
  }

  lemma NormalizeKeepsFields(d: Defaults, s: Context)
    requires Normalize(d, Some(s)).Ok?
    ensures FieldsKept(LASTING, s, Normalize(d, Some(s)).value)
  {
    hide Extras, Overlay, FieldsKept, Same;
    var n := Normalize(d, Some(s)).value;
    ExtraKeys(s);
    forall key | key in LASTING + TRI_STATE && key in s ensures key in n && Same(s[key], n[key]) {
      if key == "target_tier" { SuppliedTier(d, s); } else { OverlayKeeps(d, s, key); }
      assert Get(n, key) == Get(s, key);
      SameAsItself(s[key]);
    }
    FieldsKeptFrom(LASTING, s, n);
  }

  lemma FieldsKeptFrom(fixed: set<string>, a: Context, b: Context)
    requires forall key :: key in fixed + TRI_STATE && key in a ==> key in b && Same(a[key], b[key])
    ensures FieldsKept(fixed, a, b)
  {
  }

  lemma SuppliedTier(d: Defaults, s: Context)
    ensures "target_tier" in s ==> Get(Overlay(d, s), "target_tier") == Get(s, "target_tier")
    ensures "mode" in s ==> Get(Overlay(d, s), "mode") == Get(s, "mode")
  {
  }

  // ----- an amendment is taken in -----

  predicate DistinctKeys(amendment: Amendment) {
    forall i, j :: 0 <= i < j < |amendment| ==> amendment[i].0 != amendment[j].0
  }

  /** What one field of an amendment comes to in the merged context. */
  ghost predicate TakenIn(after: Context, v2: bool, key: string, value: Json) {
    if key == "declarations" then
      value.Obj? && forall name :: name in value.fields ==>
        name in Declared(after) && Declared(after)[name] == value.fields[name]
    else if key == "finding_ledger" then
      v2 ==> value.Arr? && forall item :: item in value.items ==> item.Obj? && Holds(Ledger(after), item)
    else if key == "facts" then
      v2 ==> value.Obj? && forall name :: name in value.fields ==>
        name in Facts(after) && Facts(after)[name] == value.fields[name]
    else if key == "amendments" then
      value.Arr? && forall item :: item in value.items ==> Holds(Amendments(after), item)
    else if key in {"blast_radius", "write_chain_components", "mandatory_findings"} then true
    else Get(after, key) == Some(value)
  }

  function Facts(c: Context): map<string, Json> { if "facts" in c && c["facts"].Obj? then c["facts"].fields else map[] }

  function Amendments(c: Context): seq<Json> {
    if "amendments" in c && c["amendments"].Arr? then c["amendments"].items else []
  }

  lemma {:induction false} AmendmentsTakeIn(existing: seq<Json>, value: seq<Json>)
    ensures forall item :: item in value ==> Holds(MergeAmendments(existing, value), item)
  {
    hide Same;
    if value != [] {
      var front, item := value[..|value| - 1], value[|value| - 1];
      AmendmentsTakeIn(existing, front);
      var before, after := MergeAmendments(existing, front), MergeAmendments(existing, value);
      assert before <= after && value == front + [item];
      forall x | x in front ensures Holds(after, x) {
        var y :| y in before && Same(y, x);
        assert y in after;
      }
      SameAsItself(item);
      if after != before { assert item in after; }
    }
  }

  /** The list has the item, as comparison sees it. */
  ghost predicate Holds(ledger: seq<Json>, item: Json) { exists x :: x in ledger && Same(x, item) }

  /** What is filed is in the ledger. */
  ghost predicate AllFiled(filed: Filing) { forall key :: key in filed.known ==> filed.known[key] in filed.items }

  lemma {:induction false} FiledIn(ledger: seq<Json>)
    ensures AllFiled(FiledAs(ledger))
  {
    if ledger != [] {
      var front := ledger[..|ledger| - 1];
      assert ledger == front + [ledger[|ledger| - 1]];
      FiledIn(front);
    }
  }

  lemma {:induction false} LedgerTakesIn(filed: Filing, value: seq<Json>)
    requires AllFiled(filed) && MergeLedger(filed, value).Ok?
    ensures AllFiled(MergeLedger(filed, value).value)
    ensures forall item :: item in value ==> item.Obj? && Holds(MergeLedger(filed, value).value.items, item)
  {
    hide Same, FindingId;
    if value != [] {
      var front, item := value[..|value| - 1], value[|value| - 1];
      LedgerTakesIn(filed, front);
      var before, after := MergeLedger(filed, front).value.items, MergeLedger(filed, value).value.items;
      assert before <= after;
      assert value == front + [item];
      forall x | x in front ensures Holds(after, x) {
        var y :| y in before && Same(y, x);
        assert y in after;
      }
      SameAsItself(item);
      if after != before { assert item in after; }
    }
  }

  /** No two known findings are filed alike. */
  ghost predicate DistinctlyFiled(ledger: seq<Json>) {
    forall i, j :: 0 <= i < j < |ledger| && ledger[i].Obj? && ledger[j].Obj? ==>
      FindingId(ledger[i], "None") != FindingId(ledger[j], "None")
  }

  lemma {:induction false} FiledUnder(ledger: seq<Json>, i: nat)
    requires DistinctlyFiled(ledger) && i < |ledger| && ledger[i].Obj?
    ensures FindingId(ledger[i], "None") in ById(ledger) && ById(ledger)[FindingId(ledger[i], "None")] == ledger[i]
  {
    if i < |ledger| - 1 { FiledUnder(ledger[..|ledger| - 1], i); }
  }

  lemma SameIds(a: Json, b: Json)
    requires Same(a, b) && a.Obj? && b.Obj?
    ensures "id" in a.fields <==> "id" in b.fields
  {
    assert Canon(a).fields.Keys == a.fields.Keys && Canon(b).fields.Keys == b.fields.Keys;
  }

  lemma {:induction false} FiledKey(ledger: seq<Json>, key: FindingKey)
    requires key in ById(ledger)
    ensures ById(ledger)[key].Obj? && FindingId(ById(ledger)[key], "None") == key
  {
    if !(ledger[|ledger| - 1].Obj? && FindingId(ledger[|ledger| - 1], "None") == key) {
      FiledKey(ledger[..|ledger| - 1], key);
    }
  }

  /** A known finding reported again changes nothing exactly when it has an id; without one it is never recognized. */
  lemma ReportedAgainExactly(ledger: seq<Json>, item: Json)
    requires DistinctlyFiled(ledger) && item in ledger && item.Obj?
    ensures MergeLedger(FiledAs(ledger), [item]) == Ok(FiledAs(ledger)) <==> "id" in item.fields
  {
    hide ById, Same;
    var i :| 0 <= i < |ledger| && ledger[i] == item;
    FiledUnder(ledger, i);
    SameAsItself(item);
    assert [item][..0] == [];
    assert MergeLedger(FiledAs(ledger), [item][..0]) == Ok(FiledAs(ledger));
    if "id" !in item.fields && Text("") in ById(ledger) {
      FiledKey(ledger, Text(""));
      if Same(ById(ledger)[Text("")], item) { SameIds(ById(ledger)[Text("")], item); }
    }
  }

  lemma FieldTakenIn(merged: Context, v2: bool, key: string, value: Json)
    requires MergeField(merged, v2, key, value).Ok?
    ensures TakenIn(MergeField(merged, v2, key, value).value, v2, key, value)
  {
    hide Same, ById, MergeLedger, MergeAmendments, Holds, GrowFacts, GrowFact;
    if key == "finding_ledger" && v2 {
      FiledIn(Ledger(merged));
      LedgerTakesIn(FiledAs(Ledger(merged)), value.items);
    }
    if key == "amendments" { AmendmentsTakeIn(Amendments(merged), value.items); }
  }

  lemma TakenInStays(before: Context, after: Context, v2: bool, key: string, value: Json)
    requires TakenIn(before, v2, key, value)
    requires key !in {"blast_radius", "write_chain_components", "mandatory_findings"} ==>
      Get(after, key) == Get(before, key)
    ensures TakenIn(after, v2, key, value)
  {
    hide Holds;
  }

  /** Every field of an amendment with distinct keys is found in the merged context. */
  lemma {:induction false} FieldsTakenIn(base: Context, v2: bool, amendment: Amendment, k: nat)
    requires MergeFields(base, v2, amendment).Ok? && DistinctKeys(amendment) && k < |amendment|
    ensures TakenIn(MergeFields(base, v2, amendment).value, v2, amendment[k].0, amendment[k].1)
    decreases |amendment|
  {
    hide MergeField, TakenIn;
    var rest, last := amendment[..|amendment| - 1], amendment[|amendment| - 1];
    var front := MergeFields(base, v2, rest).value;
    if k == |rest| {
      FieldTakenIn(front, v2, last.0, last.1);
    } else {
      FieldsTakenIn(base, v2, rest, k);
      if amendment[k].0 !in {"blast_radius", "write_chain_components", "mandatory_findings"} {
        OtherKeyKept(front, v2, last.0, last.1, amendment[k].0);
      }
      TakenInStays(front, MergeField(front, v2, last.0, last.1).value, v2, amendment[k].0, amendment[k].1);
    }
  }

  lemma MergeTakesIn(base: Context, amendment: Amendment, k: nat)
    requires Merge(base, amendment).Ok? && DistinctKeys(amendment) && k < |amendment|
    ensures TakenIn(Merge(base, amendment).value, BringsV2(base, amendment), amendment[k].0, amendment[k].1)
  {
    hide MergeFields, TakenIn, Settle, BringsV2;
    var v2 := BringsV2(base, amendment);
    var merged := MergeFields(base, v2, amendment).value;
    FieldsTakenIn(base, v2, amendment, k);
    if amendment[k].0 !in {"blast_radius", "write_chain_components", "mandatory_findings"} {
      SettleLeaves(merged, amendment[k].0);
    }
    TakenInStays(merged, Settle(merged), v2, amendment[k].0, amendment[k].1);
  }

  // ----- the mode after a replan -----

  /** What an amendment says of a key; of several entries the last. */
  function Given(amendment: Amendment, key: string): Option<Json> {
    if amendment == [] then None
    else if amendment[|amendment| - 1].0 == key then Some(amendment[|amendment| - 1].1)
    else Given(amendment[..|amendment| - 1], key)
  }

  lemma {:induction false} MergedFixed(base: Context, v2: bool, amendment: Amendment, key: string)
    requires MergeFields(base, v2, amendment).Ok? && key in IMMUTABLE
    ensures Get(MergeFields(base, v2, amendment).value, key) == if Given(amendment, key).Some?
                                                                then Given(amendment, key) else Get(base, key)
  {
    hide MergeField;
    if amendment != [] {
      var rest, last := amendment[..|amendment| - 1], amendment[|amendment| - 1];
      MergedFixed(base, v2, rest, key);
      var front := MergeFields(base, v2, rest).value;
      if last.0 == key {
        FieldTakenIn(front, v2, last.0, last.1);
      } else {
        OtherKeyKept(front, v2, last.0, last.1, key);
      }
    }
  }

  lemma LastBrings(base: Context, amendment: Amendment)
    requires amendment != [] && BringsV2(base, amendment) && !BringsV2(base, amendment[..|amendment| - 1])
    ensures amendment[|amendment| - 1] == ("schema_version", V2)
  {
    var rest := amendment[..|amendment| - 1];
    forall i | 0 <= i < |rest| ensures amendment[i] != ("schema_version", V2) { assert rest[i] == amendment[i]; }
    var i :| 0 <= i < |amendment| && amendment[i] == ("schema_version", V2);
  }

  lemma {:induction false} MergedVersion(base: Context, v2: bool, amendment: Amendment)
    requires MergeFields(base, v2, amendment).Ok? && BringsV2(base, amendment)
    ensures IsV2(MergeFields(base, v2, amendment).value)
  {
    hide MergeField;
    if amendment != [] {
      var rest, last := amendment[..|amendment| - 1], amendment[|amendment| - 1];
      var front := MergeFields(base, v2, rest).value;
      MergeFieldKeepsFields(front, v2, last.0, last.1);
      if BringsV2(base, rest) {
        MergedVersion(base, v2, rest);
      } else {
        LastBrings(base, amendment);
        FieldTakenIn(front, v2, last.0, last.1);
      }
    }
  }

  /**
   * The execution profile after a replan: the one the context has, else the one the amendment brings; null counts as
   * none.
   */
  function ProfileAfter(base: Context, amendment: Amendment): Option<Json> {
    var profile := if "execution_profile" in base then Some(base["execution_profile"])
                   else Given(amendment, "execution_profile");
    if BringsV2(base, amendment) && profile.Some? && profile.value != Null then profile else None
  }

  lemma MergedProfile(base: Context, amendment: Amendment)
    requires Merge(base, amendment).Ok?
    ensures var merged := Merge(base, amendment).value;
            var told := Get(merged, "execution_profile");
            var profile := ProfileAfter(base, amendment);
            && (IsV2(merged) <==> BringsV2(base, amendment))
            && (IsV2(merged) ==> (profile.Some? <==> told.Some? && told.value != Null))
            && (IsV2(merged) && profile.Some? ==> Same(profile.value, told.value))
  {
    hide MergeFields, BringsV2, Settle, Given;
    var v2 := BringsV2(base, amendment);
    var fields := MergeFields(base, v2, amendment).value;
    MergeFieldsKeep(base, v2, amendment);
    if v2 { MergedVersion(base, v2, amendment); }
    SettleLeaves(fields, "schema_version");
    SettleLeaves(fields, "execution_profile");
    assert Get(Merge(base, amendment).value, "schema_version") == Get(fields, "schema_version");
    MergedFixed(base, v2, amendment, "execution_profile");
    MergeFieldsKeepFields(base, v2, amendment);
    if Given(amendment, "execution_profile").Some? { SameAsItself(Given(amendment, "execution_profile").value); }
    if "execution_profile" in base {
      assert Same(base["execution_profile"], fields["execution_profile"]);
      SameNull(base["execution_profile"], fields["execution_profile"]);
    }
  }

  lemma SameNull(a: Json, b: Json)
    requires Same(a, b)
    ensures a == Null <==> b == Null
  {
  }

  lemma SuppliedMode(d: Defaults, s: Context)
    requires Normalize(d, Some(s)).Ok? && "mode" in s
    ensures var n := Normalize(d, Some(s)).value;
            && "mode" in n
            && n["mode"] == if IsV2(s) && "execution_profile" in s && s["execution_profile"] != Null
                            then s["execution_profile"] else s["mode"]
  {
    hide Overlay;
    SuppliedTier(d, s);
    assert Get(Overlay(d, s), "mode") == Get(s, "mode");
  }

  /**
   * A context's mode survives a replan exactly when the replan leaves no execution profile in force, or one that says
   * the same. A profile is in force when context or amendment are 2.0.0, and it is the context's own, else the
   * amendment's.
   */
  lemma ModeKeptExactly(d: Defaults, base: Context, amendment: Amendment)
    requires "mode" in base && Merge(base, amendment).Ok? && Normalize(d, Some(Merge(base, amendment).value)).Ok?
    ensures var n := Normalize(d, Some(Merge(base, amendment).value)).value;
            var profile := ProfileAfter(base, amendment);
            "mode" in n && (Same(base["mode"], n["mode"]) <==> (profile.Some? ==> Same(base["mode"], profile.value)))
  {
    hide Merge, Normalize, Canon, ProfileAfter, IsV2, BringsV2;
    var merged := Merge(base, amendment).value;
    MergeKeepsFields(base, amendment);
    assert "mode" in merged && Same(base["mode"], merged["mode"]);
    SuppliedMode(d, merged);
    MergedProfile(base, amendment);
    assert !BringsV2(base, amendment) ==> ProfileAfter(base, amendment) == None by { NoProfile(base, amendment); }
  }

  lemma NoProfile(base: Context, amendment: Amendment)
    ensures !BringsV2(base, amendment) ==> ProfileAfter(base, amendment) == None
  {
  }
}
