# Verification model of the VHEATM control plane

The control plane plans software audits, runs them and keeps their evidence. This project models its five cores in Dafny
and proves what they are for.

- **Names.** `PythonAst`, `ProbeSteps` and `StructuralProbe` turn a syntax tree into scopes, bindings, calls and imports, and
  compare the visitor with facts read off the syntax. `PythonLinker` resolves callees backwards through aliases, imports and scopes;
  `LinkerIndex` builds its indexes. `LinkerEvidence` shows that every candidate carries a proof, `LinkerForward` where backward
  resolution agrees with what has taken effect in the scope and where it does not. `ExecutionOrder` is the order in which a run
  of the syntax binds names and reads callees, `ExecutionRecords` compares it with the visitor's records, and `LinkerTraces`
  brings it to the resolver: what has taken effect at a call is read off the runs, not off the positions. The inputs on which
  resolver and execution part are in `LinkerWitnesses` and `OrderWitnesses`. `SourceRoots` maps files to import names. The
  resolver approximates section 4.2.2 "Resolution of names" of the Python Language Reference; the order of evaluation is the one
  of its chapters 6 to 8. The resolver's functions end on every probe: the measure is the scope's place in the lookup tree, then
  whether an enclosing scope is being asked, then the position.
- **Sessions.** `Lifecycle` is the transition table and its replay. `SessionStore` is the journaled store of sessions with
  files written ahead of the transaction; `SessionRuns` says what every run keeps, refusals, retries and crashes included.
- **Routing.** `ModuleGraph`, `Ordering`, `RouteOrder` and `ModuleRouter` find cycles, close the selection under dependencies,
  order it, list conflicts and charge budgets.
- **Provenance.** `Provenance` holds the records, their checks and their additions, `ProvenanceRegistry` the registry object,
  `ProvenanceRuns` what any sequence of additions keeps, `ProvenanceReload` what reading a file back yields and
  `ProvenanceSave` the protocol of concurrent clients.
- **Plans and completion.** `Activation`, `ActivationGrammar` and `ActivationParser` are the activation language,
  `AuditContext` the contexts, `Evaluator` and `PlanChains` the plans and their revisions, `ModuleRuns`, `GateDerivation` and
  `CycleStatus` the way from typed runs to a complete audit cycle.

## How the model is read

- A digest is the content it was computed from, a constructor around it. So digests are injective, none is the zero hash or the
  empty text, and a digest can contain others. Lineage is nevertheless shown acyclic by the order of insertion, and alias
  resolution by scope rank and position, not by the shape of digests.
- Code that changes an object in place is a class here: its methods are proved against functions on the object's state, and the
  theorems are about those functions. Each database transaction is one step; a crash step keeps the files an interrupted call
  wrote and none of its table changes.
- Times, regular-expression verdicts on hashes and the form of a bundle root come with the value that is checked.
- Sets stand for lists whose order nothing reads: targets, resolved references, unknown references.

## What does not hold as written

The rows below hold the condition of each. There is a concrete witness for all but the second and the sixth, which break nothing, and
the last, where every finding without an id is one.

- Re-attaching a plan moves the session row back to the event of its first attachment; unless that event is still the last, the
  session can no longer be resumed (session_store.py 390-409).
- An append under a used key is answered without comparing the target state (session_store.py 328-341).
- A blank actor is refused after the record was stored, which leaves it outside the journal for good (provenance.py 439-453,
  355-358); an unreadable time is stored as well and only refused when the journal is next validated.
- A saved registry cannot be read back when a claim's id sorts before a parent's or before the claim it supersedes
  (provenance.py 317-318, 548).
- A method of a class nested in a class is given the outer class as lookup parent, although docs/structural-probes.md says that
  function-like scopes skip the class namespace (structural_probe.py 358-362).
- The alias branch of suffix resolution does not test the state (python_linker.py 533); it is harmless because unresolved results
  of indexed imports carry no targets.
- A replan that names an execution profile for the first time changes the immutable mode (evaluator.py 91-94, 293-310).
- A candidate can be wrong. The resolver takes the last binder before the call by position (python_linker.py 458-461), which need
  not be the one in force: a default, a base or an annotation runs before its definition is bound (structural_probe.py 517-540),
  the test of a conditional expression before the value in front of it (643-648), a walrus in a comprehension is recorded in the
  comprehension and binds outside (621-623), and a loop or a handler may have bound the name again. An unbound local of a class
  body is answered from the enclosing functions, while section 4.2.2 of the Python Language Reference has it read from the global
  namespace (python_linker.py 469-470); and a text can lead into a loaded submodule where the resolver takes the package's own
  symbol (python_linker.py 545-559). `Misled` is the exact condition. "Right" means the object the callee holds together with the
  bindings that put it there, which is what a candidate's chain claims to prove: two bindings may give one object by chance
  (`TwoBindings`).
- A call can be missed: its last binder is conditional, a `del` or a bare annotation, an import of another path of the same
  package (python_linker.py 512-513), or an assignment whose own right-hand side makes the call, as in `f = f()`. `Parts` is the
  exact condition, these misses and the wrong candidates together.
- A finding without an id is appended again each time it is reported (evaluator.py 346-356).

## Model

| member | source | states |
|---|---|---|
| PythonLinker.FindNonlocal | src/vheatm_control/python_linker.py:307-321 | The scope found for a `nonlocal` name is a strict lookup ancestor of the asking scope and never the module |
| LinkerEvidence.EventIgnoresVisited | src/vheatm_control/python_linker.py:324-401 | Whatever stands later in the (scope rank, position) order may be in the visited set: the answer for an event is the one for the empty set, and never an alias cycle |
| LinkerEvidence.NameIgnoresVisited | src/vheatm_control/python_linker.py:404-491 | The visited argument never changes the answer for a name |
| LinkerEvidence.AliasCycleUnreachable | src/vheatm_control/python_linker.py:324-334 | Neither a recorded binding nor a call is ever answered `alias_cycle` |
| LinkerEvidence.CandidateFromUnresolvedRoot | src/vheatm_control/python_linker.py:494-568 | The alias branch that does not test the state turns a root that is no candidate into one exactly in alias mode, for an unresolved root with nothing left of the text and a single module target |
| LinkerEvidence.EventJustified | src/vheatm_control/python_linker.py:324-401 | An unresolved event carries no target; a candidate event carries one, and its chain starts at the event and proves the target by replay |
| LinkerEvidence.NameJustified | src/vheatm_control/python_linker.py:404-491 | The same for names; the first event of a candidate's chain binds that name in an outer scope or before the position |
| LinkerEvidence.TextJustified | src/vheatm_control/python_linker.py:571-590 | The same for dotted texts: the chain binds the root and the text denotes the target from there |
| LinkerEvidence.ChainShape | src/vheatm_control/python_linker.py:341-392 | Every event of a proved chain is an unconditional plain alias that hops outwards or backwards, and the last one an unconditional import, def or class with one target |
| LinkerEvidence.CandidateCallProved | src/vheatm_control/python_linker.py:593-626 | A candidate call has exactly one target, a symbol and never a module, proved by its chain without asking the resolver; every event of the chain is unconditional |
| LinkerEvidence.CandidateBindingProved | src/vheatm_control/python_linker.py:324-401 | A candidate binding has exactly one target, proved by a chain that starts at the binding |
| LinkerForward.TextForward | src/vheatm_control/python_linker.py:494-590 | For any text and position, and any events of the scope that have taken effect, in whatever order: when either the backward answer or what the text then stands for is known, both are the same value by the same bindings exactly unless resolver and execution part along the text's aliases, which is read off the index and the list of those events |
| LinkerForward.CallForward | src/vheatm_control/python_linker.py:593-626 | Whatever has taken effect in a scope: a call whose resolver answer is a candidate or whose callee stands for a known definition gets the right answer exactly unless the two part along the callee's aliases |
| LinkerForward.CandidateRightExactly | src/vheatm_control/python_linker.py:404-568 | A candidate names the object its callee holds, by the bindings that put it there, exactly unless at the call or at an alias hop the last binder by position is not the one in force, or the hops end at an unbound local of a class body that a scope other than the module answers, or a text goes on into a loaded submodule |
| LinkerTraces.CodeForward | src/vheatm_control/python_linker.py:593-626 | Both conditions for every moment at which a run of a scope's own syntax reads the callee of a call, with what has taken effect by then read off the run |
| LinkerTraces.DefinitionPicked | src/vheatm_control/python_linker.py:458-461 | Where the two orders agree: in a module whose statements are laid out one after the other, when the last statement above the call that binds the name defines it once and under no control, and neither the statements between nor the call's own bind it, the resolver picks that definition and every run that has come to the call has it in force |
| LinkerTraces.DefinitionReached | src/vheatm_control/python_linker.py:593-626 | A call of such a name by itself is a candidate for that definition, and that is what it reaches |
| ExecutionRecords.ActsFit | src/vheatm_control/structural_probe.py:488-787 | Every run of any syntax, in Python's order of evaluation, takes every binding that the visitor records for its scope under no control, and none that the visitor does not record, save a walrus inside a comprehension and the end of a handler's name |
| LinkerWitnesses.ClassLocalCounterexample | src/vheatm_control/python_linker.py:469-491 | A class body inside a function that calls a name before binding it: execution reaches the module's function, the resolver names the enclosing function's |
| LinkerWitnesses.ImportPathCounterexample | src/vheatm_control/python_linker.py:507-513 | After `import p.b; import p.c` a call of `p.b.f` finds its function, and the resolver answers `import_pattern_mismatch` |
| LinkerWitnesses.SubmoduleCounterexample | src/vheatm_control/python_linker.py:545-559 | After `import p.b; import p` the name `p.b` is the submodule, and the resolver names the package's own symbol `b` |
| LinkerWitnesses.AnnotationCounterexample | src/vheatm_control/python_linker.py:376-379 | A bare annotation behind a definition: the name still holds the function, and the resolver answers unresolved |
| LinkerWitnesses.TwoBindings | src/vheatm_control/python_linker.py:458-461 | A loop that calls `f()` and then imports the same `f` again: in its second round the candidate is the object the name holds, but its chain is not how the name came to hold it |
| OrderWitnesses.DefaultCounterexample | src/vheatm_control/structural_probe.py:517-540 | `from lib import f` and `def f(x=f()): pass`: a run of this syntax calls `lib.f` in the default, and the candidate is the new function |
| OrderWitnesses.TestCounterexample | src/vheatm_control/structural_probe.py:643-648 | `f() if (f := g) else 0` behind `def g` and `def f`: the call reaches `g`, and the candidate is the old `f` |
| OrderWitnesses.AssignmentCounterexample | src/vheatm_control/structural_probe.py:596-601 | `f = f()` behind `def f`: the call reaches the function, and the resolver answers unresolved |
| OrderWitnesses.ComprehensionCounterexample | src/vheatm_control/structural_probe.py:404-431 | `[(f := g) for _ in xs]` and then `f()`: the walrus is recorded in the comprehension, the call reaches `g`, and the candidate is the old `f` |
| LinkerIndex.ImportEdge | src/vheatm_control/python_linker.py:169-250 | An import binding carries targets only when its state is internal or ambiguous, which the evidence of candidates rests on |
| LinkerIndex.SortEvents | src/vheatm_control/python_linker.py:804-804 | The sorted list has the same events, by position and then by the name of their kind, and is in position order |
| LinkerIndex.IndexEvents | src/vheatm_control/python_linker.py:805-807 | The index holds under every (scope, name) exactly the events that bind the name there, in order |
| LinkerIndex.ScanImports | src/vheatm_control/python_linker.py:746-760 | The loop over the imports indexes every binding, later ones replacing earlier ones, and lists under every scope exactly the positions of its wildcard imports, in order |
| LinkerIndex.BuildContext | src/vheatm_control/python_linker.py:743-814 | The context built from a probe's facts holds under every scope and name exactly the events of the binding facts, sorted, under every scope its wildcard positions, and meets what the resolver's theorems ask for |
| LinkerIndex.BuiltComparable | src/vheatm_control/python_linker.py:743-814 | A scope of a built context without wildcard imports, `global` and `nonlocal` meets what the forward theorems ask for, whatever takes effect in it |
| SourceRoots.ValidateSourceRoots | src/vheatm_control/python_linker.py:66-77 | Accepts exactly the non-empty lists of roots of which none is the beginning of another |
| SourceRoots.OneRoot | src/vheatm_control/python_linker.py:80-103 | With accepted roots a file has an import name under one root at most, so taking the first match loses nothing |
| SourceRoots.NameLeadsBack | src/vheatm_control/python_linker.py:89-103 | The import name and the root determine the file |
| SourceRoots.CollisionExactly | src/vheatm_control/python_linker.py:89-103 | Two files of a root share an import name exactly as a package and the module beside it |
| StructuralProbe.FactCollector.VisitModule | src/vheatm_control/structural_probe.py:315-431 | For every syntax tree the collector ends with both stacks as they began, and every scope, binding, call and import is, field by field, the one the syntax determines; the scopes form a lookup tree under `<module>`, and `local_names` is exactly what is bound there as local |
| ProbeSteps.FactsDetermined | src/vheatm_control/structural_probe.py:315-394 | That determines the facts: two lists of facts that fit one syntax tree are equal, ids and their numbers included |
| StructuralProbe.FactCollector.Visit | src/vheatm_control/structural_probe.py:488-787 | Visiting any node adds exactly the records the node's syntax predicts for the scope and control around it, with name, kind, value, flags, target, position and control, and restores both stacks |
| StructuralProbe.FactCollector.VisitFunction | src/vheatm_control/structural_probe.py:517-540 | Decorators, defaults and annotations are recorded around a function, parameters and body inside it |
| StructuralProbe.FactCollector.VisitComprehension | src/vheatm_control/structural_probe.py:733-757 | The first iterable of a comprehension is visited around its scope, everything else inside it |
| StructuralProbe.FactCollector.RecordBinding | src/vheatm_control/structural_probe.py:404-431 | The whole new state: one record with the scope's id, the declaration the scope gives the name and the control stack, and the name local to the scope exactly when that declaration is local |
| ProbeSteps.ScopeEntered | src/vheatm_control/structural_probe.py:364-386 | A new scope has an id never used before and keeps everything the visitor maintains |
| ProbeSteps.FunctionLooksInClassExactly | src/vheatm_control/structural_probe.py:358-362 | In the facts of any module a function-like scope looks its names up in a class exactly when the class around it is itself nested directly in a class |
| ProbeSteps.NestedClassCounterexample | src/vheatm_control/structural_probe.py:358-362 | Visiting `class A` around `class B` around `def m` gives the method class `A` as its lookup parent |
| Lifecycle.AuditLifecycle.Transition | src/vheatm_control/lifecycle.py:52-82 | A refused transition changes nothing; an accepted one appends one numbered event along the table; refused exactly for a target outside the table, an actor or reason of nothing but Unicode spaces, or a malformed time |
| Lifecycle.FromDocument | src/vheatm_control/lifecycle.py:93-127 | Replay accepts exactly the documents a lifecycle can have written, and gives them back unchanged |
| Lifecycle.AttestedIsFinal | src/vheatm_control/lifecycle.py:14-23 | In every replayed history attestation is last and comes right after completion |
| SessionStore.EventWithKey | src/vheatm_control/session_store.py:328-341 | The event found under an idempotency key has that key, and none is found exactly when none has it |
| SessionStore.Store.Create | src/vheatm_control/session_store.py:209-270 | Creating a session, failed attempts rolled back with their files kept, changes files and tables as the transaction says |
| SessionStore.Store.Append | src/vheatm_control/session_store.py:308-362 | Appending an event changes files and tables as the transaction says, on every error path included |
| SessionStore.Store.Attach | src/vheatm_control/session_store.py:364-414 | Attaching a plan, its idempotent branch included, changes files and tables as the transaction says |
| SessionStore.Store.AssertReplay | src/vheatm_control/session_store.py:466-501 | The replay loop accepts exactly the journals that are chained from the zero hash and end in their row |
| SessionStore.Store.ResumeSession | src/vheatm_control/session_store.py:503-515 | Resuming answers as specified and changes nothing |
| SessionStore.Store.PutObjectTx | src/vheatm_control/session_store.py:166-184 | Storing an object writes the file before the index row and detects a collision in either |
| SessionRuns.RunSound | src/vheatm_control/session_store.py:209-414 | Over any sequence of calls, refusals, retries and crashes between a file write and its commit, replay accepts every session, its snapshot is the replayed one and every object row has a file with the same content, as long as no attachment goes through an older event |
| SessionRuns.EveryRunResumes | src/vheatm_control/session_store.py:503-515 | From the empty store every session of such a run resumes with the replayed snapshot, and every object row has its file |
| SessionRuns.SoundResumes | src/vheatm_control/session_store.py:190-207 | In a sound store every session resumes and every indexed object reads back |
| SessionRuns.CrashSound | src/vheatm_control/session_store.py:140-184 | A crash after the files of any call were written leaves the store sound |
| SessionRuns.AttachSoundExactly | src/vheatm_control/session_store.py:364-414 | A successful attachment keeps the store sound exactly when it does not re-attach through an event that is no longer the last |
| SessionRuns.OldReattachBreaks | src/vheatm_control/session_store.py:390-409 | After such a re-attachment replay refuses the session and every new event is refused |
| SessionRuns.ReattachCounterexample | src/vheatm_control/session_store.py:390-409 | Create, attach, append, attach again: all four calls succeed and the session can no longer be resumed |
| SessionRuns.StepEvolves | src/vheatm_control/session_store.py:209-420 | No call, safe or not, drops a session or a journal entry, lowers a plan revision, or moves a state outside the transition table |
| SessionRuns.RunEvolves | src/vheatm_control/session_store.py:209-420 | Over any run every journal keeps its earlier entries as a prefix and plan revisions never fall |
| SessionRuns.UsedKey | src/vheatm_control/session_store.py:328-341 | A call under a used key changes nothing, and is answered exactly when kind, actor and data are the recorded ones; the target state is not compared |
| SessionRuns.RetryAnswered | src/vheatm_control/session_store.py:308-362 | A successful append or transition repeated at any later time changes nothing and gets its first answer |
| SessionRuns.RetriesChangeNothing | src/vheatm_control/session_store.py:328-361 | Exactly once: a run with verbatim repeats of earlier successful calls put in anywhere ends in the same store as the run without them |
| SessionRuns.HeadHashCommits | src/vheatm_control/session_store.py:466-493 | Two journals that replay and end in the same hash belong to the same session and are equal event by event |
| SessionRuns.StepGrowsFiles | src/vheatm_control/session_store.py:140-164 | Files are only added, each under the id of its content |
| ModuleGraph.FindCycle | src/vheatm_control/module_router.py:75-101 | A reported cycle is a closed path of graph edges, and none is reported exactly when the graph is acyclic |
| ModuleGraph.OrderedAcyclic | src/vheatm_control/module_router.py:75-101 | A duplicate-free order of all nodes with dependencies first leaves no closed path |
| RouteOrder.TopologicalOrder | src/vheatm_control/module_router.py:359-386 | The order lists the selection once each with every selected dependency before its dependents; it fails only on a cycle; with ranked dependencies it is the reference order, trees of the sorted selection with repeats dropped |
| RouteOrder.Sorter.Visit | src/vheatm_control/module_router.py:371-382 | One visit adds the first occurrences of the node's dependency tree and nothing else |
| RouteOrder.ListingForgotten | src/vheatm_control/module_router.py:364-385 | Two listings of one selection are sorted alike, so the order does not depend on how a set is walked |
| Ordering.SortedUnique | src/vheatm_control/module_router.py:364-369 | The tie-break is total: two sorted lists of the same texts are the same list |
| ModuleRouter.DependencyClosure | src/vheatm_control/module_router.py:446-453 | The worklist ends in the least dependency-closed set around the gate-selected modules, from any listing of them |
| ModuleRouter.LeastClosedUnique | src/vheatm_control/module_router.py:446-453 | So the closure does not depend on the order of the worklist |
| ModuleRouter.ValidateGraph | src/vheatm_control/module_router.py:274-339 | No issue is reported exactly when dependencies are known, conflicts symmetric, every gate has one owner at most, every artifact input finds a producer where required and a schema it accepts, the dependency graph is acyclic and the gates to be covered are covered |
| ModuleRouter.OwnedOnce | src/vheatm_control/module_router.py:274-288 | At most one owner per gate, counted gate by gate, is the same as no two modules sharing a gate |
| ModuleRouter.ListConflicts | src/vheatm_control/module_router.py:457-461 | The listed pairs are exactly the clashes seen from their smaller side |
| ModuleRouter.NoConflictListed | src/vheatm_control/module_router.py:301-305 | With symmetric declarations an empty list means that no two distinct routed modules conflict |
| ModuleRouter.DiscloseAll | src/vheatm_control/module_router.py:491-517 | Every phase reports its covering modules, their tokens and the headroom, and exceeding is noticed for any phase |
| ModuleRouter.BlockedExactly | src/vheatm_control/module_router.py:526-527 | Completion is unblocked exactly when no gate is unknown, no module waits on one, no two routed modules clash and every phase keeps the headroom its disclosure share leaves |
| ModuleRouter.RouteModules | src/vheatm_control/module_router.py:389-527 | On known dependencies an acyclic graph always routes, to a well-ordered least closed set; unblocked means what it should |
| ModuleRouter.ValidateAndRoute | src/vheatm_control/module_router.py:104-527 | Routing succeeds exactly on repositories without issues, never meets its cycle error there, and its order is a reference order of the least closed set |
| ModuleRouter.OneOrder | src/vheatm_control/module_router.py:346-453 | There is only one such order: two routes of a repository under the same gates have equal orders, whatever the listings of modules, gates and worklist |
| Provenance.IntactAdd | src/vheatm_control/provenance.py:427-530 | Every addition, refused ones included, keeps records under the ids of their content, every check they once passed, and an order of the claims with parents and superseded claims first |
| Provenance.AdmittedResolved | src/vheatm_control/provenance.py:455-530 | Every reference of every record names a record of the right kind |
| Provenance.AdmittedMeans | src/vheatm_control/provenance.py:97-171 | Untrusted sources on file are tainted, receipts have sources and a method, verified claims have sources, unknown claims have no confidence |
| Provenance.ConsistentMore | src/vheatm_control/provenance.py:385-422 | A journal with one more event is consistent exactly when it was, the event fits its end and its record is new |
| ProvenanceRegistry.Registry.AddSource | src/vheatm_control/provenance.py:439-453 | Adding a source changes maps and journal as specified, on every refusal too, and keeps the registry intact |
| ProvenanceRegistry.Registry.AddValidationReceipt | src/vheatm_control/provenance.py:455-472 | The same for receipts |
| ProvenanceRegistry.Registry.AddClaim | src/vheatm_control/provenance.py:498-530 | The same for claims, lineage search included |
| ProvenanceRegistry.Registry.VisitLineage | src/vheatm_control/provenance.py:488-496 | The depth-first search over the lineage ends and never finds a cycle in a registry that additions built |
| ProvenanceRegistry.Registry.ValidateClaimLineage | src/vheatm_control/provenance.py:474-496 | The lineage check reports an unknown or a self reference and nothing else |
| ProvenanceRegistry.Registry.ValidateJournal | src/vheatm_control/provenance.py:385-425 | Accepts exactly the journals that are a well-formed chain with one event for every record |
| ProvenanceRegistry.Registry.LoadDocument | src/vheatm_control/provenance.py:308-332 | Loading a document, with a journal or without one, either restores the registry it describes or reports why not |
| ProvenanceReload.ImportValidExactly | src/vheatm_control/provenance.py:334-353 | The journal made up for a document without one is valid exactly when every record's capture time can be read; without a time a record counts as captured in 1970 |
| ProvenanceRegistry.Registry.AssertExtension | src/vheatm_control/provenance.py:561-572 | Accepts exactly the candidates that keep every record unchanged and the journal as a prefix |
| ProvenanceRegistry.Registry.Save | src/vheatm_control/provenance.py:574-615 | Replaces the file exactly when the stored root is the expected one and nothing stored is lost; otherwise the file stays |
| ProvenanceRuns.RunIntact | src/vheatm_control/provenance.py:427-530 | Every registry built by additions has its references resolved and an order of its claims with parents first |
| ProvenanceRuns.LineageAcyclic | src/vheatm_control/provenance.py:474-496 | In such a registry no claim is its own ancestor |
| ProvenanceRuns.JournalValidExactly | src/vheatm_control/provenance.py:354-425 | The journal is valid after any sequence of additions exactly when every step that inserted a record had an actor and a readable time; one that had not can never be mended |
| ProvenanceRuns.BlankActorCounterexample | src/vheatm_control/provenance.py:354-453 | A blank actor is refused after the record is stored, and no later sequence of additions makes the journal valid again |
| ProvenanceRuns.AfterGrows | src/vheatm_control/provenance.py:427-453 | An addition removes and changes nothing, and without a new record adds no journal entry |
| ProvenanceRuns.HeadCommits | src/vheatm_control/provenance.py:385-422 | Two journals that fit and end in the same hash are equal event by event |
| ProvenanceReload.ReadsBackExactly | src/vheatm_control/provenance.py:308-332 | A registry that was written out reads back exactly when its journal is valid and every claim sorts after its parents and the claim it supersedes, and then unchanged |
| ProvenanceReload.ClaimLoads | src/vheatm_control/provenance.py:474-517 | A claim read back is accepted exactly when its parents and the claim it supersedes are already there |
| ProvenanceSave.UnreadableCounterexample | src/vheatm_control/provenance.py:542-550 | Two claims every check accepts, the parent sorting after its child: the saved file is refused |
| ProvenanceSave.StoredOnlyGrows | src/vheatm_control/provenance.py:560-615 | In any interleaving of clients that load, add and save, every stored version keeps all earlier records and every earlier journal as a prefix |
| ProvenanceSave.NoLostUpdate | src/vheatm_control/provenance.py:574-589 | A save that names the root its client loaded succeeds only on that very version, so no update is lost |
| ProvenanceSave.FirstSaveOnly | src/vheatm_control/provenance.py:579-589 | A save without an expected root succeeds exactly when nothing is stored |
| Activation.EvaluationIsKleene | src/vheatm_control/activation.py:100-164 | A value that short-circuit evaluation returns is the strong Kleene value of the tree, whatever the comparisons it skipped or that fail would say; an error-free tree has a value |
| Activation.DecidedStays | src/vheatm_control/activation.py:100-175 | Resolving unknown references never turns true into false or back: the value stays or evaluation fails, and without errors it stays |
| Activation.UnknownNamesReference | src/vheatm_control/activation.py:326-329 | An unknown value names at least one unresolved reference |
| Activation.ComparatorsMean | src/vheatm_control/activation.py:100-132 | Whole numbers and texts compare by value and by code points, truth values as 0 and 1, and values of different kinds are incompatible |
| Activation.OrderingsAgree | src/vheatm_control/activation.py:109-120 | The four orderings apply to the same pairs of values; where they apply they are total and each other's converse or negation, and values neither of which is less are equal |
| ActivationGrammar.RoundTrip | src/vheatm_control/activation.py:203-313 | Printing any expressible tree with as few parentheses as needed and parsing it gives back the tree |
| ActivationGrammar.Reprint | src/vheatm_control/activation.py:203-313 | Whatever parses is expressible, so printing and parsing again changes nothing |
| ActivationGrammar.ParseOr | src/vheatm_control/activation.py:239-244 | On every token list parsing ends, leaves a shorter list that still ends in the end token, and yields only expressible trees |
| ActivationParser.Parser.Parse | src/vheatm_control/activation.py:234-237 | The parser object computes the grammar's answer for the whole token list |
| ActivationParser.Parser.ParseOr | src/vheatm_control/activation.py:239-244 | The loop over `or` builds to the left what the grammar says, and the index stays on a token |
| ActivationParser.Parser.ParseAnd | src/vheatm_control/activation.py:246-251 | The loop over `and` likewise, binding tighter |
| ActivationParser.Parser.ParsePrimary | src/vheatm_control/activation.py:253-261 | Parentheses, constants and comparisons likewise |
| ActivationParser.Parser.ParseValue | src/vheatm_control/activation.py:283-313 | Values and lists of scalars likewise; nested lists are refused |
| AuditContext.NormalizeContext | src/vheatm_control/evaluator.py:73-111 | The loop over the supplied fields lays them over the defaults as specified |
| AuditContext.NormalizeIdempotent | src/vheatm_control/evaluator.py:73-111 | Normalizing a normalized context changes nothing |
| AuditContext.MergeContext | src/vheatm_control/evaluator.py:289-434 | The loop over an amendment merges its fields in order and stops at the first refusal |
| AuditContext.MergeKeeps | src/vheatm_control/evaluator.py:311-357 | A merge keeps every resolved declaration as comparison sees it and adds findings of a 2.0.0 context only behind the known ones |
| AuditContext.MergeKeepsFields | src/vheatm_control/evaluator.py:293-310 | A merge changes no immutable field that is present and no answered risk |
| AuditContext.MergeTakesIn | src/vheatm_control/evaluator.py:359-419 | What an amendment brings is found in the merged context: declarations with their new values, amendments in their list, 2.0.0 facts and findings likewise, any other field as it was given; the three counters that are derived, and facts and findings before 2.0.0, are not part of this |
| AuditContext.ReportedAgainExactly | src/vheatm_control/evaluator.py:346-356 | A known finding reported again leaves the ledger as it is exactly when it has an id: known findings without one are filed under "None" and looked up under the empty text |
| AuditContext.NormalizeKeeps | src/vheatm_control/evaluator.py:73-111 | Normalizing keeps what was supplied against the defaults: resolved declarations, version and ledger |
| AuditContext.ModeKeptExactly | src/vheatm_control/evaluator.py:91-94 | The mode survives a replan exactly when no profile is in force or it says the same; a profile is in force when context or amendment are 2.0.0, and it is the context's own, else the amendment's |
| Evaluator.EvaluateManifest | src/vheatm_control/evaluator.py:114-205 | The loop over the gates builds the specified plan with counts that match its gates |
| Evaluator.AssertPlanMatches | src/vheatm_control/evaluator.py:208-286 | The check decides as specified and returns the recomputed plan |
| Evaluator.RevisePlan | src/vheatm_control/evaluator.py:437-472 | A revision is built as specified; a dropped active gate refuses it |
| PlanChains.EvaluatedMatches | src/vheatm_control/evaluator.py:114-286 | Every plan the evaluator builds passes its own check, binding required, and the check returns that plan |
| PlanChains.RevisedMatches | src/vheatm_control/evaluator.py:437-472 | So does every revision |
| PlanChains.RevisedModeExactly | src/vheatm_control/evaluator.py:437-472 | An accepted revision keeps the plan's mode exactly under that condition on plan and amendment |
| PlanChains.ModeCounterexample | src/vheatm_control/evaluator.py:91-94 | A plan in mode "standard", amended to 2.0.0 with the profile "full": the revision is accepted and its mode is "full" |
| PlanChains.StatesNotForged | src/vheatm_control/evaluator.py:208-286 | In an accepted plan a gate is active exactly when the manifest's own expression holds in the plan's normalized context |
| PlanChains.AcceptedIsBound | src/vheatm_control/evaluator.py:234-286 | An accepted plan that is completely bound has exactly the binding and the summary the evaluator makes for its normalized context |
| PlanChains.PlanIdCommits | src/vheatm_control/evaluator.py:35-37 | Accepted plans with one plan id agree in manifest, normalized context, revision, parent, summary and in which gates are active |
| PlanChains.ActiveExactly | src/vheatm_control/evaluator.py:140-170 | A gate is active exactly when its expression compiles and evaluates to true; a gate unknown without an error names an unresolved reference |
| PlanChains.ChainKeeps | src/vheatm_control/evaluator.py:437-472 | Along any chain of revisions the revision counts up by one with the parent's id, active gates stay active, resolved declarations, answered risks and lasting fields keep their values, and a 2.0.0 ledger keeps its entries as a prefix |
| PlanChains.ObligationsNeverFall | src/vheatm_control/evaluator.py:339-357 | Along such a chain the number of open mandatory findings of a 2.0.0 ledger never falls, and it is what the context reports |
| ModuleRuns.ValidateArtifact | src/vheatm_control/execution.py:261-281 | Accepts exactly the artifacts with their own content id, typed unique references, a receipt where validation is claimed, and only successful receipts |
| ModuleRuns.ValidateModuleRun | src/vheatm_control/execution.py:284-412 | Accepts exactly the runs that are bound to module and contract and whose inputs, outputs and result, or failure, are valid |
| ModuleRuns.ValidRunCarries | src/vheatm_control/execution.py:315-367 | Every artifact a valid run names is there with successful receipts and the id of its own content, which is the reference it is filed under when the map is keyed by id; its outputs are its own, a completed run has every required output, and no output of cardinality one twice |
| ModuleRuns.CheckOutputs | src/vheatm_control/execution.py:338-367 | The loop that files outputs by id accepts exactly the owned, declared outputs that meet cardinality, requirement and schema |
| ModuleRuns.CheckInputs | src/vheatm_control/execution.py:315-337 | The input checks accept exactly when every required input is there, the last one offered under an id counting |
| GateDerivation.CollectOwners | src/vheatm_control/execution.py:452-456 | Owners are gathered with repetitions: a module that lists a gate twice counts twice |
| GateDerivation.SoleListed | src/vheatm_control/execution.py:501-504 | One listed owner means one module that covers the gate once while no other does |
| GateDerivation.DeriveStates | src/vheatm_control/execution.py:457-490 | A selected module has a result exactly when its run has its digests, is valid and completed |
| GateDerivation.RecordsFiled | src/vheatm_control/execution.py:438-443 | The artifacts from which results are derived are filed under their ids, which is what the two rows on evidence ask for to conclude that a reference is the content's own id |
| GateDerivation.DeriveGateResults | src/vheatm_control/execution.py:415-522 | Results are derived exactly for canonical plans and unique records; each gate gets the one outcome its activation, sole owner, run and trace determine |
| CycleStatus.DeriveCycleStatus | src/vheatm_control/report_validator.py:67-88 | Blocked exactly when some gate stands in the way; complete exactly when none does and every mandatory finding is settled |
| CycleStatus.CompleteExactly | src/vheatm_control/report_validator.py:67-88 | The status derived from derived results is complete exactly when no gate is unknown, every active gate is evidenced and every mandatory finding is settled; inactive gates are then not applicable |
| CycleStatus.EvidenceMeans | src/vheatm_control/execution.py:284-412 | Evidence for a gate is the completed, valid run of its sole owner: state pass, the gate in its trace, non-empty evidence, successful receipts, one decision artifact that is the result, every artifact filed under the id of its own content |
| CycleStatus.OnlyRun | src/vheatm_control/execution.py:432-437 | With one run per module the evidence is that run and no other |
| CycleStatus.ValidateStatus | src/vheatm_control/report_validator.py:142-428 | The status follows the results the report declares; no issue is raised exactly when there is one claim for each gate, each suits its activation and agrees with the derived result and evidence, and the declared status is the derived one; and then "complete" is declared exactly when the records show a finished cycle |

## Left out

- LinkerForward.CallForward: compares one scope with the resolver. Names from other scopes are taken from the resolver, because writes through `global` and `nonlocal` are recorded under the writing scope and whole-program agreement is not what the code gives; scopes with wildcard imports, `global` or `nonlocal` are outside the comparison for the same reason. What other modules load while they run comes in through `start` alone, a decorated definition counts as the object it decorates, an attribute of a package is its loaded submodule even if the package's own code binds that name again afterwards, and a name that calls into other code rebind or unbind is not followed.
- LinkerTraces.CodeForward: the runs of `ExecutionOrder` include every order that Python's rules allow and some more: a branch, a handler or a case may be entered whatever its test says, and where a scope is left by an exception is not followed further. Annotations are evaluated where they are written, generator expressions where they stand; class bodies, function bodies and lambdas are scopes of their own, a value that a walrus reads from the comprehension's own names is not followed, and a handler that is left early may keep its name.
- LinkerTraces.DefinitionPicked: is about the statements of a module; that statements stand one after the other in the file is its hypothesis `LaidOut`, because positions come with the syntax.
- LinkerIndex.BuiltComparable: an `import` that lists two paths of one package, such as `import p.b, p.c`, is outside its hypothesis `Paired`, because both bindings stand at one position and the later entry replaces the earlier.
- StructuralProbe.FactCollector.VisitModule: does not model the `symbols` list, unparsed source texts, argument counts, line ends, the positions of scopes and the requested text that a `from` import records as its value; the collection of `global` and `nonlocal` names and of pattern captures is a function of the syntax.
- PythonLinker.FindNonlocal: scopes are the probe's own list in the order of emission, as `ScopeTree` describes it; a probe document that names unknown lookup parents is not modelled.
- ModuleRouter.DiscloseAll: the disclosure ratio is an exact fraction; rounding of ratios and the reported reasons, entries and instruction texts are not modelled.
- ModuleRouter.ValidateGraph: the loading of module files before the cited lines, with its schema, path and digest checks, is not modelled.
- ProvenanceRegistry.Registry.AddClaim: a claim's text is its list of words and its remaining spacing is part of the fields no check reads.
- ProvenanceRegistry.Registry.LoadDocument: the schema version of a document is not modelled, and its lists are taken as lists.
- ActivationGrammar.RoundTrip: starts from tokens; lexing, offsets in messages and string escapes are not modelled.
- Activation.EvaluationIsKleene: numbers are exact, so not-a-number values are outside the model.
- AuditContext.MergeContext: the text of an id that is a fraction, a list or an object stands for itself, and the type error for a state that is a list is not modelled.
- PlanChains.ChainKeeps: says nothing of `blast_radius` and `write_chain_components`, which a non-integer value may replace, nor of `mandatory_findings` outside a 2.0.0 ledger.
- GateDerivation.DeriveGateResults: the reason texts of results are not modelled; records are taken as well typed.
- CycleStatus.ValidateStatus: the other checks of a report, its digests, claims and trust rules, are not modelled.
- SessionStore.Store.Append: SQL, locks and time stamps are not modelled; a transaction is one atomic step on maps.
- JSON Schema, YAML and JSON loading, RFC 3339 parsing and the cryptography of signatures and attestations.
- The sandbox, providers, judges, the MCP server, the command-line entry points and `run_module`, which are input and output plumbing around the checks modelled here.
- The tool broker, evaluation thresholds and capability tables, whose facts are read off single branches.
