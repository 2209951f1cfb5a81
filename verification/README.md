# DiffMind core, modelled and proved in Dafny

DiffMind extracts exposures, dependencies and the call paths between them from a repository, merges
what it finds into an editable architecture catalog, writes it out as a protocol document, and
compares saved graphs. This project models the parts of that machinery whose correctness does not
follow from reading one body, and proves what they promise, for every input and every run.

`dafny verify dfyconfig.toml` checks the whole project.

## What is modelled

| file | subject |
|---|---|
| `AstWalker.dfy`, `AstCoverage.dfy` | the bounded breadth-first search over the syntax-tree call graph, which enumerates simple call chains, and what its caps cost |
| `ScipWalker.dfy`, `ScipShape.dfy` | the pruned breadth-first search over the symbol index, with interface-to-implementation hops, and the shape of its paths |
| `EventBus.dfy`, `EventOrder.dfy`, `EventEnd.dfy`, `EventResume.dfy` | the run event bus as atomic steps split where the locks are, what sequence numbers tell a subscriber, the end marker, and resuming a stream |
| `Runner.dfy` | the life of runs, from the choice of an id to the closing of `doneCh`, under every interleaving |
| `CatalogMerge.dfy`, `CatalogAgain.dfy`, `Catalog.dfy`, `CatalogLaws.dfy`, `CatalogReimport.dfy`, `CatalogStore.dfy` | the architecture catalog: ownership-aware merge, optimistic concurrency, repeated imports, and the store as a class |
| `Protocol.dfy`, `ProtocolValidator.dfy` | protocol documents and the two validators |
| `ProtocolBuild.dfy`, `ProtocolLaws.dfy`, `ProtocolOutline.dfy`, `ProtocolFill.dfy`, `ProtocolTheorem.dfy`, `ProtocolFlows.dfy`, `ProtocolBuilder.dfy` | the builder of protocol documents, and the theorem that tells when its output passes the strict validator |
| `Compare.dfy`, `CompareLaws.dfy`, `CompareOrder.dfy`, `CompareErrors.dfy`, `CompareRun.dfy` | graph comparison as a patch that can be inverted and ignores list order |
| `Ranges.dfy` | source ranges, the symbol at a position, inferred bodies and the calls made in them |
| `SplitArgs.dfy` | the quote- and bracket-aware argument splitter |
| `Sorting.dfy`, `Lists.dfy`, `Text.dfy`, `Decimal.dfy`, `Wrappers.dfy` | stable sorting by a string key, sequences and multisets, white space, decimal rendering, result types |

Each part has the same build. A value describes the state, and functions take one state to the next with
the branches, constants and error cases of the Go code. Lemmas prove what the source promises about those
functions. Methods and classes with the loops and fields of the source are proved to compute exactly these
functions, so the lemmas hold of them too. Automatic induction is off: every lemma carries
`{:induction false}` and says itself where its hypothesis is used.

Foreign libraries and heuristics are parameters: the call graph and `IsTarget` of the walkers, the hash and
the semantic key of the catalog (nothing is assumed about collisions), the semantic object id, the slug and
the line-number pattern of the protocol builder, and the JSON encoder of the comparison. Clocks and I/O
results are arguments too.

## Where the code and its comments part

The model follows the code. Each of these has a lemma with a concrete input or a condition that is exact.

- `WalkVerbose` documents its `truncated` flag as set whenever more paths may exist than were returned
  (internal/extractor/ast/walker.go:107-112). The total cap can drop a hit on the last callee of the last
  node without setting it, and a cancelled walk does not set it: `FlagMissesCappedHit`,
  `FlagMissesCancellation`; what a cancelled walk misses is told by `CancelledCompleteIff`. An unflagged,
  uncancelled walk with fewer than `MaxPathsTotal` paths is complete.
  A full one is complete exactly if the total cap cuts nothing off the breadth-first enumeration of all
  chains: `CompleteIff`. Where no symbol has two equal call sites that is a count, the chains of each target
  up to its cap against `MaxPathsTotal`: `CompleteIffFits`, `DistinctSitesNoRepeats`.
- A path of the symbol walker is documented to begin at the entry, to end at the target and to read as a chain of
  call edges (internal/extractor/scip/walker.go:12-15). A step followed to an implementation breaks the chain
  behind it, and the last step, if it is one, names the interface and not the target:
  `ImplementationHopBreaksChain`, `LastHopMissesTarget`. A path has the documented shape exactly if it has no such
  step, and the chain alone exactly if it has none before the last: `ShapedIff`. Under all limits the shape can be
  relied on exactly if the index holds no simple trail to a target with such a step: `AlwaysShapedIff`. Under given
  limits, pruning included, a target whose shortest trails all have one is reported out of shape: `ShortestBroken`.
- Sequence numbers are drawn outside the lock, so with two emitters a client that resumes behind the last
  number it took can miss an event that never left the ring: `ResumeCanLoseEvent`. It loses nothing exactly
  if no event accepted after that one, and still in the ring, has a lower number: `ResumesWellIff`. With one
  emitting goroutine resumption is sound: `SoloResumeContinues`, `SoloGapsAreDrops`.
- A subscriber handed to its closer is documented to be skipped by `Emit`; the mark is never read, and an
  event can follow the end marker: `EventCanFollowEof`. Nothing can follow it exactly if no `Emit` still had an
  event for the subscriber when `FinishRun` detached it: `EofIsLastIff`.
- A run whose status is `cancelling` may still end as `completed`: `CancellingCanComplete`. It ends as
  `cancelled` exactly if its context ends before `finish` takes the lock: `CancelledIffContextEnded`.
- Importing the same run twice is meant to change nothing. Normalisation trims types and rewrites empty path
  signatures, and with them keys: `UntrimmedTypeRefusesReimport`, `EmptySignatureRefusesReimport`,
  `RewrittenKeyRefusesReimport`. The second import changes nothing exactly if the last incoming record of each
  key keeps its key when normalised, or a protected record is kept there: `ReimportIff`. "Nothing" is here the
  graph and the record each incoming one is led to. The graph alone decides too, unless a key has a protected
  record behind one that may be overwritten: `ShadowedStays`. For any document and any import the exact condition
  for keeping the graph is `ImportKeepsGraphIff`.
- A dependency that carries the id of an exposure takes the exposure's flow away, and the builder's own
  document is then rejected: `SharedIdFails`. The exact condition is `BuildPassesIff`.
- `rangeArea` weighs a line as 4096 columns. A wider single-line range inside a two-line one has the larger
  area: `WideIsMistaken`; when the area tells the inner range apart is `AreaShrinksIff`.
- `SymbolAt` promises the smallest covering occurrence. It takes the first one with a symbol that no covering
  occurrence behind it, named or not, undercuts in area: `SymbolOfStanding`. That is the smallest one with a symbol
  exactly if no smaller nameless one stands behind it: `SmallestTakenIff`; `UnnamedMisleads` is a document where one
  does.
- `splitArgs` is to split at commas outside brackets, parentheses, braces and quotes, and counts angle signs as
  brackets: `LessThanHidesComma`, `GreaterThanHidesComma`, `GreaterThanCutsInside`. It splits as intended
  exactly if at every comma outside quotes the angle signs before it make no difference to the depth being
  zero: `SplitsTopLevelIff`.

## Model

| member | source | states |
|---|---|---|
| AstWalker.WalkVerbose | internal/extractor/ast/walker.go:113-225 | The loop nest with its queue, counters and caps; it always ends, returns nothing for a nil index, nil predicate or empty entry, and its result keeps the whole promise of the walk |
| AstWalker.Limits.WithDefaults | internal/extractor/ast/walker.go:48-68 | Every limit is positive afterwards; a positive one is kept and any other gets its default |
| AstWalker.Walk.HeadKeepsInv | internal/extractor/ast/walker.go:134-222 | A round of the loop keeps the queue ordered by depth and within its cap, its nodes simple chains from the entry, and the paths found in order |
| AstWalker.Walk.RunPathsOk | internal/extractor/ast/walker.go:126-222 | Every returned path is a chain of call edges from the entry with consecutive orders and distinct symbols, local non-target symbols inside and a target at its end, no longer than the depth cap; lengths never decrease along the result; the total and per-target caps hold |
| AstWalker.Walk.RunComplete | internal/extractor/ast/walker.go:134-222 | A walk that was not flagged, not cancelled and not full has found every simple chain to a target, unless that target already has its cap of paths |
| AstWalker.Walk.LoopErase | internal/extractor/ast/walker.go:97-101 | Any walk to a symbol other than the entry can be cut down to one without repeated symbols |
| AstWalker.Walk.ReportedIffReachable | internal/extractor/ast/walker.go:89-101 | On a complete result a target is reported exactly if some walk through local non-target symbols, repetitions allowed, reaches it |
| AstWalker.Walk.RunKeepsPromise | internal/extractor/ast/walker.go:107-225 | Soundness, order and caps for every walk; completeness and reachability for a walk that was neither flagged nor cancelled and has room for one more path |
| AstWalker.FlagMissesCappedHit | internal/extractor/ast/walker.go:190-200 | Two walks with the same paths and the same clear flag, of which one is complete and the other misses a target |
| AstWalker.FlagMissesCancellation | internal/extractor/ast/walker.go:134-137 | A cancelled walk returns nothing, unflagged, although a target can be reached |
| AstCoverage.EnumerationIsAll | internal/extractor/ast/walker.go:172-206 | A walk neither flagged nor cancelled returns what its two caps on paths keep of an enumeration that lists exactly the chains to targets |
| AstCoverage.CompleteIff | internal/extractor/ast/walker.go:190-200 | Such a walk is complete exactly if everything the total cap cuts off that enumeration goes to targets all of whose chains were kept before |
| AstCoverage.CompleteIffFits | internal/extractor/ast/walker.go:190-200 | If no chain occurs twice, exactly if the chains of each target up to the cap per target number no more than the total cap |
| AstCoverage.DistinctSitesNoRepeats | internal/extractor/ast/walker.go:172-222 | If no symbol has two equal call sites, no chain is enumerated twice |
| AstCoverage.CancelledCompleteIff | internal/extractor/ast/walker.go:134-137 | An unflagged walk that was cancelled returns what the caps keep of a first part of the enumeration, and is complete exactly if that leaves out only paths to targets that have their cap |
| ScipWalker.WalkFrom | internal/extractor/scip/walker.go:122-132 | An empty result for a nil index, nil predicate or empty entry; otherwise the result keeps the promise of the search |
| ScipWalker.Limits.WithDefaults | internal/extractor/scip/walker.go:137-162 | Every limit is positive afterwards; a positive one is kept and any other gets its default |
| ScipWalker.WalkSearch.Run | internal/extractor/scip/walker.go:180-251 | The search over its own fields ends and computes the modelled run; that no stop was hit can be read off the path count and the visited edges when there is no cancellation |
| ScipWalker.WalkSearch.RecordPath | internal/extractor/scip/walker.go:264-273 | Appends a path and counts the hit, unless the total or the target's cap is reached |
| ScipWalker.WalkSearch.Enqueueable | internal/extractor/scip/walker.go:253-262 | Accepts a local symbol that is kept fewer times than its cap, and counts it |
| ScipWalker.Walk.RunPathsOk | internal/extractor/scip/walker.go:180-273 | Every returned path follows calls, or calls plus one implementation, through distinct local non-target symbols to a target within the depth cap; lengths never decrease; the caps hold |
| ScipWalker.Walk.TrailFound | internal/extractor/scip/walker.go:199-262 | Keeping each symbol only a few times costs no target: if any trail of that length leads to it, a path at least as short is recorded |
| ScipWalker.Walk.FirstIsShortest | internal/extractor/scip/walker.go:104-121 | The first path recorded for a target has exactly the breadth-first distance |
| ScipWalker.Walk.RunKeepsPromise | internal/extractor/scip/walker.go:180-273 | Without a stop, a target other than the entry is reported exactly if a trail within the depth cap leads to it, and its first path is a shortest one |
| ScipWalker.Walk.StopsVisible | internal/extractor/scip/walker.go:190-206 | Without cancellation every stop shows in the path count or in the visited edges |
| ScipWalker.Walk.NodesBounded | internal/extractor/scip/walker.go:253-262 | Pruning bounds the queued nodes by the cap per symbol times the number of local symbols |
| ScipShape.ChainIffNoImplementationHop | internal/extractor/scip/walker.go:14-15 | The steps of a trail read as a chain of caller and callee exactly if no step but the last was followed to an implementation |
| ScipShape.ShapedIff | internal/extractor/scip/walker.go:12-15 | A path has the documented shape, first caller the entry, each caller the callee before it, last callee the target, exactly if no step was followed to an implementation; without the clause on the target, if none before the last was |
| ScipShape.ImplementationHopBreaksChain | internal/extractor/scip/walker.go:217-236 | A shortest walk through an interface whose one path is no such chain |
| ScipShape.LastHopMissesTarget | internal/extractor/scip/walker.go:228-231 | A target found as an implementation: the one path of an unstopped walk is a chain and its last callee is the interface |
| ScipShape.SomeWalkRecords | internal/extractor/scip/walker.go:180-251 | Every simple trail to a target within the depth limit is recorded by a walk that is not stopped, under ample limits |
| ScipShape.AlwaysShapedIff | internal/extractor/scip/walker.go:12-15 | Under all limits the paths of unstopped walks have the documented shape exactly if the index holds no simple trail to a target with an implementation hop, and read as chains exactly if none has one before its last step |
| ScipShape.NoHopTrail | internal/extractor/scip/walker.go:12-15 | Without such a trail every path of every walk has the shape, stopped or not |
| ScipShape.ShortestBroken | internal/extractor/scip/walker.go:104-121 | Under given limits a target whose shortest trails all have such a hop is reported with a path out of shape |
| EventBus.RunsKeepInv | internal/extractor/events/bus.go:131-354 | After every interleaving of emits, subscriptions, cancels, late closes and finishes: sequence numbers name events, the ring is the newest part of what was accepted, the right to close is held by one party, and every subscriber's account is exact |
| EventBus.OfferedExactlyOnce | internal/extractor/events/bus.go:187-213 | No event is offered twice to a subscriber, and once no emit has something left for it, it was offered exactly what was in the ring and recent enough when it joined or was accepted while it was registered |
| EventBus.ClosedAtMostOnce | internal/extractor/events/bus.go:131-181 | Each channel is closed at most once and is open exactly while somebody holds the right to close it |
| EventBus.RingIsNewest | internal/extractor/events/bus.go:311-317 | The history is the last part of the accepted events, as long as the capacity allows, in the order of acceptance |
| EventBus.RunState.constructor | internal/extractor/events/bus.go:101-105 | A new stream is empty and unfinished, with the default capacity for a size that is not positive |
| EventBus.RunState.NextSeq | internal/extractor/events/bus.go:303 | Draws the next number and changes nothing else |
| EventBus.RunState.AppendAndCapture | internal/extractor/events/bus.go:305-325 | The locked section of Emit: drops the event of a finished run, otherwise evicts, appends and captures the subscribers |
| EventBus.RunState.SafeSend | internal/extractor/events/bus.go:345-354 | A send that neither blocks nor fails: the event is queued if the channel is open and has room, and dropped otherwise |
| EventBus.RunState.Subscribe | internal/extractor/events/bus.go:187-213 | Registers the subscriber and replays the recent part of the ring as far as the buffer holds it |
| EventBus.RunState.CloseIfRegistered | internal/extractor/events/bus.go:217-237 | The cancel function and the delayed close: closes only what is still registered |
| EventBus.RunState.FinishRun | internal/extractor/events/bus.go:138-157 | Marks the run finished and hands every subscriber to a closer, leaving none registered |
| EventOrder.DeliveredIsSubSeq | internal/extractor/events/bus.go:345-354 | What a subscriber receives is always a subsequence of what it was offered |
| EventOrder.SoloKeepsInv | internal/extractor/events/bus.go:293-334 | With one emitting goroutine accepted events are numbered without gaps and every subscriber is offered a contiguous stretch of them |
| EventOrder.SoloOffersStretch | internal/extractor/events/bus.go:187-213 | With one emitter the stretch starts at the requested number or, if that was evicted, at the oldest event of the ring |
| EventOrder.SoloGapsAreDrops | internal/extractor/events/bus.go:340-354 | With one emitter deliveries increase strictly, and every missing number between two of them is an event that was offered and dropped |
| EventResume.SoloResumeContinues | internal/extractor/ui/handlers_run.go:180-192 | With one emitter a client that resumes behind the last event it took is offered nothing it took, and once settled exactly the stretch that begins there or at the oldest event of the ring |
| EventResume.ResumesWellIff | internal/extractor/events/bus.go:187-213 | In any run: resuming loses nothing still in the ring exactly if no event accepted later and still there has a lower number, and repeats nothing exactly if none that was taken and is still there has a higher one |
| EventOrder.ResumeCanLoseEvent | internal/extractor/events/bus.go:303-305 | With two emitters a run in which a resuming client never gets an event that stays in the ring |
| EventOrder.EventCanFollowEof | internal/extractor/events/bus.go:149-181 | A run in which an event is queued behind the end marker |
| EventEnd.EofIsLastIff | internal/extractor/events/bus.go:138-181 | For a subscriber that FinishRun detaches, no continuation puts an event behind the end marker exactly if no Emit in flight still has an event for it then |
| Runner.RunsKeepInv | internal/extractor/runner/runner.go:125-221 | The invariant of run records, run table and bus table under every interleaving of start, execution, finish, cancel and context ends |
| Runner.LiveRunsDiffer | internal/extractor/runner/runner.go:125-131 | No two live runs share an id, although the id is checked and used in different steps |
| Runner.OverwritesOnlyFinished | internal/extractor/runner/runner.go:146-148 | A table entry is replaced only when its run is terminal and its stream finished |
| Runner.TerminalForever | internal/extractor/runner/runner.go:174-221 | A terminal status never changes again, and a finished stream stays finished |
| Runner.DoneMeansOver | internal/extractor/runner/runner.go:159-169 | When doneCh is closed the status is terminal and the stream finished; a live run owns its unfinished stream |
| Runner.CancellingCanComplete | internal/extractor/runner/runner.go:180-191 | A run whose cancellation was recorded and that still completes |
| Runner.CancelledIffContextEnded | internal/extractor/runner/runner.go:174-214 | In every interleaving a run that is over was cancelled exactly if its cancel function was called, or its context cancelled from outside, before finish took the lock, whatever was marked |
| Runner.AllocateRunId | internal/extractor/runner/runner.go:346-353 | The loop ends with the first of base, base-2, base-3 and so on that was not taken when it was polled, as other runs come and go |
| Runner.Manager.Insert | internal/extractor/runner/runner.go:146-148 | The locked insertion is the listing step of the model |
| Runner.Manager.Cancel | internal/extractor/runner/runner.go:204-214 | The locked section of Cancel is the marking step of the model; unknown and inactive runs are left alone |
| Runner.Manager.RecordEnd | internal/extractor/runner/runner.go:174-194 | The locked section of finish is the ending step of the model |
| CatalogMerge.Merge | internal/extractor/catalog/store.go:358-416 | The merge loop with its byKey map computes the modelled merge |
| CatalogMerge.TallyAll | internal/extractor/catalog/store.go:363-384 | Every incoming record is counted exactly once as added, updated or skipped |
| CatalogMerge.AllGrows | internal/extractor/catalog/store.go:363-385 | Merging renames no stored record, moves none and changes no key; a new record has the id made from its key |
| CatalogMerge.AllSettles | internal/extractor/catalog/store.go:363-385 | What each place of a merged list holds: the last incoming record of its key under the stored id, or what was there before |
| CatalogMerge.AllIds | internal/extractor/catalog/store.go:364-379 | Every incoming id is sent to the id that its key selects in the merged list |
| CatalogMerge.AllProtects | internal/extractor/catalog/store.go:488-507 | A manual record survives an automation merge unless a new record is given its id |
| CatalogAgain.Remerge | internal/extractor/catalog/store.go:358-450 | Merging the same records into what was stored adds nothing and, normalised, changes nothing, if keys are kept or guarded |
| Catalog.NormalEntityKey | internal/extractor/catalog/store.go:456-462 | Trimming the type is all that normalisation does to the catalog key of an entity |
| Catalog.NormalConnectionKey | internal/extractor/catalog/store.go:300-312 | Normalisation changes the key of a connection exactly if its path signature is empty |
| CatalogLaws.LoadReturnsStored | internal/extractor/catalog/store.go:138-158 | Normalisation and validation on load leave a stored document as it is |
| CatalogLaws.RunsKeepInv | internal/extractor/catalog/store.go:46-136 | From the empty catalog every sequence of saves and imports leaves ids unique over the three lists, connections between existing ends, metadata for exactly the stored ids, and every list normal and sorted |
| CatalogLaws.StepGrows | internal/extractor/catalog/store.go:118-134 | A commit raises the revision by one and keeps the import history as a prefix; any failure leaves the document as it was |
| CatalogLaws.SaveReplacesWhatWasLoaded | internal/extractor/catalog/store.go:54-61 | A save that commits replaced exactly the document its editor had loaded, whatever calls came between |
| CatalogLaws.OneSaveWins | internal/extractor/catalog/store.go:54-61 | Of two saves made from the same revision at most one commits |
| CatalogLaws.SaveOwnsTouched | internal/extractor/catalog/store.go:323-342 | A save that commits makes exactly the new and changed records manual, dated by the save, and keeps the metadata of all others |
| CatalogLaws.ImportReusesNoId | internal/extractor/catalog/store.go:193-221 | An import that validates gave no stored id to a new record |
| CatalogLaws.CollisionIsRefused | internal/extractor/catalog/store.go:378-383 | A new exposure, dependency or connection whose hash is some record's id makes the whole import fail |
| CatalogLaws.ManualSurvivesImport | internal/extractor/catalog/store.go:98-136 | A successful automation import leaves value and metadata of every manually owned record unchanged |
| CatalogLaws.ManualSurvivesImports | internal/extractor/catalog/store.go:78-83 | So do any number of automation imports, successful or not |
| CatalogLaws.EditSurvivesImports | internal/extractor/catalog/store.go:43-83 | What an editor changed and saved keeps its value and its manual owner through any later automation imports |
| CatalogLaws.ImportCountsAll | internal/extractor/catalog/store.go:114-127 | Added, updated and skipped add up to the entities plus the connections with both ends imported |
| CatalogLaws.ExposureLands | internal/extractor/catalog/store.go:363-384 | A committed import stores the last incoming exposure of each key under the id the key selects, owned by the source, unless a manual record is kept there |
| CatalogLaws.ConnectionLands | internal/extractor/catalog/store.go:423-448 | The same for connections between imported ends, which then join the stored ends |
| CatalogReimport.ReimportIff | internal/extractor/catalog/store.go:98-136 | A second import of the same input commits, keeps the graph and leads every record to the same stored one, exactly if the last incoming record of each key keeps its key when normalised or a protected record is kept there; where nothing is shadowed the graph alone decides |
| CatalogReimport.ImportKeepsGraphIff | internal/extractor/catalog/store.go:98-136 | Any import commits and keeps the graph exactly if every incoming record meets a stored one that is protected or that it equals once normalised |
| CatalogReimport.ReimportChangesNothing | internal/extractor/catalog/store.go:98-136 | With trimmed types and non-empty path signatures a second import of the same input commits, adds nothing and leaves the graph equal |
| CatalogAgain.LastingByGraph | internal/extractor/catalog/store.go:358-450 | A second merge that leaves a list as it is shows that keys were kept or guarded |
| CatalogReimport.RewrittenKeyRefusesReimport | internal/extractor/catalog/store.go:371-383 | If a new key of the input belongs to no incoming record of its list after normalisation, the second import is refused |
| CatalogReimport.EmptySignatureRefusesReimport | internal/extractor/catalog/store.go:309-311 | An input with an empty path signature that imports once and is refused the second time |
| CatalogReimport.UntrimmedTypeRefusesReimport | internal/extractor/catalog/store.go:274-290 | An input with a blank before a type that imports once and is refused the second time |
| CatalogReimport.ShadowedStays | internal/extractor/catalog/store.go:363-385 | An input that loses its key, but meets a manual record of that key the second time, so that the graph stays as it is |
| CatalogStore.Validate | internal/extractor/catalog/store.go:193-238 | The loops with the map of ids accept exactly the valid documents |
| CatalogStore.ValidateEntity | internal/extractor/catalog/store.go:223-238 | Accepts an entity with id, type and name whose id is new, and registers it |
| CatalogStore.NormalizeDocument | internal/extractor/catalog/store.go:240-272 | The loops and sorts compute the normal form of a document |
| CatalogStore.ManualMetadata | internal/extractor/catalog/store.go:323-356 | Unchanged records keep their metadata, changed and new ones become manual, whatever order the map is read in |
| CatalogStore.MergeConnections | internal/extractor/catalog/store.go:418-450 | Connections with an end that was not imported are passed over, the others merged between the stored ends |
| CatalogStore.Store.constructor | internal/extractor/catalog/store.go:28-33 | A new store holds the empty catalog, which satisfies the invariant |
| CatalogStore.Store.Load | internal/extractor/catalog/store.go:37-41 | Returns the stored document |
| CatalogStore.Store.SaveManual | internal/extractor/catalog/store.go:46-76 | Refuses a stale revision, an invalid document or a failed write and then keeps the file; otherwise commits the edited document with server-owned metadata |
| CatalogStore.Store.Import | internal/extractor/catalog/store.go:81-83 | The automation import commits the merged document or leaves the file alone |
| CatalogStore.Store.ImportManual | internal/extractor/catalog/store.go:91-96 | The same for a manual source, which is labelled when it has no run id and never skips |
| CatalogStore.Store.Merge | internal/extractor/catalog/store.go:98-136 | importWith: a blank run id, an invalid result and a failed write are refused without a change |
| ProtocolValidator.Validate | protocol/validate.go:11-169 | The loops accept exactly the documents with unique ids, resolving references and well-formed flows |
| ProtocolValidator.ValidateFlow | protocol/validate.go:329-390 | Accepts a flow exactly if its id, references, nodes, edges and enumerations are in order |
| ProtocolValidator.ValidateEntrypointFlows | protocol/validate.go:444-488 | Accepts exactly if every entry point starts some flow, by its entry point, its source or an entry node |
| ProtocolValidator.ValidateCanonical | protocol/validate.go:175-231 | Accepts exactly the documents that are sound, complete, free of model-made facts and covered |
| ProtocolLaws.NumAddMany | internal/extractor/artifacts/protocol.go:483-503 | Counting ids by prefix gives fresh ordinals: numbering on keeps all ids distinct and the numbering dense |
| ProtocolLaws.StemPrefix | internal/extractor/artifacts/protocol.go:483-503 | A prefix of one object matches the numbered ids of that object only |
| ProtocolLaws.RecordKeeps | internal/extractor/artifacts/protocol.go:404-481 | Recording an entity keeps all ids unique and all references resolving, and only appends |
| ProtocolOutline.AddItemsKeep | internal/extractor/artifacts/protocol.go:91-96 | After any exposures and dependencies: references resolve, and the objects, the resources and oldToNew are those told by the entities in order |
| ProtocolFill.AddItemsFill | internal/extractor/artifacts/protocol.go:313-402 | Unless an id is used twice, an object has observations exactly if some entity behind it names a file, and then it has evidence |
| ProtocolTheorem.OutlineSource | internal/extractor/artifacts/protocol.go:108-267 | An object is made exactly from the first entity of its id or from an operation that needs a new database resource |
| ProtocolTheorem.ObjectsPassIff | internal/extractor/artifacts/protocol.go:108-316 | The objects pass validation exactly if the entities are named, typed, located, not line-shaped and do not clash with a resource |
| ProtocolFlows.FlowsPassIff | internal/extractor/artifacts/protocol.go:547-612 | The flows pass exactly if no generated flow id looks like a line number; all their references and node names are always in order |
| ProtocolFlows.StartedIff | internal/extractor/artifacts/protocol.go:592-612 | An object starts a flow exactly if a connection starts there or some exposure id leads to it |
| ProtocolFlows.RefsPass | internal/extractor/artifacts/protocol.go:404-481 | Ids and references of observations, evidence and objects are in order whatever the input |
| ProtocolFlows.CanonicalMoves | internal/extractor/artifacts/protocol.go:996-1013 | The strict validator does not depend on the order of the lists, so sorting is harmless |
| ProtocolFlows.BuildPassesIff | internal/extractor/artifacts/protocol.go:42-106 | The built document passes the strict validator exactly if the input is fit: a condition on names, types, files, ids and coverage that reads the input alone |
| ProtocolFlows.PlainInputPasses | internal/extractor/artifacts/protocol.go:91-105 | Distinct entity ids, names, types, a file for each entity and no generated id of the rejected shape are enough |
| ProtocolFlows.SharedIdFails | internal/extractor/artifacts/protocol.go:592-596 | A dependency with the id of the only exposure makes the builder's document fail |
| ProtocolBuilder.Builder.AddObservationsAndEvidence | internal/extractor/artifacts/protocol.go:404-481 | The three loops over locations and evidence compute the modelled record and its references |
| ProtocolBuilder.Builder.Search | internal/extractor/artifacts/protocol.go:904-931 | The loops over the lists find the first object of an id, list by list in the given order |
| ProtocolBuild.Find | internal/extractor/artifacts/protocol.go:318-397 | What that is: a match in a list such that no earlier place of that list, and no list before it, has a match; nothing is found only if no list has one |
| ProtocolBuilder.Builder.AppendObjectiveRefs | internal/extractor/artifacts/protocol.go:318-402 | Extends the first object of that id, in the order of the lists, by the references it lacks |
| ProtocolBuilder.Builder.EnsureDBResource | internal/extractor/artifacts/protocol.go:505-545 | Reuses a known key or an existing resource object, and otherwise records and appends a new one |
| ProtocolBuilder.Builder.Add | internal/extractor/artifacts/protocol.go:108-267 | addExposure and addDependency follow the modelled step, for new and for repeated object ids |
| ProtocolBuilder.Builder.AddConnection | internal/extractor/artifacts/protocol.go:547-590 | A connection between known entities adds one flow, with nodes and edges if it has a path |
| ProtocolBuilder.Builder.AddEntrypointTrace | internal/extractor/artifacts/protocol.go:592-612 | An exposure whose object starts no flow yet gets a trace with the object's evidence |
| ProtocolBuilder.AppendUniqueStrings | internal/extractor/artifacts/protocol.go:1525-1543 | Appends the trimmed values that are not blank and not there yet |
| ProtocolBuilder.NextOrdinal | internal/extractor/artifacts/protocol.go:483-503 | One more than the number of ids with the prefix |
| ProtocolBuilder.BuildChecked | internal/extractor/artifacts/protocol.go:42-106 | The whole of buildProtocol: the document built, and a verdict that is positive exactly for fit input |
| CompareLaws.ChangedFieldsExact | internal/workspace/archgraph/compare.go:226-242 | The listed fields are exactly those that differ, a missing field reading as null |
| CompareLaws.CompareMember | internal/workspace/archgraph/compare.go:51-69 | Every id with a difference is reported, with the change that holds there, and no other; no id is reported twice |
| CompareLaws.CompareIsPatch | internal/workspace/archgraph/compare.go:27-71 | Applying the comparison to the old facts, field by field, gives the new facts |
| CompareLaws.CompareFlips | internal/workspace/archgraph/compare.go:58-68 | The comparison the other way round is this one with both sides exchanged |
| CompareLaws.EmptyIffAgree | internal/workspace/archgraph/compare.go:58-69 | Nothing is reported exactly if the facts agree |
| CompareErrors.SilentMeansSameOccurrences | internal/workspace/archgraph/compare.go:96-123 | If nothing is reported, every object, flow and relationship occurs in both graphs with the same content and equally often |
| CompareErrors.SilentMeansSameService | internal/workspace/archgraph/compare.go:93 | If nothing is reported, every service of the old graph has one of that name in the new graph that agrees in every compared field |
| CompareErrors.SilentMeansSameResource | internal/workspace/archgraph/compare.go:126-171 | The same for every graph resource, tables and operations included, whatever legacy resources there are |
| CompareErrors.SilentMeansSameExternal | internal/workspace/archgraph/compare.go:172-178 | If nothing is reported, every external system of the old graph is in the new one |
| CompareLaws.CompareSorted | internal/workspace/archgraph/compare.go:46-52 | The report is sorted by kind and key |
| CompareOrder.PostingsFollow | internal/workspace/archgraph/compare.go:73-198 | Graphs that hold the same in another order post the same facts and occurrences |
| CompareOrder.FactsFollow | internal/workspace/archgraph/compare.go:218-224 | Postings in another order make the same facts or fail alike, because sorting by an injective key is canonical |
| CompareOrder.CompareIgnoresOrder | internal/workspace/archgraph/compare.go:73-224 | Reordering services, entities, connections, resources, tables, operations, externals, edges or edge details changes neither success nor report |
| CompareErrors.OccurrencesAgreeIff | internal/workspace/archgraph/compare.go:10-12 | Occurrences of one name compare equal exactly if they are equal as multisets |
| CompareErrors.FailsIffRepeated | internal/workspace/archgraph/compare.go:75-83 | A graph cannot be compared exactly if two services, resources, externals or legacy resources of one list share their identity |
| CompareErrors.ReorderedIsUnchanged | internal/workspace/archgraph/compare.go:27-71 | Comparing a graph with a reordering of itself reports nothing |
| CompareRun.RunCompare | internal/workspace/archgraph/compare.go:27-71 | Compare, with its error for a repeated identity in either graph |
| CompareRun.CompareMaps | internal/workspace/archgraph/compare.go:39-70 | The loop over the ordered ids computes the comparison |
| CompareRun.CollectChangedFields | internal/workspace/archgraph/compare.go:226-242 | The loop over the keys, met in any order, computes the sorted list of differing fields |
| CompareRun.CollectFacts | internal/workspace/archgraph/compare.go:73-198 | Collects facts, legacy facts and occurrences, and fails at a repeated identity |
| Ranges.AreaShrinksIff | internal/extractor/scip/ranges.go:102-133 | For a range strictly inside another the area is smaller exactly in the listed cases, int32 wrap included |
| Ranges.NarrowIsTold | internal/extractor/scip/ranges.go:117-133 | Below 4096 columns a single-line range is always told from the range around it |
| Ranges.WideIsMistaken | internal/extractor/scip/ranges.go:117-133 | A single-line range of 5000 columns with a larger area than the two-line range around it |
| Ranges.SymbolOfStanding | internal/extractor/scip/definitions.go:101-114 | SymbolAt returns the symbol of the first covering occurrence with one that no covering occurrence behind it undercuts in area, and nothing exactly if there is none |
| Ranges.SmallestTakenIff | internal/extractor/scip/definitions.go:81-83 | That is the first smallest covering occurrence with a symbol exactly if no covering one without a symbol behind it is smaller |
| Ranges.UnnamedMisleads | internal/extractor/scip/definitions.go:103-113 | A document in which an occurrence without a symbol makes SymbolAt return a larger one than the smallest with a symbol |
| Ranges.ChosenIsInnermost | internal/extractor/scip/definitions.go:81-88 | The occurrence SymbolAt takes never strictly contains a later covering single-line one of ordinary width nor, if no nameless one spoils the choice, any that has a symbol |
| Ranges.SymbolAt | internal/extractor/scip/definitions.go:93-115 | The scan returns the symbol of the occurrence it ends with, the first smallest covering one if that has a symbol, and nothing if none covers |
| Ranges.InferBodyRange | internal/extractor/scip/ranges.go:28-56 | The body runs from its definition to the line before the first sibling definition below it |
| Ranges.BodiesMeetIff | internal/extractor/scip/ranges.go:25-56 | Inferred bodies of two sibling definitions share a range exactly if they start on one line, and then they are the same |
| Ranges.CallsFromDefinition | internal/extractor/scip/calls.go:42-87 | Collects exactly the callable references inside the body, each once and in order |
| Ranges.OneCaller | internal/extractor/scip/calls.go:57-76 | A reference is a call of at most one of two sibling definitions on different lines |
| SplitArgs.SplitArguments | internal/extractor/ast/parse_helpers.go:36-68 | The loop cuts exactly at the commas a reference scanner sees at depth zero outside quotes; the parts join to the text and are clean |
| SplitArgs.JoinSplit | internal/extractor/ast/parse_helpers.go:32-35 | Joining the parts with commas gives the text back, for every text |
| SplitArgs.SplitIsClean | internal/extractor/ast/parse_helpers.go:32-35 | No part can be cut further, and every part but the last is closed as the scanner counts, with its quotes ended and its opening and closing signs, angle signs among them, balanced in number |
| SplitArgs.SplitJoin | internal/extractor/ast/parse_helpers.go:32-35 | Splitting the join of clean parts gives those parts, so the split is the only such division of a text |
| SplitArgs.SplitsTopLevelIff | internal/extractor/ast/parse_helpers.go:32-68 | The text is cut at its top-level commas exactly if at every comma outside quotes the angle signs before it do not matter to the depth being zero |
| SplitArgs.NoAnglesSuffices | internal/extractor/ast/parse_helpers.go:32-68 | Without an angle sign outside quotes the text is cut at its top-level commas |
| SplitArgs.LessThanHidesComma | internal/extractor/ast/parse_helpers.go:55-58 | A less-than sign hides the comma behind it |
| SplitArgs.GreaterThanHidesComma | internal/extractor/ast/parse_helpers.go:57-58 | A greater-than sign hides the comma behind it |
| SplitArgs.GreaterThanCutsInside | internal/extractor/ast/parse_helpers.go:57-58 | Inside parentheses it makes the text be cut between them |

## Left out

- AstWalker.WalkVerbose: the arguments, conditions and repetitions of a step are one opaque value; only the hop it stands for is read.
- ScipWalker.WalkFrom: `FollowImplementations` is always on, as `withDefaults` makes it; `SortPaths`, which reorders the result for display, is not modelled.
- EventBus.RunState.Subscribe: one stream is modelled, not the lookup of the stream by run id; the mirror file and `histStart`, which nothing reads, are left out.
- EventBus.RunsKeepInv: the timeout of the end marker and the delay of a late close are steps that may come at any time.
- Runner.RunsKeepInv: lifecycle events, persisted run state and directories on disk are not modelled.
- CatalogStore.NormalizeDocument: nil and empty lists are not told apart, and normalising a list in place is an update of a value; the sort is stable where Go's need not be, which differs for repeated ids only, and those are rejected.
- CatalogStore.Store.SaveManual: the file is one value that is replaced or not; reading a damaged file, the schema version and the wrap of a 64-bit revision are left out.
- Catalog.NormalEntityKey: the semantic key is an unknown function of kind, type, trimmed name, trimmed service and the remaining fields.
- ProtocolValidator.ValidateCanonical: gives the verdict, not the message; nil lists, data dependencies, side effects, loops and conditions of edges are left out.
- ProtocolValidator.ValidateFlow: data dependencies, side effects and the confidence of conditions, loops and repeats (protocol/validate.go:391-440) are left out.
- ProtocolValidator.Validate: the same parts of flows are left out.
- ProtocolBuilder.Builder.Add: the thirteen object lists are one list with a tag for the list, and the fields of an object that no validator reads are left out.
- ProtocolBuilder.BuildChecked: the service name, the data dependencies matched by field name and the metadata of a document are not modelled; sorting is by id over the one list.
- CompareRun.CollectFacts: the nested loops are flattened into the sequence of postings they make; nil entries and cancellation are left out.
- CompareLaws.CompareIsPatch: values are equal up to their JSON encoding, which is taken to be injective.
- Ranges.CallsFromDefinition: the calls before `sortCallSites`, as indices into the occurrences.
- Text is ASCII: white space and lower case follow ASCII, not Unicode.
- Tree-sitter and SCIP extraction, condition scanning, language and framework detection: foreign libraries or heuristics without a specification.
- Files, JSON and YAML encoding, git, Docker, HTTP and SSE handlers, the command line: I/O.
- Tail buffers, single flight, configuration merging, preflight checks: easy members.
