# Swobu, modelled in Dafny

Swobu routes one client request across configured provider targets. It keeps
conversation checkpoints so that a client can resume, learns which targets are
failing, and streams the answer back. This project models the parts of it whose
correctness spans many steps, and proves what they promise for every input,
every run and every reachable state.

The modules follow the program.

- `Canonical`, `Text`, `Wrappers`: request and response items, preludes and
  retained history, white space, results.
- `CheckpointStore`, `StoreHistories`, `StoreRoundTrips`: the segment-sharing
  in-memory store as an object, proved to refine a plain map of whole checkpoints,
  what sharing by fingerprint preserves over whole runs, and put followed by lookup.
- `Continuity`, `ContinuityOutcomes`, `ContinuityLaws`: begin, resume, finalize and
  continue; when each succeeds, what is omitted from a provider request and what
  storage evidence denotes.
- `Exchange`, `ExchangeLaws`, `ExchangeRuns`, `ExchangeTurns`, `ExchangeAnswers`,
  `ExchangeLaterRounds`, `ExchangeSharpness`, `McpRun`: the exchange reducer, its
  attempt ledger, what every kind of turn does, whole runs under the driver loop,
  and how long they can be.
- `Backoff`, `BackoffOutcomes`, `BackoffOrder`, `BackoffLedger`: suppression of
  failing targets under any interleaving of calls, what each completion does, and
  which completions commute.
- `Streams`, `StreamLaws`, `StreamInputs`, `StreamPipeline`: terminal conversion,
  capture and the commit gate, as functions, as laws over drains and over whole
  upstreams, and as the objects themselves.
- `Routing`, `RoutingEdits`, `RoutingLaws`, `RoutingOutcomes`, `RoutingConfig`,
  `Plan`: workspaces, edits, target versions, and the attempt order. The methods
  `Rename`, `SetDefault` and `Remove` compute the edits that the outcome laws are
  about.
- `ToolNames`, `ToolSpelling`, `Gif`, `Profile`, `ProfileLaws`, `ProfileChanges`:
  tool-name allocation and spelling, the GIF block walk, and the managed block of a
  shell profile.

Objects the program updates in place are classes whose methods are proved against
functions on their values; the laws are lemmas about those functions. Each object
guarded by a mutex is modelled one locked operation at a time, so an interleaving
is a sequence of operations. Clocks, stores, providers, tools, hashes and random
draws are parameters, and the laws hold for every behaviour of them.

## What the proofs brought out

- A checkpoint store put whose evidence is a visible-history fingerprint replaces
  the declared prefix by the representative on file, which may differ from the
  committed items, as `SpellingIsReplaced` shows.
  `FingerprintPutIsVerbatimExactlyWhen` states exactly when it does not, and
  `RunsKeepMeaning` what survives in either case. The token evidence of a loaded
  checkpoint is always verbatim.
- The stale-entry checks of reclaim and evict are never taken: the heap is in
  bijection with the records.
- A full-history retry after the first round whose preparation is unavailable
  moves on to a later candidate: `LaterRoundMovesOnExactlyWhen` and the run of
  `LaterRoundCanMoveOn`.
- The bound of 4n + 43 turns is attained for every non-empty plan, so the limit
  of 1000 turns is safe up to 239 targets and can be met from 240 on.
- Suppression deadlines are not monotone, and a refusal ignores its own hint:
  `DeadlineMovesForwardExactlyWhen`. Completions do not always commute:
  `CompletionsCommuteExactlyWhen`.
- A target version is never reused within a workspace, but deleting a workspace
  drops its ledger, so creating it anew starts again at the initial version.
- Rewriting a profile is a fixed point for exactly the endpoints without a quote
  and without a line that reads as a marker.

## Model

| member | source | states |
|---|---|---|
| `Canonical.SplitAtSeam` | internal/domain/canonical/context.go:22-72 | Any request-scoped prelude followed by unscoped history splits back into exactly those two parts, and the history is what is retained |
| `Canonical.SplitRetains` | internal/domain/canonical/context.go:22-72 | Splitting a request and retaining its history are two routes to the same items |
| `Canonical.PreludeIsItsBands` | internal/domain/canonical/context.go:22-62 | A prelude is its directive band and its declaration band in the order it reports, so rebuilding it from the bands loses nothing |
| `Canonical.BandsMakePrelude` | internal/domain/canonical/context.go:22-62 | Conversely, any two bands joined in either order form an admissible prelude whose directives and declarations are exactly those two bands, in the order given |
| `Canonical.ResponseItemsAreHistory` | internal/domain/canonical/canonical_response.go:136-168 | No item a response may carry is request-scoped, so appending a response never moves the prelude seam |
| `CheckpointStore.MemoryStore.Get` | internal/continuity/store_memory.go:91-104 | Refines a plain map of whole checkpoints: expired ones leave, nothing else changes, and the answer is exactly the stored prelude, history and response or a miss; of the representatives exactly those a live record reaches remain |
| `CheckpointStore.MemoryStore.FindByHistory` | internal/continuity/store_memory.go:106-129 | Answers exactly when one live checkpoint of that workspace carries the history, with that checkpoint; ambiguity and absence are misses; contents and representatives change as for a lookup by identity |
| `CheckpointStore.MemoryStore.Put` | internal/continuity/store_memory.go:131-178 | Every refusal with what it leaves behind; otherwise the plain map loses its expired records, at most one least-expiry record, and gains one checkpoint that carries every committed field over, its history fingerprint and response included, expires at its own deadline or a day after preparation, and without reuse evidence also keeps the request items; the representatives are those the remaining records reach plus what the put reused under its fingerprint |
| `CheckpointStore.VerbatimIffExact` | internal/continuity/store_memory.go:131-259 | On the committed checkpoint's own fields: everything but the request items is always carried over, and they are too exactly when the evidence denotes a true prefix of the retained history |
| `StoreRoundTrips.AcceptedExactlyWhen` | internal/continuity/store_memory.go:131-196 | A put passes every check exactly when the workspace is named, the response committed, resumable and laid out, the deadline ahead, the identity free, and the evidence fits the retained history |
| `StoreRoundTrips.PutThenGet` | internal/continuity/store_memory.go:91-178 | A put followed by a lookup under any spelling of the workspace finds the checkpoint exactly before its deadline, with the committed fields |
| `StoreRoundTrips.PutThenFind` | internal/continuity/store_memory.go:106-178 | A put followed by a lookup by its own fingerprint finds it exactly before its deadline, unless another live checkpoint carries the same fingerprint |
| `CheckpointStore.MemoryStore.ResolveStorageReuse` | internal/continuity/store_memory.go:227-259 | Every kind of refused evidence, and for admitted evidence the items it stands for and how much of the history they cover |
| `CheckpointStore.MemoryStore.ReclaimExpired` | internal/continuity/store_memory.go:285-298 | Removes exactly the expired records and keeps the joint invariant of records, heap, history index and visible tails |
| `CheckpointStore.MemoryStore.EvictOldest` | internal/continuity/store_memory.go:300-311 | Removes exactly one record, of least expiry, and keeps the joint invariant |
| `CheckpointStore.MemoryStore.DeleteRecord` | internal/continuity/store_memory.go:313-325 | Removes the record from the record map and the history index, leaving no empty index set |
| `CheckpointStore.MemoryStore.SweepVisibleHistory` | internal/continuity/store_memory.go:327-342 | Keeps exactly the visible tails that some live record still reaches |
| `CheckpointStore.CollectChain` | internal/continuity/store_memory.go:330-336 | The walk that stops at the first segment already collected still collects the whole chain |
| `CheckpointStore.CollectReachable` | internal/continuity/store_memory.go:327-337 | The collected set is exactly the segments reachable from live records |
| `CheckpointStore.MaterializeItems` | internal/continuity/store_memory.go:216-225 | Filling the array from the back yields the chain of segments in order |
| `CheckpointStore.AppendSegment` | internal/continuity/store_memory.go:198-207 | The appended tail flattens to the parent history followed by the new items, sharing the parent |
| `CheckpointStore.IndexAnswers` | internal/continuity/store_memory.go:106-129 | The history index decides uniqueness exactly as counting carriers among the records would |
| `CheckpointStore.ConsistentWith` | internal/continuity/store_memory.go:131-178 | Adding a record with its heap entry and index entry keeps heap bijection, index inverse image and capacity |
| `CheckpointStore.ConsistentWithout` | internal/continuity/store_memory.go:313-325 | Removing a record with its heap entry and index entry keeps heap bijection and index inverse image |
| `StoreHistories.FingerprintPutIsVerbatimExactlyWhen` | internal/continuity/store_memory.go:247-256 | A put that declares a fingerprint is stored as committed if and only if the store has no representative for it or the representative is the declared prefix |
| `StoreHistories.RunsKeepMeaning` | internal/continuity/store_memory.go:91-342 | Along every run whose puts carry true evidence, through any expirations, evictions and sweeps, every representative is a spelling of its fingerprint, and every accepted put is stored as committed up to another spelling of its declared prefix |
| `StoreHistories.RunsStoreVerbatim` | internal/continuity/store_memory.go:91-342 | When each fingerprint has one spelling, every accepted put of such a run is stored exactly as committed |
| `StoreHistories.Perform` | internal/continuity/store_memory.go:91-178 | Every lookup and every put of the store object is one step of the runs those laws are about |
| `StoreHistories.PutUnder` | internal/continuity/store_memory.go:131-178 | Under a fingerprint on file a put is stored with the representative in place of what it declares, and becomes or stays the representative |
| `StoreHistories.PutTwice` | internal/continuity/store_memory.go:247-256 | Of two puts to a new store under one fingerprint the second is stored as committed if and only if it declares the same items as the first, or the first declared none |
| `StoreHistories.SpellingIsReplaced` | internal/continuity/store_memory_test.go:449-468 | Two puts after which a stored checkpoint is not the committed one: three items committed, two stored |
| `CheckpointStore.CheckpointsPersist` | internal/continuity/store_memory.go:91-325 | Along every run a stored checkpoint stays exactly as put until its deadline passes or it is the least-expiry record of a full store, whatever happens to records sharing its segments |
| `CheckpointStore.CapacityHolds` | internal/continuity/store_memory.go:162-164 | Along every run there are at most 1024 records |
| `CheckpointStore.AcceptedPutAdds` | internal/continuity/store_memory.go:131-178 | An accepted put is one adding step of the plain-map run the two laws above are about |
| `Continuity.ResolveTurnContinuation` | internal/continuity/resolve.go:238-277 | The loop over the new items reports the first problem in order and otherwise the context a turn resumes with, as the two laws below state on the request and the checkpoint |
| `ContinuityOutcomes.ContinuationOutcome` | internal/continuity/resolve.go:238-277 | A continuation is refused by the first result nobody called for, that answers a search call or is a search result, or that repeats an earlier one, with that reason; otherwise it is the request as it is when it brings no result, and the repeated context when it does |
| `ContinuityOutcomes.PendingIsLastIssued` | internal/continuity/resolve.go:238-246 | A call counts as what it was last issued as, however often its ID was used |
| `ContinuityLaws.RepeatedContext` | internal/continuity/resolve.go:279-316 | Repeating an unfinished turn's context succeeds exactly when both requests are laid out; the result splits into the new history and a prelude whose directives and declarations are the new request's where it brings any and the earlier one's where not, in the order of whoever brings both |
| `ContinuityOutcomes.BeginOutcome` | internal/continuity/resolve.go:109-161 | A conversation begins exactly with a request that names no predecessor, has one tool policy, and is laid out and valid once its open choices are settled; nothing else about it changes and no history is offered |
| `ContinuityOutcomes.ResumeDraftedExactlyWhen` | internal/continuity/resolve.go:163-186 | A resumption is drafted exactly when the request names the checkpoint or nothing, the response is committed and its results continue the turn |
| `ContinuityOutcomes.ResumeOutcome` | internal/continuity/resolve.go:120-128 | Resuming gives the prelude, the checkpoint's retained history and response, then the new history, under the model the request or else the checkpoint states; it succeeds exactly when this is valid and its coordinates fit 32 bits |
| `ContinuityOutcomes.LoadedOutcome` | internal/continuity/resolve.go:192-218 | A prepared draft is accepted exactly when preparation left everything but the prelude, the coordinates fit and the joined request is valid; the provider-held part is offered exactly when the response left a native handle |
| `ContinuityOutcomes.RelationAdmittedExactlyWhen` | internal/continuity/resolve.go:397-413 | A relation to provider-held history is admitted exactly when a provider left a handle and the omitted items lie in the request, right after its prelude |
| `ContinuityLaws.RepeatRestoresPrelude` | internal/continuity/resolve.go:279-316 | Repeating an unfinished turn in front of bare results restores the earlier prelude exactly |
| `ContinuityLaws.ContinuationIsResume` | internal/continuity/resolve.go:56-78 | Continuing in process after local results gives the same items, fields and omitted range as checkpointing the response and resuming with only those results, and succeeds in the same cases |
| `ContinuityLaws.FinalizedOmitsExactly` | internal/continuity/resolve.go:192-218 | Finalizing a resumed draft omits exactly the history and response the provider holds, and offers the range exactly when the response left a native handle |
| `ContinuityLaws.ContinuedOmitsExactly` | internal/continuity/resolve.go:56-78 | A local-result round omits exactly the history before it and the response it answers, and retains them with the results |
| `ContinuityLaws.ChainLaw` | internal/continuity/resolve.go:345-374 | Along every chain of begin or resume, prelude preparation and tool rounds the request stays well shaped, the omitted range is exactly the provider-known items, and the history the exchange started from is still a prefix |
| `ContinuityLaws.OfferedExactlyWhen` | internal/continuity/resolve.go:80-94 | A target generation is offered provider-held history exactly when the last response left a handle bound to that generation and the request may be stored; what it omits is exactly what that provider holds, and no other generation is offered it |
| `ContinuityLaws.EvidenceHolds` | internal/continuity/store_memory.go:227-259 | The evidence an exchange carries is refused at commit only if the codec counted a negative prefix; a loaded checkpoint's token denotes a true prefix; a declared fingerprint keeps the commit verbatim exactly when no other spelling is on file |
| `ContinuityLaws.ChainIsTruthful` | internal/exchange/exchange_state.go:354-385 | Committing any chain is an act with true evidence of the store runs above, as soon as the codec's declared prefix spells its fingerprint |
| `ContinuityLaws.CommitChain` | internal/exchange/exchange_state.go:354-385 | Committing any chain, loaded or fresh, at any later time is refused only for an early problem, a duplicate or a misdeclared prefix, and stores the commit itself if and only if its declared prefix is undisputed; always, for a loaded checkpoint |
| `Exchange.NextEligibleRouteCandidate` | internal/exchange/exchange_state.go:650-663 | The loop finds the first unsuppressed candidate at or after the start, or that there is none |
| `Exchange.CandidateRoundDispatchCount` | internal/exchange/exchange_state.go:738-748 | The loop counts the dispatches of one candidate in one round |
| `ExchangeTurns.CountIsDispatched` | internal/exchange/exchange_state.go:738-748 | That count is the number of attempts of that candidate in that round |
| `Exchange.AdvanceProviderExecutionFrom` | internal/exchange/exchange_state.go:623-642 | The loop that replaces its selection reaches the same outcome as walking the plan recursively |
| `ExchangeLaws.SelectableNotConsumed` | internal/exchange/exchange_state.go:582-594 | No selection the reducer may make was dispatched before, so the already-consumed violation is unreachable |
| `ExchangeLaws.DispatchKeepsLedger` | internal/exchange/provider_call_attempt.go:94-124 | Dispatching a selectable operation keeps the ledger ordered, paired, placed on unsuppressed targets and explained |
| `ExchangeLaws.SettleKeepsLaw` | internal/exchange/provider_call_attempt.go:62-92 | Failing or completing the attempt in flight keeps the ledger law |
| `ExchangeLaws.AtMostTwoDispatches` | internal/exchange/exchange_state.go:738-762 | In a lawful ledger no candidate is dispatched more than twice in a round |
| `ExchangeLaws.DispatchedOnce` | internal/exchange/exchange_state.go:582-594 | In a lawful ledger no candidate is dispatched twice with the same request choice in a round |
| `ExchangeLaws.SelectNextIsSelectable` | internal/exchange/exchange_state.go:665-683 | Whatever the reducer selects next after a failure, the ledger can take |
| `ExchangeLaws.LaterRoundsStayPut` | internal/exchange/exchange_state.go:665-683 | What the reducer selects after a failure in a round past the first is the same candidate with full history, or nothing |
| `ExchangeLaterRounds.LaterRoundMovesOnExactlyWhen` | internal/exchange/exchange_state.go:623-683 | In a round past the first a turn dispatches another candidate if and only if a full-history retry was admitted, its preparation was unavailable, and that candidate is the first eligible one that could be prepared before any broke |
| `ExchangeLaterRounds.LaterRoundCanMoveOn` | internal/exchange/exchange_state.go:623-683 | A run from the start in which the second provider round does leave its candidate |
| `ExchangeLaws.ReprojectionIsSelectable` | internal/exchange/exchange_state.go:570-595 | Reprojecting after learnt facts is a selection the ledger can take while the pair was dispatched once |
| `ExchangeLaws.AdvanceFromAdvances` | internal/exchange/exchange_state.go:623-642 | Walking the plan from a selectable operation either dispatches exactly one attempt at or after it, every candidate passed being suppressed or unavailable to prepare, or reports the failure |
| `ExchangeTurns.WalkDispatches` | internal/exchange/exchange_state.go:612-642 | The walk dispatches the candidate it lands on, the selection itself in its own form and any later one in the preferred form |
| `ExchangeTurns.FailureTurn` | internal/exchange/exchange_state.go:480-642 | In every reachable configuration whoever follows a failure is decided by the raw fields of its cause: a full-history retry after a rejected native reference, a reprojection after learnt facts, the first later candidate that can take the call when the first round's call was unavailable or rejected, or the end of the run |
| `ExchangeTurns.FailureDecides` | internal/exchange/exchange_state.go:665-713 | After any failed attempt the reducer retries, moves on or ends exactly as those fields say, and an end names the failure's own problem |
| `ExchangeTurns.LookupTurn` | internal/exchange/exchange_state.go:486-503 | Facts are looked up in a turn that calls nobody, records the failure, and takes back only facts the attempt had read |
| `ExchangeTurns.ProviderProblemIsExhaustive` | internal/exchange/exchange_state.go:685-713 | A run ends in a provider problem only after its last attempt failed, with that failure's problem, and if the failure lets others have the call every later candidate was suppressed |
| `ExchangeAnswers.StartTurn` | internal/exchange/exchange_state.go:307-336 | A run whose predecessor is named or whose request was rebased loads a checkpoint first, a blank predecessor is refused, and any other run is drafted and planned at once |
| `ExchangeAnswers.LoadTurn` | internal/exchange/exchange_state.go:338-408 | A loaded run goes on unless loading, drafting or planning failed or the named predecessor is not there |
| `ExchangeAnswers.PrepareTurn` | internal/exchange/mcp_preparation.go:28-53 | The first call goes to the first candidate that can take it; with none the run tells an empty plan, a wholly suppressed one and an unpreparable one apart |
| `ExchangeAnswers.ClassifiedAs` | internal/mcp/run.go:342-365 | A round is refused exactly when it mixes bound calls with calls the caller must execute, and is the caller's alone exactly when none is bound |
| `ExchangeAnswers.AnswerTurn` | internal/exchange/exchange_state.go:506-568 | A decoded answer completes the run, is refused for a mix of calls, or makes the run's own calls if they are still affordable, stated on the calls and what was spent |
| `ExchangeAnswers.ToolTurn` | internal/exchange/mcp_tool_loop.go:11-76 | Tool calls go out one at a time in order; after the last the same candidate is called again in the preferred form; a refused batch, a failed call or an unpreparable request ends the run |
| `ExchangeAnswers.ReductionCommands` | internal/exchange/exchange_state.go:286-305 | In every phase and for every event, a reduction that does not end the run commands exactly what its new phase waits for, and one that ends it commands nothing |
| `ExchangeAnswers.AffordableIsReserved` | internal/mcp/run.go:386-406 | A batch is granted exactly when it is not empty, every call is bound, and both budgets allow all of it |
| `ExchangeRuns.StepMoves` | internal/exchange/exchange_loop.go:79-110 | From every configuration satisfying the run invariant, one turn in any world keeps it, never faults, and strictly lowers the measure, or ends lawfully |
| `ExchangeRuns.RunLaw` | internal/exchange/exchange_loop.go:79-110 | Any number of turns from a sound configuration stays sound and spends at least one unit of the measure each |
| `ExchangeRuns.NoRunFaults` | internal/exchange/exchange_loop.go:79-110 | In no world does a run break one of the machine's own invariants, and every end state is lawful |
| `ExchangeRuns.EveryRunEnds` | internal/exchange/exchange_loop.go:79-110 | Every run of a plan of n targets ends within 4n + 43 turns, whatever the providers, tools and facts do |
| `ExchangeSharpness.BoundIsAttained` | internal/exchange/exchange_loop.go:79-110 | For every non-empty plan there is a world in which the run takes exactly 4n + 43 turns |
| `ExchangeRuns.EveryStateIsLawful` | internal/exchange/provider_call_attempt.go:62-124 | In every state of every run: candidates never go back, no suppressed target is attempted, no operation is dispatched twice, no pair more than twice, and the last attempt alone is in flight exactly while a provider is called |
| `ExchangeRuns.LedgerOnlyGrows` | internal/exchange/provider_call_attempt.go:62-124 | Between any two points of a run the ledger is append-only: issued attempts stay issued and settled ones keep their outcome |
| `ExchangeRuns.Drive` | internal/exchange/exchange_loop.go:79-110 | The loop with its cut-off of 1000 returns what that many turns of the machine give |
| `ExchangeRuns.RunExchange` | internal/exchange/exchange_loop.go:25-111 | The result is what 1000 turns of the machine give; no run violates an invariant, every end is lawful, and plans of at most 239 targets never meet the transition limit |
| `ExchangeSharpness.LimitIsMet` | internal/exchange/exchange_loop.go:79-110 | Every plan of 240 targets or more has a world in which the driver gives up at the transition limit |
| `ExchangeRuns.SummarizeRoutingEvidence` | internal/exchange/exchange_loop.go:456-469 | Possible duplicate work is reported exactly when an attempt before the last may have executed |
| `ExchangeRuns.RecoveryIsTruthful` | internal/exchange/exchange_loop.go:456-469 | A completed run counts as recovered exactly when the target that answered was not the first of the plan |
| `ExchangeRuns.NoAvailableTargetIsExact` | internal/exchange/exchange_state.go:685-713 | A run that reached provider selection ends in no available target exactly when the plan is non-empty and wholly suppressed |
| `McpRun.Run.Calls` | internal/mcp/run.go:342-365 | Splits a response into remote calls or refuses a mix with calls the client must execute |
| `McpRun.Run.BeginBatch` | internal/mcp/run.go:386-406 | Reserves a round and its calls exactly when all are bound and both budgets allow it; a refusal spends nothing |
| `McpRun.RemoteCallsAreBound` | internal/mcp/run.go:342-365 | Remote calls are exactly the bound ones, each once and in the round's order |
| `McpRun.BudgetHolds` | internal/mcp/run.go:386-406 | Over any sequence of batches at most 8 rounds and 16 calls are ever reserved |
| `Backoff.NextBackoffFollows` | internal/exchange/target_backoff.go:243-251 | The next delay is the next power of two of seconds, capped at fifteen minutes |
| `Backoff.HintAdmittedExactlyWhen` | internal/provider/failure.go:217-237 | A Retry-After hint (section 10.2.3 of RFC 9110) is admitted exactly when it is a number of seconds whose nanoseconds fit a signed 64-bit duration, or a date yet to come; it then means that long from now, or that date |
| `Backoff.MoveKeeps` | internal/exchange/target_backoff.go:109-241 | Every admission, completion and clean-up of one target generation keeps the ledger invariant |
| `Backoff.AdmissionIsMarked` | internal/exchange/target_backoff.go:109-129 | A call is marked suppressed exactly when it is admitted ahead of the recorded deadline |
| `Backoff.SuppressedCallNeverEscalates` | internal/exchange/target_backoff.go:131-213 | A call admitted ahead of a deadline never lengthens the delay nor starts an epoch when it completes, whatever happens in between, and moves a live deadline only to a later hint |
| `Backoff.CurrentFailureEscalates` | internal/exchange/target_backoff.go:160-206 | A call admitted with no deadline ahead, still of the current epoch and not overtaken, lengthens the delay when its transport fails, to the next delay from now or a later hint |
| `BackoffOutcomes.OutdatedFailureOutcome` | internal/exchange/target_backoff.go:156-179 | A transport failure of a spent epoch or a suppressed call keeps delay and epoch and moves the deadline only to a later hint; with neither record nor hint nothing is recorded |
| `BackoffOutcomes.RefusalOutcome` | internal/exchange/target_backoff.go:182-206 | A refusal of the target itself that nobody overtook records its class, incompatible once anyone said so; a current call lengthens the delay and sets the deadline from now, any other leaves both |
| `BackoffOutcomes.OvertakenRefusalOutcome` | internal/exchange/target_backoff.go:183-192 | One overtaken by a later answer or suppression at most marks a held record incompatible |
| `BackoffOutcomes.OtherRejectionOutcome` | internal/exchange/target_backoff.go:207-209 | Any other rejection clears a transport record no later suppression renewed, and nothing else |
| `BackoffOutcomes.AnswerOutcome` | internal/exchange/target_backoff.go:147-152 | An answer clears the record exactly when no later call was suppressed |
| `BackoffOutcomes.PassOutcome` | internal/exchange/target_backoff.go:232-241 | Time passing drops exactly the records whose deadline passed fifteen minutes ago, and with such a record the entry nobody needs |
| `BackoffOutcomes.StaleRefusalIsIgnored` | internal/exchange/target_backoff.go:131-213 | Once a call was answered, a refusal of one admitted before it neither suppresses the target nor lengthens its delay, however much happens between |
| `Backoff.EveryRunIsSound` | internal/exchange/target_backoff.go:109-223 | Under any interleaving a suppression is justified by a later suppression than ingress, sequences are ordered, in-flight equals the outstanding calls, and an entry exists exactly while needed |
| `Backoff.HeldGrows` | internal/exchange/target_backoff.go:215-223 | While a call is outstanding its entry survives and everything learnt only grows |
| `Backoff.StaleFailureIsIgnored` | internal/exchange/target_backoff.go:131-213 | A transport failure admitted no later than some completed reaching call changes neither record nor epoch, however much happens between |
| `Backoff.EarlierSuccessClearsNothing` | internal/exchange/target_backoff.go:131-213 | A success admitted before the latest suppression never clears it |
| `Backoff.StrongRecordsYieldOnlyToIngress` | internal/exchange/target_backoff.go:131-213 | Records of class unavailable or incompatible go, stale clean-up aside, exactly when a later-admitted call answers, and never weaken |
| `Backoff.OneEscalationPerEpoch` | internal/exchange/target_backoff.go:160-206 | All calls admitted at one epoch lengthen the delay at most once between them |
| `Backoff.DelayCountsEscalations` | internal/exchange/target_backoff.go:160-206 | In every reachable state the delay after k escalations is min(2^(k-1) seconds, 15 minutes), and 0 for k = 0 |
| `Backoff.HintIsHonoured` | internal/exchange/target_backoff.go:160-206 | An accepted transport failure with a valid hint leaves a deadline no earlier than the hint |
| `Backoff.DeadlineMovesForwardExactlyWhen` | internal/exchange/target_backoff.go:160-206 | While a record survives a step its deadline comes forward if and only if the step sets a new one, the lengthened delay ends before the old one, and, after a transport failure, any hint does too; a refusal's hint is not consulted |
| `Backoff.DeadlineCanMoveForward` | internal/exchange/target_backoff.go:160-206 | Runs from the empty ledger in which a deadline comes forward: by a transport failure, and by a refusal whose own hint is later than the deadline it replaces |
| `BackoffOrder.CompletionsCommuteExactlyWhen` | internal/exchange/target_backoff.go:131-213 | Two outstanding completions at one instant leave the same record and entry in either order if and only if a condition on their classes, sequences, epochs and the record holds, decided for every pair of classes |
| `BackoffOrder.OutstandingAreOrdered` | internal/exchange/target_backoff.go:109-129 | Distinct outstanding calls differ in sequence, so the law above covers every pair |
| `BackoffOrder.CompletionOrderMatters` | internal/exchange/target_backoff.go:131-213 | A run from the empty ledger to two outstanding calls whose completions leave different records in the two orders |
| `BackoffLedger.TargetBackoffLedger.Snapshot` | internal/exchange/target_backoff.go:92-107 | Answers exactly the generations of the workspace whose suppression is live, and applies only the stale clean-up |
| `BackoffLedger.TargetBackoffLedger.Begin` | internal/exchange/target_backoff.go:109-129 | Admits one call: it is marked suppressed exactly when the recorded deadline lies ahead, its key makes the admission step, every other key only the clean-up |
| `BackoffLedger.TargetBackoffLedger.Observe` | internal/exchange/target_backoff.go:131-223 | Completes one outstanding call: its key makes the completion step, every other key only the clean-up, and the invariant holds of all |
| `BackoffLedger.TargetBackoffLedger.Cleanup` | internal/exchange/target_backoff.go:232-241 | Drops exactly the stale records, and entries with nothing in flight and no record |
| `StreamLaws.CompletionIsCommitted` | internal/exchange/checkpoint_terminal_gate.go:35-98 | For every upstream and any number of pulls: at most one response terminal, at most one store call, and a completed end only if the checkpoint was stored by then |
| `StreamLaws.GateHoldsFinishes` | internal/exchange/checkpoint_terminal_gate.go:35-64 | Up to the end everything but finish events passes in order, finish events are held, and the next pull settles the end |
| `StreamLaws.SuccessOutput` | internal/exchange/checkpoint_terminal_gate.go:65-98 | On success the output is the visible events in order, the held finish events, the completed end, then only the end of the stream, and the checkpoint was stored |
| `StreamLaws.CommitFailureOutput` | internal/exchange/checkpoint_terminal_gate.go:77-94 | On commit failure the output is the visible events, one error, one error end, and the commit error on every later pull; finish events and the completed end never appear |
| `StreamLaws.CommitFailureShape` | internal/exchange/terminal_response_stream.go:122-139 | The failure is exactly one error and one error end, of the exchange and next in number after the last event the client saw, in the response's own envelope |
| `StreamLaws.FailedResponseOutput` | internal/exchange/checkpoint_terminal_gate.go:60-64 | A response that ends in error is delivered as it came, finish events included, then only the end of the stream, and nothing is committed |
| `StreamLaws.UncapturedOutput` | internal/exchange/checkpoint_terminal_gate.go:66-73 | A completed end whose response was not captured is withheld for good: one commit error, then only the end of the stream, however often it is pulled, and nothing is committed |
| `StreamInputs.CaptureAtTheEnd` | internal/exchange/checkpoint_capture_stream.go:51-118 | From the opening, for every coherent upstream that reaches a completed end, the capture holds exactly the projection of all the cleaned events and its checkpoint form |
| `StreamInputs.ResponseOutput` | internal/exchange/checkpoint_terminal_gate.go:35-98 | The whole output of such an upstream, by what the store answers for the checkpoint form of the projection of its events |
| `StreamInputs.BrokenOutput` | internal/exchange/terminal_response_stream.go:39-78 | An upstream that breaks off after the response started, other than by cancellation, gives the visible events, one error that explains the break, the finish events, one error end, then only the end of the stream |
| `StreamInputs.PlainBreak` | internal/exchange/terminal_response_stream.go:39-78 | Before the start, and on cancellation, the break itself comes out and no event is made up for it |
| `StreamInputs.ErrorEndOutput` | internal/exchange/checkpoint_terminal_gate.go:60-64 | An upstream that ends its response in error is passed on as it came and nothing is committed |
| `StreamInputs.IncoherentOutput` | internal/exchange/checkpoint_capture_stream.go:51-118 | An upstream with a foreign identity or events that do not fold is never captured: each foreign identity comes out as a mismatch and the completed end is withheld for good |
| `StreamInputs.FirstResultStands` | internal/exchange/checkpoint_capture_stream.go:127-143 | However often the stream is pulled the first result of the capture stands, and so does the failure that ended the response |
| `StreamInputs.LastIsLastSeen` | internal/exchange/checkpoint_terminal_gate.go:35-98 | However often the stream is pulled, the gate's last event is the last one the client saw, and nothing stays held behind a terminal event |
| `StreamPipeline.TerminalResponseStream.Next` | internal/exchange/terminal_response_stream.go:30-88 | One pull updates the object exactly as the stream function says: sanitizing, converting a read failure after start into one error and one error end |
| `StreamPipeline.CheckpointCaptureStream.Next` | internal/exchange/checkpoint_capture_stream.go:51-118 | One pull updates source and capture exactly as the stream function says: identity checks, folding, projecting at the completed end; what the capture then holds is stated on the upstream's own events by StreamInputs.CaptureAtTheEnd |
| `StreamPipeline.CheckpointCommitter.CommitDocument` | internal/exchange/checkpoint_committer.go:55-76 | The store is asked once and its answer stands |
| `StreamPipeline.CheckpointTerminalGate.Next` | internal/exchange/checkpoint_terminal_gate.go:35-98 | One pull of the object pipeline is one pull of the pipeline value the laws are about |
| `StreamPipeline.NewPipeline` | internal/exchange/checkpoint_terminal_gate.go:29-33 | A pipeline of fresh objects starts as the value the laws start from |
| `Routing.NewTier` | internal/routing/model.go:361-377 | Accepts exactly non-empty groups of valid targets with distinct IDs |
| `Routing.ValidateRoute` | internal/routing/model.go:316-339 | Accepts exactly named routes of non-empty tiers whose targets are valid and distinct across all tiers |
| `Routing.ValidateWorkspace` | internal/routing/model.go:222-250 | Accepts exactly workspaces whose routes are valid, keyed by their names, include the default, and share no target ID, in whatever order routes are visited |
| `Routing.RestoreWorkspace` | internal/routing/model.go:194-220 | Succeeds exactly when the ledger agrees with the active versions and the workspace is valid, and then the ledger holds every active version |
| `RoutingEdits.ApplySpec` | internal/routing/reconcile.go:53-99 | Materializes the whole desired route or refuses it; entries settle independently of their position |
| `RoutingEdits.AddRoute` | internal/routing/edit.go:60-87 | Creating a route: conflict, exhausted version, invalid target, or the restored workspace with a version its first target never had |
| `RoutingOutcomes.CreateOutcome` | internal/routing/edit.go:60-87 | In every tracked workspace a route is created exactly when its name is free and not empty and its target is complete, under an ID no route runs and with a version to give; it then holds that one target, past every version the ID had, and only that ID's generation moves |
| `RoutingOutcomes.ApplyOutcome` | internal/routing/reconcile.go:53-146 | In every tracked workspace a spec is applied exactly when it has no empty tier, names no ID twice nor one another route runs, and every entry is complete and has a version to take; the route then holds the spec, each target dated by what the route and the ledger held, and nothing else changes |
| `RoutingLaws.RenameOutcome` | internal/routing/edit.go:89-106 | In every tracked workspace a rename moves the route and the default with it, keeps every target, version and the ledger, and is refused exactly for a missing route, a taken name or the empty name |
| `RoutingLaws.RenameRoundTrip` | internal/routing/edit.go:89-106 | Renaming back restores the workspace, ledger included |
| `RoutingLaws.SetDefaultOutcome` | internal/routing/edit.go:108-116 | In every tracked workspace choosing a default changes nothing else and is refused only for a missing route |
| `RoutingLaws.DeleteOutcome` | internal/routing/edit.go:118-141 | In every tracked workspace a delete keeps every other route, the whole ledger and an existing default, and is refused exactly for a missing route, the last one, or a missing or bad replacement |
| `RoutingLaws.RecreatedTargetMovesOn` | internal/routing/edit.go:60-141 | A target deleted with its route and created again gets one past the version it had, whatever its settings |
| `RoutingEdits.Reconcile` | internal/routing/reconcile.go:128-146 | Applying a spec in a workspace: the reconciled route in place and its versions written to the ledger, or the refusal |
| `RoutingLaws.EditTracks` | internal/routing/edit.go:60-141 | Every accepted edit keeps: active versions equal their generation, generations never fall, and every ID and version ever active names one settings value |
| `RoutingLaws.VersionsAreNeverReused` | internal/routing/reconcile.go:53-146 | From any restored workspace and over any sequence of edits, delete and re-add included, no target version is reused for other settings |
| `RoutingLaws.VersionsFollowSettings` | internal/routing/reconcile.go:101-125 | A target keeps its version while its settings stay, goes up by one when they change, and starts one past its highest version ever when added again |
| `RoutingLaws.AppliedIsDesired` | internal/routing/reconcile.go:26-99 | After applying a spec the route reads back exactly that spec and nothing else of the workspace's routes changed |
| `RoutingLaws.OwnSpecIsIdentity` | internal/routing/reconcile.go:26-146 | Applying a route's own spec leaves the workspace exactly as it was |
| `RoutingConfig.OtherWorkspacesStay` | internal/routing/edit.go:171-183 | An edit of one workspace leaves every other unchanged |
| `RoutingConfig.PublicationAccepts` | internal/routing/edit.go:171-183 | An accepted workspace edit is never refused when the configuration is republished |
| `RoutingConfig.SurvivingWorkspaceNeverReuses` | internal/routing/edit.go:15-141 | Through any configuration edits that do not delete it, renames included, a workspace never reuses a target version for other settings |
| `RoutingConfig.RecreatedWorkspaceForgets` | internal/routing/edit.go:15-58 | Deleting and creating a workspace anew does reuse a version for other settings: the ledger goes with the workspace |
| `Plan.SortInPlace` | internal/routing/plan.go:19-22 | Sorting the copied targets in place gives the sorted order |
| `Plan.ShuffleInPlace` | internal/routing/plan.go:23-25 | Exchanging in place from the back gives the seeded permutation |
| `Plan.BuildPlan` | internal/routing/plan.go:15-30 | The plan is the tiers' placed blocks in fallback order |
| `Plan.BlockIsPermutation` | internal/routing/plan.go:15-30 | Each block is a permutation of its tier, for every seed and generator |
| `Plan.EveryOrderCanBeDrawn` | internal/routing/plan.go:15-30 | No order of a tier is out of reach: for each there is a generator within its bounds that places the tier so |
| `Plan.PlanCoversRoute` | internal/routing/plan.go:15-30 | The plan attempts exactly the route's targets |
| `Plan.SortForgetsOrder` | internal/routing/plan.go:19-22 | Sorting by ID depends on the set of targets only |
| `Plan.PlanForgetsTierOrder` | internal/routing/plan.go:15-30 | Reordering targets inside tiers does not change the plan, for any generator determined by seed and length |
| `ToolNames.CollectDeclaration` | internal/provider/tool_names.go:105-126 | The recursive walk collects exactly the callable keys of a declaration tree, each once |
| `ToolNames.CollectKeys` | internal/provider/tool_names.go:28-51 | Collects exactly the declared callable keys and the callable keys of historical calls, each once |
| `ToolNames.CallableExactlyWhen` | internal/provider/tool_names.go:28-126 | The named keys are exactly those of callable declarations, at any depth of namespaces, and of earlier calls a client could make again |
| `ToolNames.CountShared` | internal/provider/tool_names.go:52-62 | A base name is counted more than once exactly when another key shares it |
| `ToolNames.BuildNames` | internal/provider/tool_names.go:28-86 | Succeeds exactly when the final names are distinct; then both maps are inverse bijections over exactly the callable keys, and the reported changes are exactly the renamed declarations |
| `ToolNames.LookupsAreInverse` | internal/provider/tool_names.go:89-103 | Looking up a key and looking up a name undo each other |
| `ToolNames.SameCallableKeys` | internal/provider/tool_names.go:28-51 | Any reordering of declarations, at any depth of namespaces, and of history leaves the callable keys unchanged |
| `ToolNames.AllocationForgetsOrder` | internal/provider/tool_names.go:28-86 | Whether the names are distinct, and both maps when they are, do not depend on the order of declarations, namespace members or history, for every generator |
| `ToolNames.AllocationIsUnique` | internal/provider/tool_names.go:28-86 | Two allocations over the same keys are equal in both directions |
| `ToolNames.ReservedGeneratorNeverCollides` | internal/provider/tool_names.go:64-80 | A generator that tells keys apart and stays in the reserved prefix never makes the allocation fail |
| `ToolNames.NamesAreLocal` | internal/wire/toolname/name.go:21-36 | A key that cannot keep its name is spelled the same whatever else is present, and every name is safe if generated ones are |
| `ToolSpelling.Generate` | internal/wire/toolname/name.go:38-59 | The loop over the scope and the cut to length give the spelling the laws below are about |
| `ToolSpelling.NormalizedIsSafe` | internal/wire/toolname/name.go:61-75 | Normalizing keeps the length and every safe character and leaves no other |
| `ToolSpelling.SpelledIsSafe` | internal/wire/toolname/name.go:38-59 | Every generated name is safe, at most 63 long, begins with the reserved prefix and ends in its digest |
| `ToolSpelling.DigestsTellApart` | internal/wire/toolname/name.go:38-59 | Different digests make different names, whatever the scopes and leaves |
| `ToolSpelling.AllocationSucceeds` | internal/provider/tool_names.go:28-86 | The allocation fails for no set of keys whose identities the digest tells apart, and every name it gives is safe |
| `ToolSpelling.KeepsItsNameExactlyWhen` | internal/provider/tool_names.go:64-80 | A tool keeps its own name exactly when it is the request's own, its name is one to 63 safe characters outside the reserved prefix, and no other of the request's own tools is called the same |
| `Gif.SkipSubBlocks` | internal/provider/image_inspection.go:130-145 | The loop ends where the sub-blocks end, or reports truncation, without reading past the array |
| `Gif.CountFrames` | internal/provider/image_inspection.go:80-128 | The loop over the array gives the walk's count or its error, without reading past the array |
| `Gif.PrintedIsCounted` | internal/provider/image_inspection.go:80-128 | Data beginning with the signature, any printed header, blocks and trailer counts its images, or is refused when there are none |
| `Gif.CountedIsPrinted` | internal/provider/image_inspection.go:80-128 | Any count, and any refusal for want of images, comes from data beginning with such a printed form with that many images |
| `Gif.BrokenIsReported` | internal/provider/image_inspection.go:80-145 | Data that goes on after any printed blocks with neither a trailer nor a whole block is refused for what is wrong with what follows |
| `Gif.HeadlessIsReported` | internal/provider/image_inspection.go:80-93 | Without the thirteen header bytes, or the whole colour table and something after it, data is refused as such |
| `Gif.TableSizeIs` | internal/provider/image_inspection.go:80-128 | A packed byte announces six to 768 bytes of colours by its low three bits when its top bit is set, and none otherwise |
| `Profile.StandaloneLineSpans` | internal/clientconnect/antigravity_env_unix.go:93-115 | The loop finds the spans of the lines that are exactly the marker |
| `Profile.SpansCover` | internal/clientconnect/antigravity_env_unix.go:93-115 | The spans are exactly the marker lines, in order, with their line feeds |
| `Profile.InspectProfile` | internal/clientconnect/antigravity_env_unix.go:35-88 | The inspection is malformed exactly for duplicated, unpaired or reversed markers, and otherwise gives the changes and the next text |
| `ProfileChanges.InspectedExactlyWhen` | internal/clientconnect/antigravity_env_unix.go:35-60 | A profile is read exactly when it holds no marker line, or one of each with the start not after the end |
| `ProfileChanges.EndpointReadIs` | internal/clientconnect/antigravity_env_unix.go:54-63 | The endpoint read from a block is the value its first endpoint assignment quotes, if it is closed |
| `ProfileChanges.UnmarkedChanges` | internal/clientconnect/antigravity_env_unix.go:35-88 | Without markers the change is from the shell's own endpoint, the key fallback is always new, and the block goes after the whole text |
| `ProfileChanges.MarkedChanges` | internal/clientconnect/antigravity_env_unix.go:52-88 | With one block each change is reported exactly when the block's text calls for it, and no change means nothing to write |
| `ProfileLaws.ForeignIsUnmarked` | internal/clientconnect/antigravity_env_unix.go:52-70 | Cutting out the managed block leaves no marker line behind |
| `ProfileLaws.BlockReadsBack` | internal/clientconnect/antigravity.go:95-100 | The endpoint read back from a block is the endpoint up to its first quote |
| `ProfileLaws.RewriteKeepsForeignText` | internal/clientconnect/antigravity_env_unix.go:117-128 | The rewritten profile is the foreign bytes in order, at most two line feeds, and one managed block with the only marker lines |
| `ProfileLaws.RewriteIsStable` | internal/clientconnect/antigravity_env_unix.go:35-128 | Inspecting the rewritten profile again, from any shell environment, gives the same bytes |
| `ProfileLaws.RewriteIsFixedPointExactlyWhen` | internal/clientconnect/antigravity_env_unix.go:35-128 | Inspecting the rewritten profile reports no change exactly when the endpoint holds no quote and no line of it reads as a marker |
| `ProfileLaws.InspectTwice` | internal/clientconnect/antigravity_env_unix.go:35-128 | Inspecting, writing what it says and inspecting again from any two shells: a clean endpoint keeps every byte, and no change is reported exactly when it also holds no quote |
| `ProfileLaws.PlainEndpointIsClean` | internal/clientconnect/antigravity.go:95-100 | An endpoint without line feeds never reads as a marker |

## Left out

- Provider codecs, transports, credential resolution, HTTP handlers and MCP network sessions: their results are the arbitrary answers of a world.
- `prepareProviderCall` internals: preparation is an arbitrary function returning ready, unavailable or broken, with its native-handle and delay flags.
- Route drafting, history fingerprint computation and checkpoint policy validation: arbitrary parameters of the reducer and of continuity resolution.
- Logging, observability, traffic evidence sinks and compatibility notices other than renamed tools.
- MCP source opening, catalogs and attempt rewriting: only call classification and the batch budget are modelled.
- Mutex and goroutine mechanics: each locked operation is one atomic step.
- Response projection and opaque-thinking binding: the capture consults them as arbitrary functions of the events seen.
- Name, slug and URL parsing, and the canonical tool environment: declarations and names arrive already parsed.
- Image decoding other than the GIF block walk; non-POSIX profile handling; JSON settings edits; file replacement.
- CheckpointStore.MemoryStore.EvictOldest: container/heap is modelled by its contract, a multiset from which some least entry is taken.
- Plan.BuildPlan: the hash and the pseudo-random generator are arbitrary functions of the seed; the library sort is an insertion sort by ID.
- ToolSpelling.Generate: works on characters rather than bytes, and the digest is an arbitrary function giving 16 safe characters.
- Profile.InspectProfile: works on characters rather than bytes; reading the shell name and the profile file is not modelled.
- BackoffLedger.TargetBackoffLedger.Observe: the clock is after the zero time, as a wall clock is.
- RoutingConfig.PublicationAccepts: the revalidation of every workspace on publication is stated on values, not as the loop.
