# IRIS local runtime: verified model

The IRIS runtime is a local daemon made of small crash-safe protocols: files and stores persist, memory is lost on a
crash, and every `await` is a point where something else may happen. This project models nine of its cores in Dafny and
proves what they promise over whole runs. `dafny verify dfyconfig.toml` checks everything.

Conventions shared by the models:

- A store write, `link`, `rename`, swap or exclusive creation is one atomic step. `Storage.Fate` says how a write ends:
  written, refused, or a crash just before or just after it, so that every crash point between two effects is covered.
- Hashes, UUIDs, clocks, policy decisions, process observations, worker and runtime adapters and file readers are
  arbitrary inputs. Fresh UUIDs are ids handed out in order.
- A read-modify-write of the connector registry is one step, because the supervisor makes it under its operation lock
  (apps/runtime/src/supervisor.ts:833 and 1728). Mission, activation and registry calls are serialized as the source
  serializes them; the calls of the job manager and of the approval queue overlap at every `await`.
- Code that changes things step by step is a class or a method with loops, proved equal to a step function; what the
  source promises is proved about runs of the step function. Pure code is functions.

| files | core |
|---|---|
| `Authority`, `AuthoritySafety`, `AuthoritySolo` | the single-owner lock with stale-owner recovery, any number of processes |
| `MissionLifecycle`, `MissionRecord`, `MissionWorld`, `MissionHistory`, `MissionRuns`, `MissionFaults`, `MissionArchive`, `MissionAnswers`, `MissionService` | the durable mission lifecycle: operation log, revisions, retries, recovery, capacity archive |
| `KnowledgeGraph`, `KnowledgeCycles`, `KnowledgeForest` | the hierarchy graph builder and its iterative depth-first search |
| `TextSearch`, `InventorySearch` | the chunked text search and the search of a whole inventory |
| `Activation`, `ActivationSafety`, `ActivationRuns`, `ActivationService` | activation transactions |
| `ConnectorRegistry`, `RegistrySafety`, `RegistryRuns`, `RegistryService` | the connector registry, epochs, leases and claims |
| `DurableJobs`, `JobSafety`, `JobRuns`, `JobService`, `JobWrites`, `JobOverlap`, `JobRequests`, `JobProvenance` | durable jobs: the runner handshake and bounded history, one call at a time and with calls overlapping |
| `JsonText`, `JsonScanner`, `JsonAgreement`, `JsonGrammar`, `JsonRoundTrip`, `JsonSoundness` | the duplicate-key JSON scanner against RFC 8259 |
| `Approvals`, `ApprovalSafety` | the approval queue and audit bracketing |
| `Storage`, `Wrappers`, `Sets` | the fault model of the stores; `Option` and `Result`; finite sets |

## Where the code does less than it seems to promise

Each of these is a lemma with the exact condition, and a concrete input where the failing case is not obvious.

- A checkpoint whose id is already the request id of another operation reaches the worker, but neither its success nor
  its failure can be recorded. The pending record stays, is invalid, and can never be changed, archived or recovered
  again; while it is there no recovery runs to its end (`MissionFaults.StaysValid`, `CollisionExample`, `WedgedForever`).
- When the worker has done its part and the store refuses the result, a checkpoint is recorded as failed, but a start,
  resume or cancellation stays pending until the next restart, because the record variable already holds the finished
  receipt (`MissionFaults.RefusedSuccess`, `MissionAnswers.StaysPendingIff`, `StaysPendingExample`).
- A mission whose archive file is torn, or whose record was changed after it was written there, can never be reclaimed,
  and a full store takes no new mission as long as it is the one to be reclaimed (`MissionArchive.BlockedIff`,
  `BlockedForever`, `BlockedRefusesRoom`). A reclaim that fails half way through its archive file does the one, a reclaim
  whose rewrite is not made and evidence appended after it the other (`TornBlocks`, `EvidenceBlocks`).
- The lifecycle state CHECKPOINTED is accepted in several places and never reached (`MissionRuns.EveryRecord`).
- An interrupted activation stays interrupted after recovery although the runtime answers and the write would go through
  exactly when the runtime proves the step with numbers that the store refuses to write; the reader of the runtime's
  status lets a negative number of full tools through (apps/runtime/src/supervisor-admin.ts:414), which is such a case
  (`ActivationRuns.RecoverySettles`, `UnstorableExample`). A rollback stops half way in the same way, but only on an epoch
  that is too large (`RollbackEnds`, `RefusedProof`).
- `bindAdminTunnelIdentity` does not look at the machine that owns the connectors, and `bindConnectorRuntime` does not
  check the shape of the runtime id; exactly these two writes leave a registry that can never be read or changed again
  (`RegistryRuns.StaysReadableIff`, `SplitExample`, `NamelessExample`, `UnreadableForever`). The supervisor binds a runtime
  id that it generated itself (apps/runtime/src/supervisor.ts:451-453), so the second needs another caller.
- Job calls that overlap may write back a stale copy. A repeated order interrupts a job that is still being launched, and
  the launch then stores it as running; a job that succeeded becomes lost; a finalized review becomes unfinalized
  (`JobOverlap.InterruptionOverwritten`, `TerminalOverwritten`, `FinalizationUndone`). What a reconciliation or a launch
  decides is safe to write, whatever it finds, exactly while the store still holds its copy; a loss or a finalization also
  when it is stored already (`JobWrites.StaleCopyIff`, `StaleLaunchIff`, `StaleLossIff`, `StaleFinalizationIff`). States
  only advance over every interleaving in which each write finds its copy (`JobOverlap.AdvanceWhileFresh`), and the
  completion guard and the evidence behind every state hold over all of them (`JobOverlap.GuardUnderOverlap`,
  `JobProvenance.EveryVersionIsProven`).
- Two orders with one request id that overlap are both stored and launched, because the look-up is outside the serialized
  section. Request ids stay unique exactly as long as each new job still finds its own free (`JobRequests.BothStored`,
  `RequestsUniqueIff`).
- A crash inside the verified part of a stale-owner recovery fails closed for good: no process ever holds the authority
  afterwards (`AuthoritySafety.CrashedRecoveryFreezes`).

## Model

| member | source | states |
|---|---|---|
| `AuthoritySafety.MutualExclusion` | apps/runtime/src/authority.ts:51-94 | after any interleaving of acquiring, recovering, releasing, crashing and spawning processes, from any leftover files, at most one live process holds the authority and the owner file is its record |
| `AuthoritySafety.OwnerRecordDisplaced` | apps/runtime/src/authority.ts:96-150 | an owner record leaves the owner file only by its own process's release or by a swap after its process can never run again |
| `AuthoritySafety.RecheckFindsVerifiedOwner` | apps/runtime/src/authority.ts:114-132 | between the read under the recovery lock and the swap nobody changes the owner file: the post-swap check always finds the verified dead owner, and the branch for another record is never taken |
| `AuthoritySafety.CrashedRecoveryFreezes` | apps/runtime/src/authority.ts:114-150 | a crash inside the verified part of a recovery leaves files that no later step changes, so no second owner can appear |
| `AuthoritySafety.DeadVerdict` | apps/runtime/src/authority.ts:286-292 | an owner found dead by pid and start marker is an identity that no live process has or will have |
| `AuthoritySafety.ThreeVerdicts` | apps/runtime/src/authority.ts:63-132 | taking the recovery lock, isolating the owner file and removing what was isolated each follow a measurement of their own that found the owner dead |
| `AuthoritySafety.RunInv` | apps/runtime/src/authority.ts:63-150 | the invariant over every program counter is kept by every run |
| `AuthoritySolo.AuthorityDirectory.Acquire` | apps/runtime/src/authority.ts:51-94 | run alone, acquiring succeeds exactly when the lock is free, or stale with no leftover recovery files, within two attempts; otherwise it changes no file and reports the right error |
| `AuthoritySolo.AuthorityDirectory.RemoveVerifiedStaleOwner` | apps/runtime/src/authority.ts:96-150 | run alone on a dead owner, recovery clears owner, lock and guard, or changes nothing when a lock or guard is in the way |
| `AuthoritySolo.AuthorityDirectory.Release` | apps/runtime/src/authority.ts:207-230 | releasing removes the owner file exactly when it is still the releaser's record, and changes nothing otherwise |
| `AuthoritySolo.AcquireThenRelease` | apps/runtime/src/authority.ts:51-94 | acquiring and giving back leaves the directory as it was but for the owner file, which ends absent |
| `AuthoritySolo.SoloIsRun` | apps/runtime/src/authority.ts:51-150 | the undisturbed run of the sequential code is a run of the concurrent machine |
| `AuthoritySolo.TraceIsSolo` | apps/runtime/src/authority.ts:51-150 | the files and positions the sequential code goes through are the machine's, step by step |
| `MissionRuns.AtMostOnceCalls` | apps/runtime/src/durable-mission-service.ts:405-449 | over every run of calls, retries, failed writes, crashes and recoveries no operation kind and id of a mission reaches the worker twice |
| `MissionRuns.CallsOfStep` | apps/runtime/src/durable-mission-service.ts:179-231 | one step makes at most one worker call, never for a completed mission, and only a cancellation once the mission has failed or was cancelled |
| `MissionRuns.CompletedIsFinal` | apps/runtime/src/durable-mission-service.ts:313-346 | a completed mission stays completed with the same operations and its worker is never called again |
| `MissionRuns.OneEffectPerRevision` | apps/runtime/src/durable-mission-validation.ts:54-56 | of all requests on a mission carrying one expected revision at most one ever changes the store or reaches the worker, whatever happens in between |
| `MissionRuns.EveryRecord` | apps/runtime/src/durable-mission-operations.ts:27-62 | every record a run can leave is a serial history with a pending operation only last and only while busy, conserves checkpoints, directives and revision, and has ended if an operation failed |
| `MissionRuns.InvIsSerial` | apps/runtime/src/durable-mission-operations.ts:27-62 | each operation finished, at a revision above its base, before the next one began |
| `MissionRuns.InvIsAccounted` | apps/runtime/src/durable-mission-service.ts:199-220 | checkpoints are the succeeded checkpoint operations numbered from one, applied directives are as many as succeeded resumes, and the revision counts exactly the writes |
| `MissionRuns.NoMissionIsLost` | apps/runtime/src/durable-mission-service.ts:371-403 | missions in the document or the archive only grow, records only evolve, archived files never change, and the document keeps unique missions and at most one hundred records, with a crash between archiving and rewriting included |
| `MissionRuns.RunKeeps` | apps/runtime/src/durable-mission-service.ts:405-449 | the store invariant and the growth of every ledger hold over every run |
| `MissionRecord.WorkerRequest` | apps/runtime/src/durable-mission-service.ts:405-449 | a worker request leaves the record alone and calls nobody, or begins exactly its own operation and keeps the invariant |
| `MissionRecord.AdmittedIsNew` | apps/runtime/src/durable-mission-service.ts:179-192 | an admitted worker request never repeats an operation of its kind, although checkpoints are looked up among checkpoints only |
| `MissionRecord.MarkedCount` | apps/runtime/src/durable-mission-service.ts:428-429 | a resume applies exactly one more directive |
| `MissionFaults.FourOutcomes` | apps/runtime/src/durable-mission-service.ts:405-449 | a worker request with a new id leaves nothing, the pending operation, the failed one, or exactly what the worker accomplished; it returns exactly when the worker did its part and both writes went through |
| `MissionFaults.StaysValid` | apps/runtime/src/durable-mission-validation.ts:82-109 | a call leaves a valid record valid except exactly when a checkpoint id collides with an operation's request id and the pending write persists |
| `MissionFaults.CollisionSticks` | apps/runtime/src/durable-mission-service.ts:192-230 | such a checkpoint calls the worker, then throws, and leaves the invalid pending record |
| `MissionFaults.CollisionExample` | apps/runtime/src/durable-mission-service.ts:179-231 | a concrete mission started under request 7 that takes a checkpoint with id 7 |
| `MissionFaults.WedgedForever` | apps/runtime/src/durable-mission-recovery.ts:15-20 | an invalid record is never changed, archived or recovered again and no recovery completes while it is there |
| `MissionFaults.RefusedSuccess` | apps/runtime/src/durable-mission-service.ts:422-447 | a refused success write turns a checkpoint into a failure but leaves a start, resume or cancellation pending |
| `MissionAnswers.StaysPendingIff` | apps/runtime/src/durable-mission-service.ts:422-447 | exactly when a request stays pending although marking a failure would persist: the worker did its part, and then the process died before the result was written or the store refused the result of anything but a checkpoint |
| `MissionAnswers.StaysPendingExample` | apps/runtime/src/durable-mission-service.ts:422-447 | a concrete mission whose worker started it and whose start stays pending |
| `MissionFaults.CompleteRecovery` | apps/runtime/src/durable-mission-recovery.ts:8-72 | a recovery that runs to its end leaves nothing pending where the project is still registered |
| `MissionFaults.RetryIsAnswered` | apps/runtime/src/durable-mission-validation.ts:64-75 | a request that was answered is answered again at any later time from the current record, without a write or a worker call |
| `MissionFaults.RecordedReplays` | apps/runtime/src/durable-mission-service.ts:179-186 | a request whose mark is in the record is recognised as a repeat |
| `MissionAnswers.AdmittedIff` | apps/runtime/src/durable-mission-validation.ts:54-62 | a request with a new id is let through exactly when nothing is under way, it expects the present revision and the lifecycle state allows it, on every reachable record |
| `MissionAnswers.CalledIff` | apps/runtime/src/durable-mission-service.ts:405-430 | the worker is called exactly for an admitted worker request on a bound mission, after the pending operation was written, when there is a worker to call |
| `MissionAnswers.ReturnsIff` | apps/runtime/src/durable-mission-service.ts:417-440 | an admitted worker request with a new id returns exactly when both writes go through and the worker answers; cancelling without a worker needs no answer |
| `MissionAnswers.UnboundIsFrozen` | apps/runtime/src/durable-mission-service.ts:459-470 | over every run in which a mission is found unknown, of another project or of an unregistered one, its record never changes, through calls, restarts, crashes and archiving, and its worker is never called |
| `MissionAnswers.NotedOrNot` | apps/runtime/src/durable-mission-service.ts:234-369 | a directive, evidence or completion calls no worker, is noted exactly when its one write persists, changes nothing else, and is refused only by a completion guard or for want of room |
| `MissionAnswers.ReturnsWhatIsStored` | apps/runtime/src/durable-mission-service.ts:405-449 | whatever call returns a record returns the one that is stored from then on |
| `MissionAnswers.FailedStaysFailed` | apps/runtime/src/durable-mission-validation.ts:64-75 | a failed operation's request is refused as failed at any later time, and other operations that reuse its id as invalid, without a write or a worker call |
| `MissionAnswers.RestartOutcome` | apps/runtime/src/durable-mission-recovery.ts:13-71 | a restart fails a busy mission together with its last operation, leaves ended and unbound ones alone, and gives any other the state its worker's status stands for |
| `MissionArchive.EnsuredIsStored` | apps/runtime/src/durable-mission-service.ts:93-138 | what `ensureMission` returns is stored under that mission with the goal asked for; a new record is a created one of an unfinished mission |
| `MissionArchive.FullStoreIff` | apps/runtime/src/durable-mission-service.ts:115-120 | in a full store a new mission gets its record exactly when some record is reclaimable, the archive takes the oldest such (its file is written, or is already exactly that record), and both rewrites go through |
| `MissionArchive.OnlyOldestLeaves` | apps/runtime/src/durable-mission-service.ts:371-403 | a record leaves the document only to make room in a full one, archived exactly as it is, as the one whose retired mission was updated before all others that could be reclaimed; every other record stays |
| `MissionArchive.BlockedIff` | apps/runtime/src/durable-mission-store.ts:92-115 | in every reachable store the archive cannot take a live record exactly when its file is there and torn, or the record was changed after it was written into that file |
| `MissionArchive.BlockedForever` | apps/runtime/src/durable-mission-store.ts:92-115 | a mission that the archive cannot take stays live, and stays so, over every run |
| `MissionArchive.BlockedRefusesRoom` | apps/runtime/src/durable-mission-service.ts:115-120 | as long as such a mission is the one to be reclaimed, a full store takes no new mission, whatever is tried |
| `MissionArchive.TornBlocks` | apps/runtime/src/durable-mission-store.ts:85-138 | making room in a full store blocks the mission it wanted to reclaim exactly when the publication leaves its archive file torn |
| `MissionArchive.ChangeBlocks` | apps/runtime/src/durable-mission-store.ts:92-115 | a call on a live mission whose archive file holds its very record blocks it exactly when it changes the record |
| `MissionArchive.EvidenceBlocks` | apps/runtime/src/durable-mission-service.ts:397-402 | after a reclaim that published the archive file but did not rewrite the document, appended evidence blocks the mission exactly when it is let through and persists |
| `MissionArchive.OnlyQuietIsArchived` | apps/runtime/src/durable-mission-store.ts:141-146 | over every run only missions that never started or have ended, with nothing pending and no resumable worker, are ever archived |
| `MissionHistory.ReclaimStep` | apps/runtime/src/durable-mission-service.ts:371-403 | reclaiming capacity keeps the store invariant and every ledger at every crash point |
| `MissionHistory.PublishStep` | apps/runtime/src/durable-mission-store.ts:85-138 | publishing an archive file changes nothing that was there, and when it succeeds the file holds exactly the record |
| `MissionHistory.RecoverAligned` | apps/runtime/src/durable-mission-recovery.ts:13-71 | recovery turns each record into a later state of itself, also when a refused probe write is carried along by a later write |
| `MissionWorld.Oldest` | apps/runtime/src/durable-mission-service.ts:391-395 | the reclaimed record is a reclaimable one whose mission was updated longest ago, if there is any |
| `MissionService.FinishLifecycleOperation` | apps/runtime/src/durable-mission-operations.ts:47-62 | the walk with the `found` flag finishes every receipt of the id, or refuses when there is none or one is terminal |
| `MissionService.LifecycleService.WorkerOperation` | apps/runtime/src/durable-mission-service.ts:405-449 | `start`, `resume` and `cancel` do to the store and the worker exactly what the step function says |
| `MissionService.LifecycleService.TakeCheckpoint` | apps/runtime/src/durable-mission-service.ts:173-232 | `checkpoint` does exactly what the step function says |
| `MissionService.LifecycleService.AcceptDirective` | apps/runtime/src/durable-mission-service.ts:234-266 | `acceptDirective` does exactly what the step function says |
| `MissionService.LifecycleService.CompleteMission` | apps/runtime/src/durable-mission-service.ts:313-346 | `complete` does exactly what the step function says, guards included |
| `MissionService.LifecycleService.AppendEvidence` | apps/runtime/src/durable-mission-service.ts:348-369 | `appendEvidence` does exactly what the step function says |
| `MissionService.LifecycleService.EnsureMission` | apps/runtime/src/durable-mission-service.ts:93-138 | `ensureMission` does exactly what the step function says, capacity reclaim included |
| `MissionService.LifecycleService.ReclaimArchivedCapacity` | apps/runtime/src/durable-mission-service.ts:371-403 | the reclaim archives and then removes exactly the oldest candidate, stopping where the step function says |
| `MissionService.LifecycleService.ArchiveForCapacity` | apps/runtime/src/durable-mission-store.ts:85-138 | the archive file is created exclusively, an equal one is accepted, any other is an error |
| `MissionService.RecoverDurableMissions` | apps/runtime/src/durable-mission-recovery.ts:8-72 | the restart loop with its local document does exactly what the recursive specification says |
| `KnowledgeCycles.FindCycle` | apps/runtime/src/ado-knowledge-graph.ts:116-141 | the iterative three-colour search ends, and reports a cycle exactly when the child relation has one (self-links included), as a real closed path |
| `KnowledgeCycles.StackSliceCloses` | apps/runtime/src/ado-knowledge-graph.ts:130-134 | the stack from the recorded index of an active target, closed by the target, is a closed path |
| `KnowledgeCycles.RankedHasNoCycle` | apps/runtime/src/ado-knowledge-graph.ts:126-129 | nodes finished in an order in which children come first have no cycle |
| `KnowledgeGraph.RegisterNodes` | apps/runtime/src/ado-knowledge-graph.ts:65-75 | the node loop accepts exactly well-formed nodes with distinct keys |
| `KnowledgeGraph.ScanEdges` | apps/runtime/src/ado-knowledge-graph.ts:76-111 | the edge loop accepts exactly the well-formed edges and collects parents, children, missing keys and self-links of exactly those |
| `KnowledgeForest.BuildKnowledgeGraph` | apps/runtime/src/ado-knowledge-graph.ts:63-146 | the builder succeeds exactly on accepted input and returns the hierarchy, roots and issue list of the links |
| `KnowledgeForest.ValidIffForest` | apps/runtime/src/ado-knowledge-graph.ts:112-145 | `validHierarchy` holds exactly when the hierarchy links form a forest over the known nodes |
| `KnowledgeForest.LinkIssuesMean` | apps/runtime/src/ado-knowledge-graph.ts:99-111 | a key is listed as a self-link exactly when it is its own parent, and as an orphan of its domain exactly when an edge names it and no node does |
| `KnowledgeForest.SharedIssuesMean` | apps/runtime/src/ado-knowledge-graph.ts:112-115 | a node is listed with all its parents in order exactly when it has more than one |
| `KnowledgeForest.CycleIssueMeans` | apps/runtime/src/ado-knowledge-graph.ts:130-134 | the issue list holds a cycle exactly when the child relation has one, and then a closed path in it |
| `KnowledgeForest.RootsAreParentless` | apps/runtime/src/ado-knowledge-graph.ts:142-144 | the roots are exactly the known nodes without a parent link |
| `KnowledgeForest.EveryNodeHasOneRoot` | apps/runtime/src/ado-knowledge-graph.ts:142-145 | in a valid hierarchy every node climbs by exactly one chain to exactly one root |
| `TextSearch.CompatibilityFileMatches` | apps/runtime/src/filesystem-engine.ts:254-331 | the streaming matcher returns the first matching lines of all delivered bytes, binary on a zero byte, an error on a broken range |
| `TextSearch.StreamingRefinesWholeFile` | apps/runtime/src/filesystem-engine.ts:254-331 | for every chunking of a file the result is binary exactly when it has a zero byte and otherwise the first matching lines of the whole text |
| `TextSearch.LineMatcher.Feed` | apps/runtime/src/filesystem-engine.ts:313-323 | feeding a chunk keeps the fields equal to what the whole-file search says of the bytes seen so far |
| `TextSearch.TailDecides` | apps/runtime/src/filesystem-engine.ts:277-287 | the carried tail of query length minus one decides whether the query spans the chunk border |
| `TextSearch.HitsAreMatchingLines` | apps/runtime/src/filesystem-engine.ts:288-301 | a line is a hit exactly when it contains the query, under its own number and with its own prefix |
| `TextSearch.SplitJoins` | apps/runtime/src/filesystem-engine.ts:313-329 | splitting into lines loses nothing and no line contains a newline |
| `InventorySearch.CompatibilityTextSearch` | apps/runtime/src/filesystem-engine.ts:202-252 | the search returns the first hundred hits of the entries that fit the budget, stays under it, and is truncated exactly when something was not read or did not fit |
| `InventorySearch.UntruncatedOmitsNothing` | apps/runtime/src/filesystem-engine.ts:222-251 | when not truncated, no matching line of an inventoried text file is missing |
| `InventorySearch.MatchesAreReal` | apps/runtime/src/filesystem-engine.ts:239-240 | every match is a real line of an inventoried file |
| `InventorySearch.FittingFitsBudget` | apps/runtime/src/filesystem-engine.ts:223-228 | what is read never exceeds the byte budget |
| `ActivationRuns.EvidenceAlways` | apps/runtime/src/activation-controller.ts:441-482 | in every reachable store APPLIED and CONFIRMED carry a run of the candidate in a new instance at a later epoch, ROLLED_BACK a run of what was there before, at most one transaction is not terminal and at most sixty-four exist, with unique ids |
| `ActivationRuns.TerminalIsFinal` | apps/runtime/src/activation-controller.ts:262-314 | a confirmed or rolled back transaction is never changed again |
| `ActivationRuns.CandidateAppliedOnce` | apps/runtime/src/activation-controller.ts:223-260 | no candidate is handed to the runtime twice for one transaction |
| `ActivationRuns.BusyIffActive` | apps/runtime/src/activation-controller.ts:184-221 | `prepare` is refused as busy exactly when a transaction is not terminal; two active ones and an exhausted history never occur |
| `ActivationRuns.PreparesIff` | apps/runtime/src/activation-controller.ts:184-221 | `prepare` succeeds exactly when nothing is active, candidate and runtime are as expected and the write goes through; its transaction is then the newest and the only active one |
| `ActivationRuns.AppliesIff` | apps/runtime/src/activation-controller.ts:223-245 | the candidate is handed to the runtime exactly when the transaction is prepared, candidate and runtime are unchanged since, and the intention was written |
| `ActivationRuns.ApplyEffect` | apps/runtime/src/activation-controller.ts:240-260 | what was handed to the runtime ends applied, with its evidence, exactly when the runtime proves it with numbers that can be stored and the write persists; what each other answer and write failure leaves; and no other transaction changes |
| `ActivationRuns.ApplyRepeats` | apps/runtime/src/activation-controller.ts:223-229 | an apply that returned returns the same again, whatever the runtime says by then, without touching store or runtime |
| `ActivationRuns.ConfirmRepeats` | apps/runtime/src/activation-controller.ts:262-268 | a confirmation that returned can be repeated in the same way |
| `ActivationRuns.RollbackRepeats` | apps/runtime/src/activation-controller.ts:281-286 | a rollback that returned can be repeated in the same way |
| `ActivationRuns.ConfirmsIff` | apps/runtime/src/activation-controller.ts:262-279 | an applied transaction is confirmed exactly when candidate and runtime are still those recorded and the write persists, and nothing else changes |
| `ActivationRuns.RecoverySettles` | apps/runtime/src/activation-controller.ts:127-182 | a recovery leaves something applying or rolling back exactly when it found such a transaction and the runtime did not answer, proved the step with numbers that cannot be stored, or the write did not persist |
| `ActivationRuns.UnstorableExample` | apps/runtime/src/activation-controller.ts:441-463 | a concrete applied candidate whose runtime reports a negative number of full tools: it stays applying after the recovery |
| `ActivationRuns.RollbackEnds` | apps/runtime/src/activation-controller.ts:281-314 | one rollback ends rolled back exactly when the runtime proves the captured binding with numbers that can be stored and both writes persist; it stops half way exactly when the process dies in between, the proof cannot be stored, or neither it nor the failure is written; otherwise it may be tried again |
| `ActivationRuns.RefusedProof` | apps/runtime/src/activation-controller.ts:462-482 | the only number of such a proof that the store can refuse is an epoch that is too large |
| `ActivationRuns.TwoRollbacks` | apps/runtime/src/activation-controller.ts:281-314 | whatever the runtime answers and however the writes end, two rollbacks end rolled back and re-enable `prepare` exactly when the first gets through, or does not stop half way and the second gets through |
| `ActivationRuns.NeverWedged` | apps/runtime/src/activation-controller.ts:127-314 | from every state that is not terminal, whatever the runtime answers and however the writes end, a recovery and two rollbacks end rolled back and re-enable `prepare` exactly when the recovery proves an interrupted rollback, the first rollback gets through, or it does not stop half way and the second gets through; a recovery that does not settle an interrupted transaction leaves everything as it was |
| `ActivationSafety.AppendKeeps` | apps/runtime/src/activation-controller.ts:533-541 | appending drops at most one terminal entry and always finds room |
| `ActivationSafety.RunKeeps` | apps/runtime/src/activation-controller.ts:184-314 | the invariant and the fixedness of what was prepared hold over every run with crashes |
| `ActivationService.ReplaceTransaction` | apps/runtime/src/activation-controller.ts:543-552 | the map with the `found` flag replaces exactly the entry of the id or refuses |
| `ActivationService.ActivationController.PrepareTransaction` | apps/runtime/src/activation-controller.ts:184-221 | `prepare` does exactly what its step function says |
| `ActivationService.ActivationController.ApplyTransaction` | apps/runtime/src/activation-controller.ts:223-260 | `apply` does exactly what its step function says, catch block included |
| `ActivationService.ActivationController.ConfirmTransaction` | apps/runtime/src/activation-controller.ts:262-279 | `confirm` does exactly what its step function says |
| `ActivationService.ActivationController.RollbackTransaction` | apps/runtime/src/activation-controller.ts:281-314 | `rollback` does exactly what its step function says, catch block included |
| `ActivationService.ActivationController.RecoverTransaction` | apps/runtime/src/activation-controller.ts:127-182 | `recoverInterrupted` does exactly what its step function says |
| `RegistryRuns.StaysReadableIff` | apps/runtime/src/connector-registry.ts:427-471 | a step leaves the registry readable except exactly for an admin tunnel bound while another machine owns a connector, and a runtime id that is not a name |
| `RegistryRuns.SplitExample` | apps/runtime/src/connector-registry.ts:242-274 | a concrete bind of an admin tunnel that leaves an unreadable registry |
| `RegistryRuns.NamelessExample` | apps/runtime/src/connector-registry.ts:323-352 | a concrete bind of a runtime id that is not a name, which leaves an unreadable registry |
| `RegistryRuns.UnreadableForever` | apps/runtime/src/connector-registry.ts:171-182 | an unreadable registry is refused by every operation and never changes |
| `RegistryRuns.RunGrows` | apps/runtime/src/connector-registry.ts:276-352 | over every run epochs and leases never decrease, tunnels stay, and a registry that can be read is fenced |
| `RegistryRuns.OldClaimsStayRefused` | apps/runtime/src/identity-coherence.ts:47-62 | a claim once accepted is refused by every connector in every continuation after a persisted epoch-advancing write |
| `RegistryRuns.WritesIff` | apps/runtime/src/connector-registry.ts:242-352 | exactly when each operation writes a new registry: an advance always, a reconciliation when reading found something stale, a good manifest, a binding that is free and not held; and only while counters have room |
| `RegistryRuns.CoherentIff` | apps/runtime/src/identity-coherence.ts:25-45 | a registry is coherent for a runtime exactly when that runtime holds both connectors and no catalog is stale |
| `RegistryRuns.AcceptedIff` | apps/runtime/src/identity-coherence.ts:47-62 | a claim is accepted exactly when it names the binding in every field and the document's epoch |
| `RegistryRuns.BoundIsCoherent` | apps/runtime/src/identity-coherence.ts:25-45 | a bound runtime is assessed as coherent, and binding it again changes nothing |
| `RegistryRuns.OwnerNeverChanges` | apps/runtime/src/connector-registry.ts:323-334 | over every run the owner of a connector never changes, and every other machine's attempt to bind a runtime is refused as an ownership conflict |
| `RegistryRuns.ReconcileOnce` | apps/runtime/src/connector-registry.ts:137-169 | a reconciliation right after a persisted one changes nothing |
| `RegistryRuns.ReconciledIsCurrent` | apps/runtime/src/connector-registry.ts:137-169 | after a reconciliation that wrote or found nothing to do, every connector carries the catalog of this version |
| `RegistryRuns.InitializedIff` | apps/runtime/src/connector-registry.ts:184-192 | an empty store is initialized exactly with distinct tunnels, and reads back as owned by this machine at the first epoch and lease |
| `RegistryRuns.LegacyLeases` | apps/runtime/src/connector-registry.ts:478-512 | whatever the document, leaving its leases out reads the same as writing the first lease where a machine is bound and none elsewhere, and is refused in the same cases |
| `RegistryRuns.LegacyMigrates` | apps/runtime/src/connector-registry.ts:137-169 | a registry in the form of the first schema version is migrated by one reconciliation: same owners, tunnels and leases, the next epoch, this version's catalogs, and nothing left to do |
| `RegistryRuns.ManifestLasts` | apps/runtime/src/connector-registry.ts:292-321 | after a persisted manifest, whatever is bound or advanced until the next manifest or reconciliation, every connector carries the catalog of its own profile |
| `RegistrySafety.NormalizedIsWellFormed` | apps/runtime/src/connector-registry.ts:427-543 | whatever document is accepted, of any schema version, every connector is at its epoch, has a machine exactly when it has a lease, and there is one owner |
| `RegistrySafety.ReadBackIff` | apps/runtime/src/connector-registry.ts:427-543 | a written registry is read back as it was exactly when it is well-formed, and cannot be read otherwise |
| `RegistrySafety.ChangeGrows` | apps/runtime/src/connector-registry.ts:242-352 | every write but an admin bind raises the epoch by one, and none lowers an epoch or a lease |
| `RegistryService.RegistryStore.BindConnectorRuntime` | apps/runtime/src/connector-registry.ts:323-352 | the method does exactly what its step function says |
| `RegistryService.RegistryStore.BindAdminTunnelIdentity` | apps/runtime/src/connector-registry.ts:242-274 | the method does exactly what its step function says |
| `RegistryService.RegistryStore.AdvanceDeploymentEpoch` | apps/runtime/src/connector-registry.ts:276-290 | the method does exactly what its step function says |
| `RegistryService.RegistryStore.ReplaceCatalogManifest` | apps/runtime/src/connector-registry.ts:292-321 | the method does exactly what its step function says |
| `RegistryService.RegistryStore.ReconcileRegistry` | apps/runtime/src/connector-registry.ts:137-169 | the method does exactly what its step function says |
| `RegistryService.RegistryStore.InitializeRegistry` | apps/runtime/src/connector-registry.ts:184-236 | the method does exactly what its step function says |
| `JobOverlap.GuardUnderOverlap` | apps/runtime/src/durable-job-manager.ts:539-547 | over every interleaving of overlapping calls and crashes: when the completion guard lets a mission through, every review job ever stored for it was finalized, whatever was evicted or written back in between |
| `JobWrites.GuardMeansFinalized` | apps/runtime/src/durable-job-manager.ts:735-757 | the same over every sequence of appends and replacements in which a replacement carries a copy decided from any version ever stored |
| `JobOverlap.RunsAreWrites` | apps/runtime/src/durable-job-manager.ts:735-760 | whatever calls overlap and wherever the process dies, what happens to the store is a sequence of such writes |
| `JobOverlap.StoreUnderOverlap` | apps/runtime/src/durable-job-manager.ts:735-757 | over every interleaving at most two hundred jobs, unique ids, a running or lost job carries all five identity fields, a queued or interrupted one none, and only one that ended as its runner said has an exit code |
| `JobProvenance.EveryVersionIsProven` | apps/runtime/src/durable-job-manager.ts:380-674 | over every interleaving and crash: for every version ever stored as running or lost some step met a verified claim of its own runner naming exactly its processes, and for every one stored as succeeded, failed or cancelled some step met the trusted result that counted and says so |
| `JobRequests.RequestsUniqueIff` | apps/runtime/src/durable-job-manager.ts:302-353 | over every interleaving request ids stay unique per project exactly as long as every new job that is appended still finds its request id free among the jobs that stay |
| `JobRequests.BothStored` | apps/runtime/src/durable-job-manager.ts:302-353 | two orders with one request id that are both looked up before either is appended are both stored |
| `JobWrites.StaleCopyIff` | apps/runtime/src/durable-job-manager.ts:623-674 | a copy of a job that is not over may be reconciled and written back, whatever its files say, exactly when the store still holds it |
| `JobWrites.StaleLaunchIff` | apps/runtime/src/durable-job-manager.ts:380-409 | what a launch makes of its queued job, whatever it finds, may be written exactly when the store still holds the queued job |
| `JobWrites.StaleLossIff` | apps/runtime/src/durable-job-manager.ts:664-674 | the catch block of `start` and the check of `cancel` may mark their copy as lost exactly when the store still holds it, or has it marked already |
| `JobWrites.StaleFinalizationIff` | apps/runtime/src/durable-job-manager.ts:532-537 | a review that was read as over may be written as finalized exactly when what is stored leads to the copy, which for a job that is over means the copy itself, or it is finalized already |
| `JobWrites.FreshWritesAdvance` | apps/runtime/src/durable-job-manager.ts:752-754 | over every sequence of writes in which each replacement finds stored the copy it was decided from, states only advance, whatever stale copies were written before |
| `JobOverlap.AdvanceWhileFresh` | apps/runtime/src/durable-job-manager.ts:752-754 | the same over every interleaving of overlapping calls and crashes: a job that is over changes no more but for finalization, and a running one keeps its processes' identity |
| `JobOverlap.InterruptionOverwritten` | apps/runtime/src/durable-job-manager.ts:356-408 | while a launch waits for its runner, a repeated order stores the job as interrupted, and the launch then stores it as running |
| `JobRequests.RepeatedWhileLaunching` | apps/runtime/src/durable-job-manager.ts:302-319 | a concrete run from the empty store to that point |
| `JobOverlap.TerminalOverwritten` | apps/runtime/src/durable-job-manager.ts:623-645 | two overlapping reconciliations of a running job store it as succeeded and then as lost |
| `JobOverlap.FinalizationUndone` | apps/runtime/src/durable-job-manager.ts:532-537 | an overlapping reconciliation stores a finalized review as not finalized again |
| `JobOverlap.ObservedAlone` | apps/runtime/src/durable-job-manager.ts:434-437 | an observation that runs alone does what the step function of the sequential model says |
| `JobOverlap.StartedAlone` | apps/runtime/src/durable-job-manager.ts:321-429 | the same for `start` with a new request id, from the look-up through the launch and the catch block |
| `JobOverlap.AnsweredAlone` | apps/runtime/src/durable-job-manager.ts:302-319 | the same for `start` with a known request id |
| `JobOverlap.CancelledAlone` | apps/runtime/src/durable-job-manager.ts:600-616 | the same for `cancel` |
| `JobOverlap.FinalizedAlone` | apps/runtime/src/durable-job-manager.ts:532-537 | the same for `markCodeReviewFinalized` |
| `JobRuns.StatesOnlyAdvance` | apps/runtime/src/durable-job-manager.ts:623-674 | one call at a time, a job that is over never changes again but for finalization, whatever files are found, and a running one keeps its processes' identity |
| `JobRuns.StoreAlways` | apps/runtime/src/durable-job-manager.ts:302-319 | one call at a time, request ids stay unique per project, next to the bounds that hold under overlap |
| `JobSafety.DecisionsAreProven` | apps/runtime/src/durable-job-manager.ts:623-674 | success, failure and cancellation come only from a result with the job's id and runner identity, running only from a verified claim, lost only from running, interrupted only from queued |
| `JobSafety.LaunchIsProven` | apps/runtime/src/durable-job-manager.ts:380-409 | a launched job runs only by a verified claim of the spawned runner, and is over only by a trusted result |
| `JobSafety.StaysRunningIff` | apps/runtime/src/durable-job-manager.ts:623-645 | a running job stays as it is exactly when the claim still names its processes, they are alive and there is no result |
| `JobSafety.StartsRunningIff` | apps/runtime/src/durable-job-manager.ts:623-645 | a queued job becomes a running one exactly when its runner's claim is verified and no result is there yet |
| `JobSafety.EndsAsSaidIff` | apps/runtime/src/durable-job-manager.ts:623-674 | a job ends as its runner said exactly when the result that counts is a trusted one, the clean-up works, and a running job's claim still names its processes |
| `JobSafety.FinalizedIff` | apps/runtime/src/durable-job-manager.ts:532-537 | a finalization that is done is stored, and it is done exactly for a review of the project that is over |
| `JobRuns.SignalsWhatRan` | apps/runtime/src/durable-job-manager.ts:600-616 | whenever `cancel` goes on to signal, a fresh claim of live processes names exactly the process, start marker and group that the job had at any earlier time it ran |
| `JobSafety.OthersJobsUntouched` | apps/runtime/src/durable-job-manager.ts:690-703 | a project reaches only its own jobs, and reviews only by the review calls |
| `JobSafety.RepeatedOrder` | apps/runtime/src/durable-job-manager.ts:302-319 | a repeated request id starts nothing: it is answered with the very job, or refused with nothing changed when it asks for other work |
| `JobSafety.LaunchEnds` | apps/runtime/src/durable-job-manager.ts:380-428 | how a launch leaves the stored job, by its claim and result file: running exactly under the verified claim of the spawned runner, over exactly as a trusted result says when the logs can be registered, otherwise interrupted whatever result there is, and queued exactly when the clean-up fails too |
| `JobSafety.AppendKeeps` | apps/runtime/src/durable-job-manager.ts:735-751 | appending evicts at most one job, only one that is over and, for a review, finalized, and is refused exactly when a full store has none |
| `JobService.DurableJobManager.StartJob` | apps/runtime/src/durable-job-manager.ts:297-429 | `start` does exactly what its step function says, catch block included |
| `JobService.DurableJobManager.ReconcileJob` | apps/runtime/src/durable-job-manager.ts:623-645 | `reconcile` writes exactly what the decision function says |
| `JobService.DurableJobManager.CancelRunning` | apps/runtime/src/durable-job-manager.ts:600-616 | `cancel` does exactly what its step function says |
| `JobService.DurableJobManager.MarkCodeReviewFinalized` | apps/runtime/src/durable-job-manager.ts:532-537 | the method does exactly what its step function says |
| `JobService.DurableJobManager.MissionCodeReviewsFinalized` | apps/runtime/src/durable-job-manager.ts:539-547 | the guard passes exactly when no stored review of the mission is unfinalized |
| `JobService.DurableJobManager.AppendJob` | apps/runtime/src/durable-job-manager.ts:735-751 | the method appends and evicts exactly as specified |
| `JsonAgreement.ScanIffDistinct` | apps/runtime/src/code-review-contract.ts:103-164 | on every JSON text the scanner lets through exactly those in which no object at any depth repeats a decoded name |
| `JsonAgreement.ScanThenParse` | apps/runtime/src/code-review-contract.ts:98-101 | scan-then-parse never yields a value with a repeated name and loses no other value |
| `JsonAgreement.DecodedIsScanned` | apps/runtime/src/code-review-contract.ts:107-121 | a string that decodes ends where the lax token scan says it does |
| `JsonGrammar.DocumentsAreRead` | apps/runtime/src/code-review-contract.ts:98-164 | every text of the RFC 8259 grammar, with any spaces and escapes, parses to what it means and is let through exactly when its objects have distinct names |
| `JsonSoundness.ParsedIsGrammar` | apps/runtime/src/code-review-contract.ts:98-101 | every text that parses is a text of the RFC 8259 grammar and means the value it parses to |
| `JsonSoundness.GrammarIff` | apps/runtime/src/code-review-contract.ts:98-101 | the texts that parse are exactly those of the grammar |
| `JsonRoundTrip.PrintThenRead` | apps/runtime/src/code-review-contract.ts:98-101 | scan-then-parse undoes a printer on every value without repeated names and refuses the others |
| `JsonScanner.Scanner.Value` | apps/runtime/src/code-review-contract.ts:122-160 | the recursive descent over the shared index ends and consumes exactly what the specification says |
| `JsonScanner.Scanner.ParseStringToken` | apps/runtime/src/code-review-contract.ts:106-121 | the token loop with the `escaped` flag returns exactly the token up to its closing quote |
| `JsonScanner.ParseJsonRejectDuplicateKeys` | apps/runtime/src/code-review-contract.ts:98-101 | the function yields the parsed value exactly when the text scans and parses |
| `ApprovalSafety.ApprovalRunsAtMostOnce` | apps/runtime/src/capability-service.ts:565-570 | under any interleaving an approval leads to at most one run |
| `ApprovalSafety.RunsAreApproved` | apps/runtime/src/capability-service.ts:320-380 | what runs on an approval is the queued operation, claimed before expiry, not denied, and re-evaluated to the same capability, project, target, workspace, resource and effects |
| `ApprovalSafety.ClaimedRunsIff` | apps/runtime/src/capability-service.ts:320-380 | with nothing failing, a claimed approval runs its operation exactly when it was not denied, is still the same action, and no lasting permission was asked for where none is allowed |
| `ApprovalSafety.RunsAreBracketed` | apps/runtime/src/capability-service.ts:591-606 | every run stands between its decision record and at most one outcome record, a call runs at most once, and the queue stays at most one hundred |
| `ApprovalSafety.EveryRunHasItsOutcome` | apps/runtime/src/capability-service.ts:591-606 | over every interleaving in which no append of an outcome fails, an ended call that ran something left its decision, the run and exactly one outcome, in that order |
| `ApprovalSafety.DirectRunsAreAllowed` | apps/runtime/src/capability-service.ts:216-235 | what runs without an approval was allowed by the policy: never on a denial, never on an owner's pending decision |
| `ApprovalSafety.DecidedRuns` | apps/runtime/src/capability-service.ts:233-234 | with nothing failing, a decision leads to one run between its decision record and the outcome record that says whether it threw |
| `ApprovalSafety.QueuedForOwner` | apps/runtime/src/capability-service.ts:222-231 | over every interleaving what is queued is what the policy left to the owner, and for a quarter of an hour at most |
| `ApprovalSafety.LeavesQueueIff` | apps/runtime/src/capability-service.ts:565-589 | over every interleaving a queued approval stays claimable, as it was queued, exactly until it expires, is claimed, or is withdrawn |
| `ApprovalSafety.GoneNeverRuns` | apps/runtime/src/capability-service.ts:224-229 | an approval that expired or was withdrawn unclaimed never leads to a run |
| `ApprovalSafety.DeniedNeverRuns` | apps/runtime/src/capability-service.ts:325-337 | once an owner denied an approval nothing ever runs on it |
| `Approvals.ApprovalQueue.ClaimPendingApproval` | apps/runtime/src/capability-service.ts:565-570 | an entry is handed out exactly when it is queued and not expired, and is then gone |
| `Approvals.ApprovalQueue.QueueApproval` | apps/runtime/src/capability-service.ts:572-584 | a full queue refuses, otherwise a fresh entry is added and the bound is kept |
| `Approvals.ApprovalQueue.PruneExpired` | apps/runtime/src/capability-service.ts:586-589 | exactly the expired entries are removed |

## Left out

- Spawning processes, `ps` and `lsof`, the macOS helpers, Git, HTTP and MCP transport, prompts, tool schemas and the
  capability tables: foreign calls and long tables.
- Authority: a process makes one acquisition per instance id; a handle whose last file removal failed and is retried, a swap
  helper that finishes after its parent died, and file contents written in pieces are not modelled.
- Authority: private-directory checks and unreadable metadata count as an indeterminate probe.
- Mission lifecycle: `list`, `get` and `assertSessionControl` only read. Timestamps and the lengths of texts are not
  modelled; texts are taken as valid.
- Mission lifecycle: a ledger lookup that fails with another error than not-found during a reclaim.
- Mission lifecycle: the field `probes` of a record is a history variable and not part of the file.
- Activation: timestamps, and text shapes of head, fingerprint and catalog id.
- Connector registry: labels, modes, paths and ports are one flag of a raw entry; well-formed hashes, tunnel ids and
  machine ids are taken as such. Legacy profile discovery is not modelled.
- Durable jobs: log windows, artifacts and review output; `recover` is a sequence of reconciliations.
- `JobRuns.StoreAlways`: calls are taken one at a time, because the look-up of a request id is outside the serialized
  section; what holds under overlap is `JobOverlap.StoreUnderOverlap` and, for request ids, exactly
  `JobRequests.RequestsUniqueIff`.
- `JobRuns.StatesOnlyAdvance`: calls are taken one at a time; under overlap it is false. `JobOverlap.AdvanceWhileFresh`
  states what holds then, and the four `JobWrites` lemmas about stale copies when each write is safe.
- `KnowledgeForest.BuildKnowledgeGraph`: the normalisation of texts and the checks of keys, dates and digests are one flag
  of a raw node or edge.
- JSON: the numeric value of a number; a number is kept as it is written. The depth of the call stack is unbounded.
- Approvals: the project override that ALWAYS_ALLOW_PROJECT stores belongs to the policy engine.
- Approvals: the chain of mission actions only orders calls and is left out, so more interleavings are allowed than can
  happen; the identity checks of the originating-session path are one answer.
- `ApprovalSafety.RunsAreBracketed`: when the append of the outcome record fails, the outcome is missing; the lemma allows that, and
  `ApprovalSafety.EveryRunHasItsOutcome` covers the runs in which no such append fails.
- The parser and validators of review reports, multi-worker routing and the security audit: independent components.
