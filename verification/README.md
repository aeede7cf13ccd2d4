# Verification of the assurance fixture, the observers and the saved-run comparison

This project models the stateful parts of the repository in Dafny and proves what they promise over
all inputs, all schedules and all histories:

- **The fixture store** (`AuditLedger`, `StoreSpec`, `FixtureStore`, `StoreRuns`, `StoreTheorems`,
  `StoreJournal`, `StoreRefinement`). The class `FixtureStore` holds the tables as fields and runs every
  transaction statement by statement, with rollback; each method is proved to take exactly one atomic
  step of `StoreSpec`. The theorems are about every list of steps: control calls, writes, retries,
  injected faults, lost responses and restarts in any order. `StoreJournal` is an independent account of
  the same promises: a list of the writes that left a row and the life of every attempt, without
  counters, flags, hashes or an active pointer. `StoreRefinement` proves that, over every history, the
  tables hold column by column what the journal tells and every reply is the journal's. The two reads that are not transactions are modelled as separate reads with
  any transactions in between.
- **The failure cleanup** (`CleanupWorld`, `Cleanup`). Every engine command may fail, may act and
  still report failure, and may leave its outcome unreadable; what happens at each command is an
  arbitrary script. What a volume held when it was destroyed, and what every removal command was about,
  are kept as ghost state. Besides what never happens, it is proved what does: which removals are tried
  whatever fails, and that the cleanup succeeds with an engine that serves it.
- **Bounded intake** (`JsonIntake`, `JsonGrammar`, `JsonIntakeProofs`, `JsonBalance`, `ArchivePaths`,
  `ArchiveTree`, `ArchiveEntries`). The one-pass JSON scanner on arbitrary texts, against the grammar of
  sections 2 and 7 of RFC 8259, and against the check of the parsed value; the incremental collision table of archive names against the
  extraction that follows it, from the raw names on.
- **Ownership leases** (`KeyOrder`, `Ownership`, `OwnershipScope`, `OwnershipRefinement`). All tasks as
  one state machine, one task's `observer_ownership` as an imperative method among arbitrary others, and
  the agreement of the two.
- **The settling observer** (`JsonValues`, `SettlingObserver`) and **the capture loop** (`CaptureLoop`,
  `CaptureScript`, `CommandRunner`), both under arbitrary answers and clocks that only go forward.
- **Saved-run comparison** (`SavedRuns`), **host configuration text** (`HostConfigText`), **side-effect
  rules** (`EffectRules`) and **the access matrix** (`AccessMatrix`).

Hashes (`digest`, `token`, `stable_hash`), pattern matching and lenient decoding are function
parameters about which nothing is assumed. Where a claim needs collision resistance, its conclusion
offers a collision instead. Clocks are integers, or the time strings a caller passes; the outside
world is a script that a proof cannot choose. Durations, the poll intervals and the drain grace among
them, are numbers of ticks; a tick may be the resolution of the clock.

## Where the code differs from what one might expect

- The capture loop can open three drain windows, not two: a command exits by itself, its descendants
  keep the pipes open past the first window and are cleaned up, and then the output budget is breached.
  `CaptureLoop.DrainWindows` gives the exact condition, `CaptureLoop.ThreeWindowsHappen` a run.
- `_strip_trailing_commas` is not idempotent; `HostConfigText.TrimmingTwice` says exactly when a second
  pass changes the text.
- `_same_json_value` is reflexive exactly on values without NaN, so an unchanged stream is accepted
  exactly when no old entry holds one (`SettlingObserver.ExtensionNeedsNoNaN`);
  `SettlingObserver.NaNEntryCountsAsRewritten` is an instance that is reported as rewritten.
- Acceptance of saved runs is transitive only because loading validates them:
  `SavedRuns.GapBreaksTheChain` shows what a missing required field would do.
- A snapshot of a busy store can show the audit event of a request that it does not list;
  `StoreTheorems.SnapshotCoherent` says exactly when, and `StoreTheorems.SnapshotTears` is a history in
  which it does.
- A settling observer whose deadline has passed at its second look at the clock returns no events and
  no error, having fetched nothing. `SettlingObserver.CollectSettled` and `SettlingObserver.Collect` say
  that this is exactly when a normal return comes without any fetch, and
  `SettlingObserver.LateLookReportsNothing` is such a run.
- A failure to reach the engine can be taken for the absence of a network: any output that holds both
  "network " and " not found", wherever they stand, counts as absence
  (`CleanupWorld.ScatteredWordsAreAbsence`, `CleanupWorld.LookupFailureIsAbsence`). Other failures do not
  (`CleanupWorld.TransportFailureIsUnknown`).

## Model

| member | source | states |
|---|---|---|
| AuditLedger.ValidateLedger | assurance/phase2/fixture/store.py:654-689 | accepts exactly the intact ledgers: as many rows as the watermark, numbered from 1, each naming its predecessor's hash and carrying its own; otherwise names the first broken row and what is broken in it |
| AuditLedger.TipDeterminesLedger | assurance/phase2/fixture/store.py:371-459 | two valid chains with the same last hash are the same ledger, unless the hash has a collision or a preimage of the zero hash |
| AuditLedger.ChainAppend | assurance/phase2/fixture/store.py:398-459 | appending a row that names the current last hash and the next number keeps the chain valid |
| FixtureStores.FixtureStore.Bootstrap | assurance/phase2/fixture/store.py:189-222 | a restart takes exactly the bootstrap step: a live attempt becomes recovery-required and loses its seal |
| FixtureStores.FixtureStore.CreateAttempt | assurance/phase2/fixture/store.py:239-269 | one step: refused while an attempt is active or on a duplicate key, otherwise a new prepared attempt becomes the active one |
| StoreTheorems.GuardMeansState | assurance/phase2/fixture/store.py:334-353 | in every reachable state the guard of the control transactions lets exactly the attempt through whose own state is the expected, non-terminal one |
| FixtureStores.FixtureStore.OpenAttempt | assurance/phase2/fixture/store.py:271-283 | one step, from prepared to open and nothing else |
| FixtureStores.FixtureStore.CloseAttempt | assurance/phase2/fixture/store.py:285-297 | one step, from open to fenced and nothing else |
| FixtureStores.FixtureStore.AbortRecoveryAttempt | assurance/phase2/fixture/store.py:299-332 | one step, from recovery-required to aborted, releasing the active pointer and failing rows still admitted |
| FixtureStores.FixtureStore.AppendAuditEvent | assurance/phase2/fixture/store.py:398-459 | inserts the chained row with the next number and advances the watermark, or changes nothing on a key violation |
| FixtureStores.FixtureStore.PerformAdmitted | assurance/phase2/fixture/store.py:514-586 | request row, record, audit row and commit take effect together; a fault or a violation before the commit leaves no trace; a lost response leaves the whole effect |
| FixtureStores.FixtureStore.AuditAndCommit | assurance/phase2/fixture/store.py:545-586 | from the admitted row and the changed record on: audit row and commit, or the tables as before the transaction |
| FixtureStores.FixtureStore.BusinessWrite | assurance/phase2/fixture/store.py:462-586 | one step of the store for every token, request id, attempt state and fault; in a valid store a new request of the active attempt has a row afterwards exactly when the reply says so or was lost, rejected exactly when the attempt was not open; an open attempt takes the write exactly when no earlier fault is injected and the event id is new; any other error changes nothing |
| FixtureStores.FixtureStore.ResetObserverCursor | assurance/phase2/fixture/store.py:598-619 | one step: the cursor of the active attempt moves to its watermark |
| FixtureStores.FixtureStore.TakeFinalSnapshot | assurance/phase2/fixture/store.py:711-762 | one step: refused unless fenced, drained and intact; otherwise records the seal and returns all rows, which over a history are those that `StoreRefinement.SealListsDurableWrites` names |
| FixtureStores.FixtureStore.FinalizeAttempt | assurance/phase2/fixture/store.py:764-803 | one step: refused unless the recorded seal matches the current counts; otherwise finalizes and releases |
| FixtureStores.FixtureStore.Perform | assurance/phase2/fixture/store.py:115-803 | every transaction of the object is the step of the transition system, and keeps the store invariant |
| FixtureStores.FixtureStore.PerformAll | assurance/phase2/fixture/store.py:115-803 | any history on the object leaves the tables, and gives the replies, that the transition system's run does; on a new object these are the tables and the replies of the journal |
| StoreRuns.CommitDossier | assurance/phase2/fixture/store.py:508-586 | a committed write appends at the end of an intact ledger and keeps rows, chain and watermark in agreement |
| StoreRuns.StepKeeps | assurance/phase2/fixture/store.py:115-803 | every transaction keeps the store invariant: exact active pointer, intact ledgers, commits matching audit rows, consistent seals, no admitted row left |
| StoreRuns.EveryHistoryKeepsInv | assurance/phase2/fixture/store.py:115-803 | the invariant holds after every history of a new database |
| StoreTheorems.RunGrows | assurance/phase2/fixture/store.py:462-586 | over any history request rows never change or disappear, ledgers are only appended to, and terminal attempts do not change at all |
| StoreTheorems.SealingOutcomes | assurance/phase2/fixture/store.py:711-803 | in every reachable state the drain and integrity checks of both sealing steps never fire, and the replies are decided by state and seal alone |
| StoreTheorems.HistoryTracksSeal | assurance/phase2/fixture/store.py:711-762 | over any history the seal recorded in an attempt's row is that of its latest final snapshot, and the rows it returned are still there unchanged |
| StoreTheorems.FinalizeIffSealCurrent | assurance/phase2/fixture/store.py:764-803 | finalizing succeeds exactly when the attempt is active and fenced and its latest final snapshot shows all its current rows; a late rejected row is enough to refuse it |
| StoreTheorems.SealIsFinal | assurance/phase2/fixture/store.py:711-803 | after a successful finalize, and forever after, requests and ledger are exactly those of the latest final snapshot |
| StoreTheorems.RestartFindsLiveAttempt | assurance/phase2/fixture/store.py:189-222 | at most one attempt is live and the active pointer names it; a restart never finds a terminal or missing one |
| StoreTheorems.RestartedAttemptNeverFinalizes | assurance/phase2/fixture/store.py:189-332 | an attempt that was active across a restart can be aborted but is never finalized, whatever follows |
| StoreTheorems.RecordsReplayCommits | assurance/phase2/fixture/store.py:462-586 | at most once: the records are the replay of the durable writes in order, no attempt and request pair is durable twice, and each ledger lists its durable requests in order |
| StoreTheorems.RetryAfterLostResponse | assurance/phase2/fixture/store.py:462-586 | retrying a write whose response was lost changes nothing and is refused as a conflict or a stale token, whatever ran in between |
| StoreTheorems.SnapshotCoherent | assurance/phase2/fixture/store.py:691-709 | a snapshot read in three steps among arbitrary transactions shows an event for every committed request and at least its watermark of events; it shows an event without its request exactly when a write committed between the last two reads |
| StoreTheorems.SnapshotTears | assurance/phase2/fixture/store.py:691-709 | a concrete history in which the audit rows read last hold the event of a request that the request rows read before do not |
| StoreTheorems.ObserverSeesSuffix | assurance/phase2/fixture/store.py:621-640 | the observer's reads return exactly the rows after its cursor, gap-free, up to the watermark of the last read |
| StoreRefinement.StoreRefinesJournal | assurance/phase2/fixture/store.py:115-803 | after every history every column of every table is what the list of accepted writes and attempt lives tells, and the next transaction gets the reply that the list gives it |
| StoreRefinement.WriteLeavesRow | assurance/phase2/fixture/store.py:462-586 | in every reachable state: a known request id is exactly a conflict; a new one has a row exactly when the reply is a result or was lost; the row, column by column, and the record that a write leaves; when a write must succeed |
| StoreRefinement.LateWriteBlocksFinalize | assurance/phase2/fixture/store.py:497-523 | a late write under a new request id makes every later finalize refuse, whatever seal came before it and whatever happens between, until another final snapshot |
| StoreRefinement.LogTold | assurance/phase2/fixture/store.py:462-586 | the durable writes, as the replies tell them, are exactly the writes that came when the attempt was open and left a row |
| StoreRefinement.SealListsDurableWrites | assurance/phase2/fixture/store.py:642-762 | the latest final snapshot of an attempt shows one event per durable write in order, numbered from one, with the call's event id, request, record and asserted fields, and as committed exactly their requests |
| CleanupWorld.Engine.Inspect | assurance/phase2/failure_evidence.py:98-124 | present exactly on return code zero, absent exactly when a failed inspection says so in the words for that kind, otherwise unknown; the first two answers are true |
| CleanupWorld.AbsenceSurvivesContext | assurance/phase2/failure_evidence.py:103-119 | further output around a message of absence does not hide it |
| CleanupWorld.TransportFailureIsUnknown | assurance/phase2/failure_evidence.py:103-124 | a failed inspection whose output does not say "no such ", or nothing at all, is never taken for absence; for a network, unless the two words of its second message both occur |
| CleanupWorld.ScatteredWordsAreAbsence | assurance/phase2/failure_evidence.py:110-111 | any output with both words, in either order and with anything around and between them, is taken for the absence of a network |
| CleanupWorld.LookupFailureIsAbsence | assurance/phase2/failure_evidence.py:110-129 | a concrete failure to reach the engine that is taken for absence, against the promise of the function |
| Cleanup.StopWriters | assurance/phase2/failure_evidence.py:250-277 | a removal of every container is tried, last first; writers count as stopped only when every container was answered to be absent; no error means stopped; with an engine that serves the cleanup there is no error |
| Cleanup.EvidencePresence | assurance/phase2/failure_evidence.py:279-300 | an unplanned volume counts as absent, an answer of absent is true, and exactly an unknown answer is an error |
| Cleanup.PreserveState | assurance/phase2/failure_evidence.py:132-180 | permission to delete the state volume means it was absent or fully copied after the writers stopped |
| Cleanup.PreserveOutput | assurance/phase2/failure_evidence.py:182-217 | the same for the output volume |
| Cleanup.RemoveNetworks | assurance/phase2/failure_evidence.py:374-383 | a removal of every network is tried, last first; no error means every network is gone; with an engine that serves the cleanup there is no new error |
| Cleanup.RemoveVolumes | assurance/phase2/failure_evidence.py:385-426 | on the failure path evidence is destroyed only with a copy of its last content in place; on the normal path nothing is destroyed after an error recorded before the loop, the loop stops at its first error, and the state volume goes last and after no error about anything else; without errors everything that may be removed is gone; on the failure path a removal is tried of exactly the volumes that may go, on the normal path of all in order up to the first error |
| Cleanup.FullLedger | assurance/phase2/failure_evidence.py:428-446 | one row per listed resource in order; rows that all say absent mean that everything is gone, and when everything is gone and inspections answer, they all say so |
| Cleanup.Summarize | assurance/phase2/failure_evidence.py:448-490 | cleanup is complete exactly without errors and with all rows absent; finish-only recovery is not required exactly when cleanup and preservation are complete without preservation errors; the quarantined volumes are exactly those found present |
| Cleanup.CleanupResources | assurance/phase2/failure_evidence.py:219-490 | no last copy is lost on the failure path under any command outcomes; on the normal path the state volume goes last and never after any recorded cleanup error; the report is sound; a removal of every container, every network and every volume that may go is tried whatever fails; with an engine that serves it the cleanup records no error, leaves nothing behind and is complete, on the failure path with complete copies |
| JsonIntake.PreparseJson | assurance/phase2/ci/p4_resource_enforcement.py:53-96 | the loop over a mutable stack computes the verdict of the scan, with the first error met |
| JsonIntakeProofs.ScanDoc | assurance/phase2/ci/p4_resource_enforcement.py:53-96 | scanning any written form of any document in any context passes exactly when the document is within the bounds, and restores the enclosing stack |
| JsonIntakeProofs.PreparseIsExact | assurance/phase2/ci/p4_resource_enforcement.py:53-96 | a well-formed text is accepted exactly when container nesting, counts per container and raw string tokens are within the bounds |
| JsonBalance.AcceptsExactlyBalanced | assurance/phase2/ci/p4_resource_enforcement.py:53-96 | of all texts, JSON or not, exactly those are accepted whose strings are closed and whose brackets outside strings match, within the bounds on nesting, commas per bracket and string bytes |
| JsonBalance.ScanReads | assurance/phase2/ci/p4_resource_enforcement.py:57-94 | whatever the scanner has read without an error falls into complete parts, open brackets with theirs and at most one open string, and its stack counts just these |
| JsonBalance.ScanParts | assurance/phase2/ci/p4_resource_enforcement.py:57-94 | matching parts within the bounds are read without an error in any context with room for their commas |
| JsonIntakeProofs.ValidateShape | assurance/phase2/ci/p4_resource_enforcement.py:167-199 | the worklist traversal accepts exactly the values that the recursive bounds allow |
| JsonIntakeProofs.ShapeEverywhere | assurance/phase2/ci/p4_resource_enforcement.py:167-199 | a value is within the bounds exactly when at every position in it the depth is, and the string, the keys and the number of items found there are |
| JsonIntakeProofs.PlainTextAsWritten | assurance/phase2/ci/p4_resource_enforcement.py:59-75 | a string without escapes has the same length for the scanner and for the value check |
| JsonIntakeProofs.TokenAtMostSixfold | assurance/phase2/ci/p4_resource_enforcement.py:62-75 | a string token is at most six times as long as the UTF-8 text it stands for, surrogate pairs included |
| JsonIntakeProofs.PreparseNeverOverrejects | assurance/phase2/ci/p4_resource_enforcement.py:110-140 | the scanner never refuses a duplicate-free text whose parsed value the later check accepts |
| ArchivePaths.AcceptedNameIsClean | assurance/phase2/ci/p4_resource_enforcement.py:306-320 | an accepted member name is relative, has no empty or dot components and is no deeper than the limit; which names are accepted, and as what, is said by the three rows on names below |
| ArchivePaths.CleaningIsStable | assurance/phase2/ci/p4_resource_enforcement.py:306-320 | an accepted name is its own clean form |
| ArchivePaths.PlainNameKept | assurance/phase2/ci/p4_resource_enforcement.py:306-320 | a name of proper components within the depth, none of them a dot or double dot, is accepted as it stands; a trailing slash is dropped and told |
| ArchivePaths.NoiseIgnored | assurance/phase2/ci/p4_resource_enforcement.py:311-319 | empty and dot components anywhere but at the front of a name, and a leading dot of a relative one, change neither the cleaned name nor the refusal |
| ArchivePaths.RefusalCauses | assurance/phase2/ci/p4_resource_enforcement.py:306-320 | each refusal happens exactly for its cause, in the order of the tests: characters, leading slash, double dot, nothing left, too many components |
| ArchivePaths.StringPrefixIsPathPrefix | assurance/phase2/ci/p4_resource_enforcement.py:336-338 | for clean names, starting with the name and a slash means lying below it |
| ArchiveTree.RegisterArchivePath | assurance/phase2/ci/p4_resource_enforcement.py:323-339 | enters the name exactly when it is new, below no file and, for a file, above nothing; otherwise changes nothing |
| ArchiveTree.RegistrationTests | assurance/phase2/ci/p4_resource_enforcement.py:323-339 | the tests on the incremental table decide exactly whether the member clashes with one registered before |
| ArchiveTree.RegisterAll | assurance/phase2/ci/p4_resource_enforcement.py:479-512 | a member list is accepted exactly when no two names are equal and no file lies above another member |
| ArchiveTree.OrderIrrelevant | assurance/phase2/ci/p4_resource_enforcement.py:323-339 | acceptance does not depend on the order of the members |
| ArchiveTree.CopyLimited | assurance/phase2/ci/p4_resource_enforcement.py:342-355 | succeeds exactly when the member has its declared size, whatever the sizes of the reads; never writes more than that |
| ArchiveTree.MakeDirs | assurance/phase2/ci/p4_resource_enforcement.py:516-523 | making a directory with its parents fails exactly when a file is in the way, and changes nothing else |
| ArchiveTree.UnpackMember | assurance/phase2/ci/p4_resource_enforcement.py:516-531 | in a clash-free list the next member always finds its place free and its parents directories |
| ArchiveTree.ExtractArchive | assurance/phase2/ci/p4_resource_enforcement.py:479-531 | registration and extraction into an empty tree succeed exactly for clash-free lists of members with their declared sizes; the tree then holds every member and nothing else but their parents |
| ArchiveEntries.CompatibleMeansClashFree | assurance/phase2/ci/p4_resource_enforcement.py:323-339 | members are free of clashes exactly when their cleaned names all differ and none is below the name of a file |
| ArchiveEntries.PlainEntryKept | assurance/phase2/ci/p4_resource_enforcement.py:306-320 | an entry with a plain name is unpacked under just that name |
| ArchiveEntries.ExtractEntries | assurance/phase2/ci/p4_resource_enforcement.py:479-531 | from the raw names on, extraction succeeds exactly when every name can be cleaned, the cleaned names can live in one tree and every file has its declared size; every path on disk then stays below the root and within the depth |
| KeyOrder.Sorted | src/mcp_behaviour_guard/observers/ownership.py:66-77 | the sorted tuple of a set of keys is strictly ascending and holds exactly those keys |
| Ownership.InvKept | src/mcp_behaviour_guard/observers/ownership.py:124-187 | every move of every task keeps the lock tables equal to what the tasks hold |
| Ownership.NoKeyHeldTwice | src/mcp_behaviour_guard/observers/ownership.py:153-187 | in every reachable state no lock file is held twice and no in-process lock by two tasks of one loop; two protected bodies share no key |
| Ownership.NoDeadlock | src/mcp_behaviour_guard/observers/ownership.py:166-187 | in every reachable state with an unfinished task, some unfinished task can move on without failure or cancellation |
| Ownership.RunsAreBounded | src/mcp_behaviour_guard/observers/ownership.py:153-187 | without new arrivals no run, failures included, is longer than the work that was left |
| Ownership.StuckMeansDone | src/mcp_behaviour_guard/observers/ownership.py:153-187 | a run that nobody can continue has every task finished and every lock free, whatever failed on the way |
| OwnershipScope.LockTables.AcquireLocals | src/mcp_behaviour_guard/observers/ownership.py:169-173 | takes the in-process locks of the missing keys in order, exactly as far as the turns grant them, and none that is held already |
| OwnershipScope.LockTables.AcquireFiles | src/mcp_behaviour_guard/observers/ownership.py:175-176 | the same for the lock files |
| OwnershipScope.LockTables.ReleaseFiles | src/mcp_behaviour_guard/observers/ownership.py:184-185 | gives back exactly the lock files taken, last first |
| OwnershipScope.LockTables.ReleaseLocals | src/mcp_behaviour_guard/observers/ownership.py:186-187 | gives back exactly the in-process locks taken, last first |
| OwnershipScope.LockTables.ObserverOwnership | src/mcp_behaviour_guard/observers/ownership.py:153-187 | however far it gets, the task ends up holding exactly what it held before; it gets exactly as far as the turns grant it the missing keys; the body runs with both locks on every requested key; the sequence of acquisitions and releases is exactly the two sorted passes and their reverse |
| OwnershipScope.LockTables.NestedOwnership | src/mcp_behaviour_guard/engine.py:522 | a scope over the same observers inside the run's own scope always enters, runs with everything held, and touches no lock |
| OwnershipScope.KeysAreNamed | src/mcp_behaviour_guard/observers/ownership.py:66-77 | a scope asks for exactly the keys that an observer or the caller names |
| OwnershipRefinement.RunProjects | src/mcp_behaviour_guard/observers/ownership.py:153-187 | the moves of one task in any run of the whole machine are a run of that task on its own |
| OwnershipRefinement.LogsAreRuns | src/mcp_behaviour_guard/observers/ownership.py:166-187 | the logs that the imperative routine can leave are exactly the traces of complete runs of a task's own moves |
| OwnershipRefinement.OwnershipAsRun | src/mcp_behaviour_guard/observers/ownership.py:153-187 | what the routine logs, among arbitrary others, is such a complete run from entering to having finished |
| JsonValues.SameSymmetric | src/mcp_behaviour_guard/observers/http_audit.py:15-44 | the comparison is symmetric |
| JsonValues.SameTransitive | src/mcp_behaviour_guard/observers/http_audit.py:15-44 | the comparison is transitive, across integers and floats |
| JsonValues.SameReflexive | src/mcp_behaviour_guard/observers/http_audit.py:15-44 | a value is the same as itself exactly when it holds no NaN at any depth |
| JsonValues.SameHasNoNaN | src/mcp_behaviour_guard/observers/http_audit.py:15-44 | values that compare as the same as anything hold no NaN, so on them the comparison is an equivalence |
| SettlingObserver.AppendSuffix | src/mcp_behaviour_guard/observers/http_audit.py:139-161 | returns the new entries exactly when the list extends the previous one unchanged; otherwise says whether it shrank or was rewritten |
| SettlingObserver.EventsOfMeans | src/mcp_behaviour_guard/observers/http_audit.py:123-137 | a payload holds the list that it is, or the one that its object names, and otherwise none |
| SettlingObserver.ParseEvents | src/mcp_behaviour_guard/observers/http_audit.py:163-182 | appends exactly the entries before the first malformed one |
| SettlingObserver.StillAccounted | src/mcp_behaviour_guard/observers/http_audit.py:184-243 | events that account for one list account for the unchanged part of every extension of it |
| SettlingObserver.BaselineKept | src/mcp_behaviour_guard/observers/http_audit.py:139-161 | when every list extends the one before, the last one still starts with the baseline |
| SettlingObserver.FetchesAreBounded | src/mcp_behaviour_guard/observers/http_audit.py:200-249 | there are never more completed fetches than ticks in the settling window |
| SettlingObserver.CollectSettled | src/mcp_behaviour_guard/observers/http_audit.py:184-249 | terminates; no fetch is complete after the deadline and successive ones are at least a tick apart; a normal return means every list extended the one before and the events account one by one for the last list after the baseline; it comes without any fetch exactly when the deadline had passed at the second look at the clock; any shrink, edit or malformed entry is reported with all events accepted before; an exception or a failure is passed on exactly when the last fetch ended so; a quiet return means nothing new came for the quiet period, and no fetch follows one at which such a period was over |
| SettlingObserver.Collect | src/mcp_behaviour_guard/observers/http_audit.py:102-121 | the same for every configuration, times included when there is a settling window; a correlated collection without a baseline is refused before anything is fetched |
| SettlingObserver.LateLookReportsNothing | src/mcp_behaviour_guard/observers/http_audit.py:200-203 | a concrete run that reports no effects although nothing was fetched |
| SettlingObserver.ExtensionNeedsNoNaN | src/mcp_behaviour_guard/observers/http_audit.py:139-161 | an unchanged list, with whatever is appended, is accepted exactly when no old entry holds a NaN |
| SettlingObserver.NaNEntryCountsAsRewritten | src/mcp_behaviour_guard/observers/http_audit.py:139-161 | a concrete unchanged list that is reported as rewritten |
| CaptureLoop.RoundKeeps | assurance/phase2/run_isolation_check.py:111-190 | every round keeps the captures, the byte count, the budget flag and the window bookkeeping consistent |
| CaptureLoop.RoundProgress | assurance/phase2/run_isolation_check.py:111-190 | every round that does not end the loop opens one of at most three windows, of the grace length, or comes closer to the end of the current one |
| CaptureLoop.FewerRoundsLeft | assurance/phase2/run_isolation_check.py:111-190 | every round that does not end the loop leaves fewer rounds that there can be |
| CaptureLoop.LoopEnds | assurance/phase2/run_isolation_check.py:111-190 | under every schedule of chunks, exits and clock advances, and in ticks as fine as the clock, the loop ends within the rounds that fit into the run timeout and three drain windows |
| CaptureLoop.FinishedRun | assurance/phase2/run_isolation_check.py:143-200 | at the end the exit code is known, each capture is the beginning of what was read, one byte over the limit at most, and the budget flag holds exactly when more bytes came than the budget |
| CaptureLoop.ForcedWhenExpired | assurance/phase2/run_isolation_check.py:172-188 | descendants are cleaned up in a run exactly when a window expires in some round with a pipe still open, within the budget and without the deadline having killed the command |
| CaptureLoop.DrainWindows | assurance/phase2/run_isolation_check.py:119-188 | at most three drain windows, and three exactly when a window of the schedule so expires and the bytes read exceed the budget later |
| CaptureLoop.ThreeWindowsHappen | assurance/phase2/run_isolation_check.py:119-188 | a concrete run with three windows |
| CaptureScript.ExitCodeTold | assurance/phase2/run_isolation_check.py:111-170 | the exit code is what the first poll that saw an exit said, or what the poll after the kill at the deadline or after the budget breach said; the deadline kills exactly when its time came before an exit was seen; the loop gives up exactly when such a poll saw none |
| CaptureScript.StreamTold | assurance/phase2/run_isolation_check.py:142-158 | what was read of each stream is what came on it, chunk by chunk, up to its end or the end of the run |
| CommandRunner.Capture.PollProcess | assurance/phase2/run_isolation_check.py:112-127 | polling and the run deadline act on the loop's variables as one top-of-round step, whose effect on the exit code `CaptureScript.ExitCodeTold` says |
| CommandRunner.Capture.ReadReady | assurance/phase2/run_isolation_check.py:142-170 | one ready pipe: bytes are counted, kept up to the limit, and checked against the budget |
| CommandRunner.Capture.CheckWindow | assurance/phase2/run_isolation_check.py:172-188 | the end of a window gives up after a kill or a second window and otherwise cleans up descendants once |
| CommandRunner.Capture.Loop | assurance/phase2/run_isolation_check.py:111-190 | the loop terminates in the state that the rounds lead to, within the rounds there can be |
| CommandRunner.TruncationIsExact | assurance/phase2/run_isolation_check.py:38-43 | a text is marked as truncated exactly when more than the limit was read, and shows the first bytes read |
| CommandRunner.Run | assurance/phase2/run_isolation_check.py:203-273 | told by what the process and its pipes did: exceeding the budget, being killed at the deadline, a first exit other than 0 under check, and a completed command are reported exactly when they happened, in this order, with the exit code of the process; a completed command shows the beginning of what came on each stream |
| SavedRuns.CompareFields | src/mcp_behaviour_guard/baseline.py:709-735 | collects exactly the differing fields and the one-sided unknown ones |
| SavedRuns.SavedRunComparability | src/mcp_behaviour_guard/baseline.py:670-756 | reasons, input changes, unknown fields and state as the field rules determine them |
| SavedRuns.ComparableMeansAgree | src/mcp_behaviour_guard/baseline.py:743-748 | two runs are comparable exactly when no compared field differs or is known on one side only |
| SavedRuns.ComparabilitySymmetric | src/mcp_behaviour_guard/baseline.py:670-756 | comparability does not depend on which run is the reference |
| SavedRuns.ChangedTools | src/mcp_behaviour_guard/baseline.py:795-811 | finds exactly the common tools whose schema or metadata hash changed |
| SavedRuns.CompareInventories | src/mcp_behaviour_guard/baseline.py:768-822 | added, removed and changed tools and the review flag are those of the two inventories, and a missing inventory always asks for review |
| SavedRuns.NoReviewMeansSame | src/mcp_behaviour_guard/baseline.py:768-822 | no review is required exactly when both inventories are there and equal up to hashes |
| SavedRuns.PassMeansAllPassed | src/mcp_behaviour_guard/baseline.py:657-667 | a run passes exactly when it has findings and all of them passed |
| SavedRuns.ObservationOrder | src/mcp_behaviour_guard/baseline.py:829-841 | not being observed less well is a partial order on observation states |
| SavedRuns.AcceptedMeans | src/mcp_behaviour_guard/cli.py:411-421 | exit code 0 means exactly: comparable, candidate passing, every reference check covered and not observed less well, inventories equal |
| SavedRuns.ExitCodeMeans | src/mcp_behaviour_guard/cli.py:411-421 | exit code 2 means exactly that a compared field is known on one side only or that one of those that name the target differs; any other comparison gives 0 or 1 |
| SavedRuns.AcceptanceTransitive | src/mcp_behaviour_guard/baseline.py:189-347 | acceptance is transitive over validated runs |
| SavedRuns.AcceptanceReflexive | src/mcp_behaviour_guard/baseline.py:189-347 | a run is accepted against itself exactly when it passes and has an inventory |
| SavedRuns.GapBreaksTheChain | src/mcp_behaviour_guard/baseline.py:719-731 | without validation a missing required field breaks transitivity |
| SavedRuns.ComparisonMirrored | src/mcp_behaviour_guard/baseline.py:200-235 | exchanging the runs exchanges new and fixed failures, new and resolved errors, missing and new checks |
| HostConfigText.OutputIsCommentFree | src/mcp_behaviour_guard/host_config.py:293-339 | the result has no comment opener outside strings, also for unterminated comments |
| HostConfigText.FixedWhenCommentFree | src/mcp_behaviour_guard/host_config.py:293-339 | removing comments changes nothing exactly when there is none |
| HostConfigText.StrippingIsIdempotent | src/mcp_behaviour_guard/host_config.py:293-339 | removing comments twice is removing them once |
| HostConfigText.StringsKept | src/mcp_behaviour_guard/host_config.py:302-318 | all strings are kept, character by character and in order |
| HostConfigText.BreaksKept | src/mcp_behaviour_guard/host_config.py:320-334 | every line break is kept, in order |
| HostConfigText.CommentFreePartStays | src/mcp_behaviour_guard/host_config.py:293-339 | a part without comments stays as it is, whatever follows it |
| HostConfigText.LineCommentGoes | src/mcp_behaviour_guard/host_config.py:320-324 | a line comment goes up to its line break, which stays |
| HostConfigText.BlockCommentGoes | src/mcp_behaviour_guard/host_config.py:326-334 | of a block comment exactly its line breaks stay |
| HostConfigText.OpenBlockGoes | src/mcp_behaviour_guard/host_config.py:326-334 | of a block comment that is never closed exactly its line breaks and its last character stay |
| HostConfigText.StripJsonComments | src/mcp_behaviour_guard/host_config.py:293-339 | the index-driven loop computes the comment-free text |
| HostConfigText.OnlyTrailingCommasGo | src/mcp_behaviour_guard/host_config.py:342-376 | the characters removed are exactly the commas outside strings whose next non-blank character is a closing bracket |
| HostConfigText.TrimmingTwice | src/mcp_behaviour_guard/host_config.py:342-376 | a second pass changes nothing exactly when no comma outside strings is followed by a trailing comma |
| HostConfigText.OnePassIsNotEnough | src/mcp_behaviour_guard/host_config.py:342-376 | a concrete text that needs two passes |
| HostConfigText.StripTrailingCommas | src/mcp_behaviour_guard/host_config.py:342-376 | the index-driven loop with its lookahead computes that text |
| EffectRules.EffectClaims | src/mcp_behaviour_guard/engine.py:1715-1759 | one claim for exactly the kinds with some rule, denying exactly when a rule denies outright, naming exactly its sources, and otherwise holding the allowlist |
| EffectRules.MergedEqualsSeparate | src/mcp_behaviour_guard/engine.py:1770-1804 | the merged claims flag an event exactly when some rule taken alone does, with the reason of the strictest |
| EffectRules.SideEffectViolations | src/mcp_behaviour_guard/engine.py:1770-1804 | reports exactly the flagged events, in order, with their reasons |
| EffectRules.ClaimsIgnoreOrder | src/mcp_behaviour_guard/engine.py:1715-1759 | contracts that forbid the same kinds in any order get the very same claims: keys, modes, patterns and sources |
| EffectRules.DeclarationOrder | src/mcp_behaviour_guard/engine.py:1736-1737 | the order of the forbidden kinds makes no difference |
| EffectRules.ObserverCoverage | src/mcp_behaviour_guard/engine.py:1527-1563 | unavailable exactly without a healthy observer; complete exactly when each required kind has a healthy complete observer |
| AccessMatrix.CheckTool | src/mcp_behaviour_guard/engine.py:406-487 | the verdicts of the loop are those that the contract and the probes determine, permitted identities first; the controls are the permitted identities let in |
| AccessMatrix.VerdictMeans | src/mcp_behaviour_guard/engine.py:439-455 | a permitted identity fails exactly when denied, any other exactly when let in; passing takes the opposite answer, a watched probe and, for a denial, a permitted identity let in; the severities follow |
| AccessMatrix.ControlsSoFar | src/mcp_behaviour_guard/engine.py:414-437 | when a non-permitted identity is judged, every permitted one has been probed |
| AccessMatrix.IdentityOrder | src/mcp_behaviour_guard/engine.py:414-442 | the order of the identities in the contract changes no verdict |
| AccessMatrix.DenialNeedsControl | src/mcp_behaviour_guard/engine.py:1666-1679 | a denial passes only after a permitted identity was let in by the same tool |

## Left out

- Request rows are a map by request id: the order by creation time in which a snapshot lists them is not modelled.
- Write barriers of the fixture store, `read_record` and `assert_schema_invariants`: they change nothing in the tables.
- CleanupWorld.Engine.Inspect: the engine is taken not to lie: an inspection succeeds only on a resource that is there, and its output names the resource as absent only when it is. Where a failure of another kind holds the words that stand for absence, this assumption fails, and what `Cleanup` says about absent resources with it.
- The output of an inspection is taken joined and in lower case, as the source classifies it; a removal of a container says whether there was such a container. Manifests, file digests and the JSON files of the cleanup are not modelled.
- Cleanup.CleanupResources: the caller is taken to list every container that can write to a volume, as the callers in the repository do; a container that nobody owns is outside it.
- JsonIntake.PreparseJson: which error a refused text gets is the first that the scan meets; that is not said in other words.
- Byte decoding, the schema version and the strict field types of `load_bounded_json`.
- Sizes, ratios, deadlines, metadata limits and header parsing of ZIP and TAR archives, symbolic links and special entries, and the ZIP rule that a directory by mode must have a trailing slash: each is one comparison. `validate_directory_budget`, `TrafficBudget` and the other counters are left out for the same reason.
- Ownership: distinct keys have distinct lock files (their names are SHA-256 digests); platforms without `fcntl`, the mode and owner checks of the lease directory, and errors of the operating system while a lock is given back are not modelled. A task waiting for an in-process lock may be overtaken, which the library's queue would not allow.
- Ownership.NoDeadlock: is about tasks that enter holding nothing. A nested scope that asks for further keys, below ones already held, is outside it; the nested scopes of the engine and the baseline ask for none. A child task inherits the held keys of its parent, which are a context variable, and so passes without locks; this is not modelled either.
- OwnershipScope.LockTables.ObserverOwnership: a wait that never ends is not modelled; a wait either gets the lock or is cut off.
- SettlingObserver.CollectSettled: a sleep takes at least as long as asked for and a cut-off fetch exactly the remaining time, but reading the clock may take any time; so the return itself, unlike the fetches, has no latest moment.
- CaptureLoop.LoopEnds: two readings of the clock at the top of successive rounds differ by at least one tick, whatever the tick is; a kill that leaves the process running ends the loop with an error.
- Redaction of command lines and output.
- Saved-run values are compared as values; that the source compares integers and floats by number is inside the value type. Severity changes and the digests of the saved files do not influence the exit code and are left out. Result lists are sets: their sorting is not modelled.
- The access matrix is modelled for one tool with a fixed outcome per identity; tools that are skipped in lab mode, the evidence attached to findings and the identity's effect events are left out.
- Collecting from several observers at once, correlation by operation id and the observers other than the HTTP one.
- Promotion, candidate materialization, controller plans, build adapters, demo scripts, reporting, alerts and contract generation: long lists of comparisons against constants, or plumbing.
