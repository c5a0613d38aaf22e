# Durable protocols of the desk repository, in Dafny

This project models the parts of the repository that keep state on disk under kills, retries and
concurrent processes, and proves what their documentation promises of them.  Code that works step by
step is modelled as classes and methods with loops; protocols between processes are state machines
whose steps interleave freely; contracts and validators are functions and predicates.  SHA-256 and
canonical JSON are datatype constructors, so equal digests mean equal bytes and nothing else is
assumed about them.

| file | what it models |
|---|---|
| `FileSystem.dfy` | names, inodes with link counts, four system calls, and a volume whose user may be killed before any call |
| `TradingLedger.dfy`, `TradingProtocol.dfy`, `TradingInvariant.dfy`, `TradingPreserved.dfy`, `TradingSafety.dfy` | the guarded trading runtime: validation of its ledger, and any number of enable, disable, worker and status processes under four locks |
| `TradingAnswers.dfy`, `TradingProgress.dfy`, `TradingRetries.dfy` | what an operation of that runtime has done once it has ended, that it ends when nothing obstructs it, and its retries |
| `RuntimeFiles.dfy` | the runtime ledger's files: staged publication, recovery, replay, append |
| `JournalTypes.dfy`, `JournalProjection.dfy`, `JournalChain.dfy` | journal events, the projection of a mission history, the verifier |
| `JournalAppend.dfy`, `JournalFiles.dfy`, `JournalStore.dfy` | single and batch appends, as functions and as the methods that implement them call by call |
| `JournalCli.dfy` | exporting a growing mission and retrying an evaluation |
| `BrigadeCapture.dfy` | the one-shot inference capture and its recovery |
| `CabinReader.dfy`, `CabinRetention.dfy`, `CabinContext.dfy` | the lock-free publication capture, the three retained publications, the ordered write-once context |
| `EffectiveDates.dfy`, `DeclaredScope.dfy`, `DeskSizing.dfy`, `BrigadeDebrief.dfy`, `Sorting.dfy` | date reconciliation and its declared coverage, desk sizing, the debrief parser, and Python's `sorted` |

Four statements of the design turn out to hold only under a condition, which is proved exactly:

* An append to the runtime ledger is accepted at exactly 100000 events, and after it the ledger can
  no longer be read at all: `RuntimeFiles.RuntimeLedger.Append` states that the chain reads back if
  and only if it was shorter than the bound, and `RuntimeFiles.AppendAtTheBound` performs that append
  on a directory of 100000 disabling controls.
* A journal batch agrees with one-by-one appends whenever those succeed; the other direction holds
  if and only if no event needs evidence that only a later material of the batch supplies
  (`JournalAppend.BatchIsSequentialIff`, with `JournalAppend.LateEvidence` as the concrete batch).
* Recovery of an interrupted inference capture completes if and only if the durable completion clock
  lies in the window of its receipts and is not in the future.  A wall clock that stepped back before
  the clock file was written leaves a capture that no recovery ever completes
  (`BrigadeCapture.Capsule.Resume`, `BrigadeCapture.ClockFixesOutcome`); `BrigadeCapture.SteppedBackRun`
  is such a run, from an empty directory, followed by any recoveries.
* No evaluation predates the latest imported revision of its mission
  (`JournalChain.EvaluationsFollowMissions`), but it may predate an earlier one, because nothing
  compares the clocks of two revisions: `JournalCli.EarlierRevisionLater` is such a journal, and
  `JournalCli.EvaluationAccepted` says exactly which evaluations are recorded.

`CabinReader.ReturningWriter` shows in the same way why the coherent capture needs a writer that never
returns to an earlier state, and `CabinReader.CanonicalNeverReturns` that the canonical writer is one.

## Model

| member | source | states |
|---|---|---|
| TradingLedger.AttemptHistories | src/blackpod_build_week/auto_trading_runtime.py:109-137 | in every valid ledger an attempt has one ATTEMPT, first, then each result at most once, SUBMITTED only as the first; all keep the original binding, and broker and client order ids are never lost or replaced |
| TradingLedger.NoReversal | src/blackpod_build_week/auto_trading_runtime.py:103-106 | a reduction never changes the sign of a position and never exceeds it; that every admitted one is such a reduction is `ReceiptsKeepPositions` |
| TradingLedger.ReceiptsKeepPositions | src/blackpod_build_week/auto_trading_runtime.py:74-108 | every receipt of a valid ledger describes the profile its session was opened for; one with an attempt is of a symbol that profile owns and, whatever the side, leaves the position stated through `After`: a sell between nothing and less than before, a buy against a short at most at nothing, a close at nothing |
| TradingLedger.ReceiptAccepted | src/blackpod_build_week/auto_trading_runtime.py:71-137 | the exact condition under which a valid ledger accepts a receipt: bound to an opening control, describing its profile, and either a refusal without order or an admissible next step of its attempt's history |
| TradingLedger.StatusAccepted | src/blackpod_build_week/auto_trading_runtime.py:488-515 | a status is accepted exactly when its session was opened for a profile of its mode and its states, continued by it, are still a lifecycle path |
| TradingLedger.ControlAccepted | src/blackpod_build_week/auto_trading_runtime.py:470-487 | a control is accepted exactly when no control has its action and, if it switches on, its profile is retained |
| TradingLedger.Lifecycles | src/blackpod_build_week/auto_trading_runtime.py:499-515 | the states of a session are a path of the lifecycle automaton with one start and nothing after an end |
| TradingLedger.DistinctActions | src/blackpod_build_week/auto_trading_runtime.py:480-481 | no two controls of a valid ledger share an action identity |
| TradingLedger.BindingIsFirst | src/blackpod_build_week/auto_trading_runtime.py:492-495 | a session is bound exactly when some control switched it on, and then to the first that did |
| TradingPreserved.EveryState | src/blackpod_build_week/auto_trading_runtime.py:650-748 | the inductive invariant over program counters, lock owners, ledger and orders holds in every state of every run; what an ended operation has done is `TradingAnswers`, that it ends is `TradingProgress` |
| TradingSafety.SingleWorker | src/blackpod_build_week/auto_trading_worker.py:18-21 | at most one worker is past its admission check, and the latest control names its session |
| TradingSafety.NoReplacement | src/blackpod_build_week/auto_trading_runtime.py:672-686 | while a worker works, the only control anyone can record switches its own session off |
| TradingSafety.LedgerOnlyGrows | src/blackpod_build_week/auto_trading_runtime.py:449-468 | the ledger of a later state extends that of an earlier one |
| TradingSafety.NeverReopens | src/blackpod_build_week/auto_trading_runtime.py:741-748 | once a session has been switched off its entry gate is never open again in any run |
| TradingSafety.OpenedByOne | src/blackpod_build_week/auto_trading_runtime.py:674-686 | a session is enabled by exactly one control, the one it is named after |
| TradingSafety.CloseHitsItsOwn | src/blackpod_build_week/auto_trading_runtime.py:741-748 | the internal close, though read and appended separately, meets its own session open, is never refused, uses a fresh action id and never disables a later session |
| TradingSafety.OffStopsIncreases | src/blackpod_build_week/galactica_trading_adapter.py:353-421 | after any control switches a session off, no risk-increasing order of it is sent |
| TradingSafety.EndsAfterClosing | src/blackpod_build_week/auto_trading_worker.py:38-69 | a terminal status is preceded in the ledger by the closing of its session's gate |
| TradingSafety.BoundToItsOpening | src/blackpod_build_week/auto_trading_runtime.py:488-498 | every status and receipt resolves to the one control of the whole ledger that opened its session |
| TradingSafety.ReachableLedgersAreValid | src/blackpod_build_week/auto_trading_runtime.py:470-518 | attempts and lifecycles obey their rules in every reachable ledger |
| TradingSafety.RankOrder | src/blackpod_build_week/auto_trading_runtime.py:672-732 | locks are only ever acquired in the order controller, worker, submission, ledger |
| TradingSafety.NoDeadlock | src/blackpod_build_week/auto_trading_runtime.py:672-732 | while any process is unfinished some process can take a step of its own |
| TradingAnswers.DisableRecords | src/blackpod_build_week/auto_trading_runtime.py:716-738 | in every run a disable that ended without an exception has exactly one control of its action in the ledger, its own OFF control after the one it found, and there no session's gate is open; with an action unused before, it is new |
| TradingAnswers.EnableRecords | src/blackpod_build_week/auto_trading_runtime.py:650-713 | an enable that ended without an exception has exactly one control of its action in the ledger, the one that opens its session's gate; with an action unused before, it is new |
| TradingAnswers.WorkerRecords | src/blackpod_build_week/auto_trading_worker.py:18-69 | a worker that ended without an exception has recorded the terminal status of that ending, after its session's gate had been closed |
| TradingAnswers.IntentFirst | src/blackpod_build_week/galactica_trading_adapter.py:393-406 | every order of every run was sent after an attempt of its session had been recorded |
| TradingProgress.DisableCompletes | src/blackpod_build_week/auto_trading_runtime.py:716-738 | a disable with a new action that meets no foreign lock takes exactly fourteen steps, never blocks, and leaves its OFF control and nothing else |
| TradingProgress.EnableCompletes | src/blackpod_build_week/auto_trading_runtime.py:672-713 | an enable with a new action, the last control off and no lock taken, takes exactly fifteen steps, leaves its opening control and nothing else, and a worker for the session |
| TradingProgress.WorkerIsAdmitted | src/blackpod_build_week/auto_trading_worker.py:18-24 | with the worker lock free a worker is admitted exactly when its session's gate is open, with the profile of the latest control |
| TradingProgress.WorkerStarts | src/blackpod_build_week/auto_trading_worker.py:38-55 | an admitted worker whose gate is still open can record its start and run |
| TradingProgress.OrderGoesOut | src/blackpod_build_week/galactica_trading_adapter.py:393-421 | a running worker whose gate is open can record any attempt the ledger accepts and then send its risk-increasing order |
| TradingProgress.WorkerCloses | src/blackpod_build_week/auto_trading_worker.py:47-69 | a closing worker that meets no foreign lock ends within thirteen steps: it closes its gate if that is open, records its end exactly when that continues the lifecycle, and appends nothing else |
| TradingRetries.RetryCompletes | src/blackpod_build_week/auto_trading_runtime.py:675-680 | an enable or disable under a used action that meets no foreign lock takes exactly eight steps, writes nothing, and is accepted if and only if the control recorded under that action is the one it asks for |
| RuntimeFiles.IdentitiesAreImmutable | src/blackpod_build_week/auto_trading_runtime.py:282-342 | over any history of publications and kills no published name changes or disappears, and at most one staged name exists |
| RuntimeFiles.SafeToRemove | src/blackpod_build_week/auto_trading_runtime.py:330-342 | the staged name of an interrupted directory passes the recovery checks and its removal changes nothing published |
| RuntimeFiles.RuntimeLedger.Recover | src/blackpod_build_week/auto_trading_runtime.py:323-342 | recovery settles every interrupted directory, keeps what is published, and does nothing to a settled one |
| RuntimeFiles.RuntimeLedger.Immutable | src/blackpod_build_week/auto_trading_runtime.py:282-320 | wherever it is killed the name is absent or complete; identical bytes are accepted, different ones are a conflict that changes nothing |
| RuntimeFiles.RuntimeLedger.Events | src/blackpod_build_week/auto_trading_runtime.py:403-435 | replay returns the chain exactly when the directory holds one |
| RuntimeFiles.FilesAreChained | src/blackpod_build_week/auto_trading_runtime.py:416-434 | file k of a readable ledger holds event k under its own number, the digest of the file before it, and the digest of exactly that |
| RuntimeFiles.DigestFixesLedger | src/blackpod_build_week/auto_trading_runtime.py:416-434 | equal last digests mean equal ledgers |
| RuntimeFiles.RuntimeLedger.Append | src/blackpod_build_week/auto_trading_runtime.py:449-468 | an accepted append extends the chain by its event, a refused one changes nothing, a kill leaves one or the other; it reads back iff the chain was below the bound; which events are refused is `ReceiptAccepted`, `StatusAccepted` and `ControlAccepted` |
| RuntimeFiles.EveryLength | src/blackpod_build_week/auto_trading_runtime.py:470-487 | there are valid ledgers of every length, by repeated disabling, and each admits one more event |
| RuntimeFiles.AppendAtTheBound | src/blackpod_build_week/auto_trading_runtime.py:403-468 | a directory of exactly 100000 events reads back, accepts one more event, and then no longer reads back |
| JournalProjection.ProjectionIsLocal | src/blackpod_build_week/decision_journal_projection.py:340-408 | a revision's event depends only on the files that revision declares |
| JournalProjection.EventStandsAlone | src/blackpod_build_week/decision_journal_projection.py:340-408 | event k of an n-revision history is the projection of revision k alone from the event's own evidence |
| JournalProjection.ProjectedIff | src/blackpod_build_week/decision_journal_projection.py:258-408 | when a history is projected and to what, revision by revision: evidence captured, native records in agreement with the snapshot, plan constraints and lineage, clock, identity, references and payload |
| JournalProjection.ArtifactDocIs | src/blackpod_build_week/decision_journal_projection.py:251-256 | the parsed artifact of a name is the one document the snapshot declares under it, or none |
| JournalChain.SealFixesHistory | src/blackpod_build_week/decision_journal_store.py:298-316 | equal final predecessor hashes mean equal chains |
| JournalChain.MissionsAreReported | src/blackpod_build_week/decision_journal_projection.py:272-337 | every mission event of a scanned journal reports its own retained snapshot: verdict, authorization and execution status as recorded, an execution status only with a recorded plan, approval and declared plan sources |
| JournalChain.DomainIsFixed | src/blackpod_build_week/decision_journal_store.py:352-356 | one map from decision id to domain holds for the whole chain |
| JournalChain.MissionChain | src/blackpod_build_week/decision_journal_store.py:357-401 | the events of each mission follow one another from revision 1 |
| JournalChain.RevisionsAreHashed | src/blackpod_build_week/decision_journal_store.py:379-385 | the k-th mission event has revision k+1 and names the hash of the one before |
| JournalChain.ProvenanceIsStable | src/blackpod_build_week/decision_journal_store.py:386-401 | an artifact or component of revision i is unchanged, and retained, in every later revision; the start time never changes |
| JournalChain.EvaluationsFollowMissions | src/blackpod_build_week/decision_journal_store.py:574-589 | every evaluation of a valid chain follows a mission event of its decision, is not earlier than the latest of them before it, repeats that one's execution status, and references exactly its canonical bytes |
| JournalChain.PoliciesAreTheirBytes | src/blackpod_build_week/decision_journal_store.py:590-598 | every policy event of a valid chain is its retained canonical bytes, with identities made of the policy id and no second event for it |
| JournalChain.EventAccepted | src/blackpod_build_week/decision_journal_store.py:342-598 | the exact condition under which a chain accepts an event: contract, retained evidence, one domain a decision, a new identity, and by kind what the chain before it must hold |
| JournalAppend.BatchRefinesSequential | src/blackpod_build_week/decision_journal_batch.py:97-134 | whenever the one-by-one appends succeed, the batch yields the same chain, evidence and results |
| JournalAppend.BatchIsSequentialIff | src/blackpod_build_week/decision_journal_batch.py:101-115 | a batch that succeeds would have succeeded one by one iff every new event finds its evidence retained, supplied with it, or referenced before it |
| JournalAppend.LateEvidence | src/blackpod_build_week/decision_journal_batch.py:101-115 | a concrete accepted batch whose materials are refused one by one |
| JournalAppend.RetryConverges | src/blackpod_build_week/decision_journal_batch.py:103-139 | an exact batch retry on whatever a kill left ends in the same journal with the same sequence numbers |
| JournalAppend.AppendRetryConverges | src/blackpod_build_week/decision_journal_store.py:692-717 | the same for a single append |
| JournalAppend.AppendAccepted | src/blackpod_build_week/decision_journal_store.py:672-709 | the exact condition under which an append is answered: contract and sizes, supplied files that are what their keys say, and an event that is recorded already or a valid extension whose entry fits |
| JournalAppend.AppendMeans | src/blackpod_build_week/decision_journal_store.py:692-717 | an answered append names the entry that holds exactly its event; it is written exactly when the identity is new, and then it and its evidence are all that is added |
| JournalAppend.ConflictRefused | src/blackpod_build_week/decision_journal_store.py:692-695 | a different event under a recorded identity is refused |
| JournalAppend.BatchMeans | src/blackpod_build_week/decision_journal_batch.py:101-139 | each answer of a batch names the entry that holds exactly its event, written exactly when the journal did not hold that identity |
| JournalAppend.RetriesConverge | src/blackpod_build_week/decision_journal_batch.py:121-139 | any number of killed attempts is followed by the same final journal |
| JournalFiles.SameJournal | src/blackpod_build_week/decision_journal_store.py:276-322 | the published files determine the journal |
| JournalFiles.EvidenceIsPublished | src/blackpod_build_week/decision_journal_store.py:346-351 | every reference of every listed entry names a published, whole evidence file of the recorded size |
| JournalFiles.EntriesAreChained | src/blackpod_build_week/decision_journal_store.py:291-316 | entry k of a scanned journal is a whole file that holds event k, its number and the digest of the entry before it |
| JournalFiles.InterruptedIsTidy | src/blackpod_build_week/decision_journal_store.py:324-339 | whatever a kill inside one publication leaves passes the link check |
| JournalFiles.Discarded | src/blackpod_build_week/decision_journal_store.py:667-670 | discarding a staging file changes nothing published and keeps the link check |
| JournalStore.JournalStore.Scan | src/blackpod_build_week/decision_journal_store.py:263-322 | a scan returns the journal exactly when the disk holds one |
| JournalStore.JournalStore.Entries | src/blackpod_build_week/decision_journal_store.py:291-316 | the entry loop returns the valid chain of the listed entries, and fails only when there is none |
| JournalStore.JournalStore.ValidateLinks | src/blackpod_build_week/decision_journal_store.py:324-339 | accepts exactly single links and one staged-to-committed pair per inode; what it refuses no scan accepts |
| JournalStore.JournalStore.ClearStaging | src/blackpod_build_week/decision_journal_store.py:667-670 | leaves the same journal, settled, wherever it is killed |
| JournalStore.JournalStore.Publish | src/blackpod_build_week/decision_journal_store.py:202-232 | never replaces a name; killed anywhere, the name is absent or whole and at most one staged link is left |
| JournalStore.JournalStore.PublishEvent | src/blackpod_build_week/decision_journal_store.py:710-717 | evidence before entry: at every kill point a rescan succeeds between the old and the new journal |
| JournalStore.JournalStore.CheckSupplied | src/blackpod_build_week/decision_journal_store.py:671-691 | accepts supplied evidence exactly when every file is bounded, a digest key is the digest of its bytes, and a path key the event references holds the referenced bytes |
| JournalStore.JournalStore.Append | src/blackpod_build_week/decision_journal_store.py:629-717 | answers as the append specification does, whose exact condition and meaning are `AppendAccepted`, `AppendMeans` and `EventAccepted`; an unverifiable disk is left alone; killed anywhere, a rescan finds the old chain with or without the event and only evidence it needs |
| JournalStore.JournalStore.Prepare | src/blackpod_build_week/decision_journal_batch.py:26-65 | admits a batch exactly when it is bounded, well formed, of distinct identities and within the distinct supplied bytes |
| JournalStore.JournalStore.PlanBatch | src/blackpod_build_week/decision_journal_batch.py:101-119 | the validation loop computes the planned chain, entries and results, or refuses exactly when the specification does |
| JournalStore.JournalStore.PublishBatch | src/blackpod_build_week/decision_journal_batch.py:120-134 | at every kill point a rescan finds the old chain and a prefix of the new events |
| JournalStore.JournalStore.AppendBatch | src/blackpod_build_week/decision_journal_batch.py:22-139 | answers as the batch specification does; a batch with an invalid member publishes no entry and no evidence; killed anywhere, a rescan succeeds in between |
| JournalCli.AcceptedInOrder | src/blackpod_build_week/decision_journal_projection.py:219-238 | every verified history is accepted, revision by revision, by the store's MISSION check |
| JournalCli.ExportWritesNewRevisions | src/blackpod_build_week/decision_journal_cli.py:192-214 | exporting on a journal that holds the first m revisions writes exactly the others, in order |
| JournalCli.GrowthKeepsEvents | src/blackpod_build_week/decision_journal_projection.py:340-408 | later revisions change no event projected before |
| JournalCli.ExportAgain | src/blackpod_build_week/decision_journal_cli.py:192-214 | import, growth, re-import: the second export adds exactly the revisions recorded in between |
| JournalCli.EvaluationRebuilds | src/blackpod_build_week/decision_journal_cli.py:217-238 | a retried evaluation rebuilds the recorded event iff it submits the recorded content and evidence |
| JournalCli.EvaluationRetryIsNoOp | src/blackpod_build_week/decision_journal_cli.py:217-243 | once recorded, an evaluation can be retried on any later journal: nothing is written and the sequence is the same; when it is first recorded is `EvaluationAccepted` |
| JournalCli.EvaluationAccepted | src/blackpod_build_week/decision_journal_cli.py:217-243 | an evaluation not yet recorded is accepted exactly when a mission event of its decision is imported, the latest of them is not later than it, and its bytes, event and entry fit; then it is written last, field by field as stated, and nothing else |
| JournalCli.EarlierRevisionLater | src/blackpod_build_week/decision_journal_store.py:580-582 | a concrete journal that accepts an evaluation earlier than the first of two imported revisions, but not earlier than the latest |
| BrigadeCapture.CrashStatesAreAccepted | src/blackpod_build_week/brigade_shadow_transport.py:298-327 | the receipt check accepts every state a kill can leave |
| BrigadeCapture.SentAtMostOnce | src/blackpod_build_week/brigade_shadow_transport.py:356-449 | over any sequence of captures, kills, reruns and recoveries each planned request is sent at most once, sent requests are a prefix of the plan, at most one is unconfirmed and none follows a receipt that is not validated; which replies give such a receipt is stated by `Attempt` |
| BrigadeCapture.FilesAreFinal | src/blackpod_build_week/brigade_shadow_transport.py:356-449 | no written file ever changes, and after the reservation no run reaches the provider again |
| BrigadeCapture.ClockFixesOutcome | src/blackpod_build_week/brigade_shadow_transport.py:258-290 | the first durable completion clock determines bundle, sealed request and analysis in every later state, and a clock outside the window means none is ever written |
| BrigadeCapture.SteppedBackRun | src/blackpod_build_week/brigade_shadow_transport.py:258-280 | from an empty directory, an unkilled run whose wall clock steps back leaves exactly one directory, which no later recovery, with any clocks and killed anywhere, completes |
| BrigadeCapture.Capsule.CollectCalls | src/blackpod_build_week/brigade_shadow_transport.py:298-317 | the directory pass collects every intent and receipt, and fails only on a directory that is refused |
| BrigadeCapture.Capsule.SavedReceipts | src/blackpod_build_week/brigade_shadow_transport.py:298-327 | returns the receipts exactly when intents and receipts are gapless prefixes that agree with plan and configuration |
| BrigadeCapture.Capsule.Seal | src/blackpod_build_week/brigade_shadow_transport.py:274-287 | publishes the closing documents, or is killed with the directory still consistent |
| BrigadeCapture.Capsule.Finish | src/blackpod_build_week/brigade_shadow_transport.py:258-290 | completes iff the durable, or else the fresh, completion clock is in the receipts' window and not in the future |
| BrigadeCapture.Capsule.Resume | src/blackpod_build_week/brigade_shadow_transport.py:362-392 | a run after the reservation makes no call and completes exactly under the stated condition |
| BrigadeCapture.Capsule.Call | src/blackpod_build_week/brigade_shadow_transport.py:420-447 | intent before request before receipt; killed anywhere, the directory stays consistent |
| BrigadeCapture.Capsule.Attempt | src/blackpod_build_week/brigade_shadow_transport.py:395-449 | the one run that reaches the provider, in terms of its replies: each request but the first is sent only after a good answer to the one before, each within the time left and with current forecasts; a receipt is validated, with the text, exactly for a good answer, and failures, expired and oversized answers have their own status and no text; it stops only for want of requests, a bad reply, time or forecasts; if every call meets its delivery budget the last answer is heard within 300 seconds |
| BrigadeCapture.Capsule.Capture | src/blackpod_build_week/brigade_shadow_transport.py:330-449 | any run on any state keeps the directory consistent, changes no file, and reaches the provider only without recovery and without a prior reservation; a fresh admitted run is such an attempt, with the same statements on requests, replies and receipts, and a run after the reservation completes exactly under the recovery condition |
| CabinReader.CanonicalNeverReturns | src/blackpod_build_week/cabin_reader.py:359-401 | write-once files and an advancing pointer never return to an earlier value |
| CabinReader.DoubleCollect | src/blackpod_build_week/cabin_reader.py:385-401 | what is seen before and after an instant is what the directory held at that instant |
| CabinReader.ReturningWriter | src/blackpod_build_week/cabin_reader.py:385-388 | against a writer that goes back, both collections can agree on a directory that never existed |
| CabinReader.TotalUpdate | src/blackpod_build_week/cabin_reader.py:253-260 | replacing or adding one captured file changes the byte total by exactly the difference |
| CabinReader.Capture.CaptureFile | src/blackpod_build_week/cabin_reader.py:253-260 | one capture adds one file and never exceeds the memory limit |
| CabinReader.Capture.CaptureAll | src/blackpod_build_week/cabin_reader.py:374-376 | captures a set of sources in any order; from a directory at rest, exactly when they all exist and fit the limits together |
| CabinReader.Capture.CaptureParts | src/blackpod_build_week/cabin_reader.py:292-333 | all declared parts are captured within their declared sizes, each of those within the bound of one variant, and the limit; from a directory at rest, exactly when each part fits at its turn |
| CabinReader.Capture.LoadMission | src/blackpod_build_week/cabin_reader.py:176-202 | the validated pointer was the directory's pointer at an instant of the load; what was read are its declared sources, valid together, within the limit; a directory at rest is loaded exactly when they exist, fit and validate |
| CabinReader.Capture.CaptureOptional | src/blackpod_build_week/cabin_reader.py:263-356 | an optional document is captured with its parts or was absent at an instant of the capture; from a directory at rest, exactly when it and its parts exist and fit |
| CabinReader.Capture.ReadAgain | src/blackpod_build_week/cabin_reader.py:385-388 | agreement means every captured byte was seen again |
| CabinReader.Capture.SameOptionals | src/blackpod_build_week/cabin_reader.py:392-401 | agreement means every uncaptured optional document was seen absent again |
| CabinReader.Capture.CapturePublication | src/blackpod_build_week/cabin_reader.py:359-456 | the sources of every publication equal the mission directory at one single instant of the capture, are those its pointer declares, and the published bytes are within the limit; a directory at rest, with or without optional documents, is published exactly when it can be, and then as it is; every captured source the projection does not write is published with the bytes the directory held at that instant, every projected file with its own, the manifest is computed from exactly the other files and is the identity, and there is nothing else |
| CabinReader.SourcesAre | src/blackpod_build_week/cabin_reader.py:359-401 | the sources of a directory at rest, name by name: those its pointer declares, the pointer and the request, and each optional document it holds with the parts that document refers to |
| CabinRetention.HoldsLastThree | src/blackpod_build_week/cabin_reader.py:482-488 | after any captures the reader holds exactly the last three distinct publications, by latest capture |
| CabinRetention.Cabin.Remember | src/blackpod_build_week/cabin_reader.py:472-488 | refuses a known identity with other bytes, otherwise keeps the last three distinct |
| CabinRetention.Cabin.Artifact | src/blackpod_build_week/cabin_reader.py:499-502 | returns bytes exactly of publications still held |
| CabinContext.NextKeeps | src/blackpod_build_week/cabin_context.py:870-915 | every step of every concurrent capture keeps the invariant and what is published |
| CabinContext.ContextIsComplete | src/blackpod_build_week/cabin_context.py:1033-1054 | in every run of concurrent, conflicting, killed and retried captures, from any complete directory, an existing context file references only artifacts that exist with the referenced bytes |
| CabinContext.FinishedIsPublished | src/blackpod_build_week/cabin_context.py:1048-1062 | in every run a capture that finished has its context and every artifact it references published with the referenced bytes; one that failed met a target with other bytes, which is still there |
| CabinContext.EveryCaptureEnds | src/blackpod_build_week/cabin_context.py:1033-1062 | whatever other captures do, an unfinished capture always has a step of its own, and ends after at most twenty of them |
| CabinContext.Presentation.Capture | src/blackpod_build_week/cabin_context.py:1048-1062 | without concurrent writers a capture conflicts exactly when the market, portfolio or context file exists with other bytes, and then publishes nothing; otherwise it completes the set and adds no other file |
| EffectiveDates.BucketsConserve | src/blackpod_build_week/effective_date_reconciliation.py:100-108 | every compared row of either side lands in exactly one bucket, as often as it occurs |
| EffectiveDates.ComparedRows | src/blackpod_build_week/effective_date_reconciliation.py:92-99 | exactly the dated in-span rows without a conflict status are compared, under their own key |
| EffectiveDates.MatchesAreOneToOne | src/blackpod_build_week/effective_date_reconciliation.py:101-106 | a match pairs one native with one independent action of equal key, and no other action has that key |
| EffectiveDates.BucketOfRow | src/blackpod_build_week/effective_date_reconciliation.py:37-108 | the bucket of a compared row, on the rows themselves: by how many compared rows of either side have its type, date and symbol set |
| EffectiveDates.MatchesAgree | src/blackpod_build_week/effective_date_reconciliation.py:37-106 | the two rows of a match have equal type, equal date and equal symbol sets, and no other compared row of either side has them |
| EffectiveDates.InSpanIff | src/blackpod_build_week/effective_date_reconciliation.py:92-99 | an independent row is compared exactly when it is dated within the span, both ends included, and confirmed; a native one when it is dated and in the dataset |
| EffectiveDates.ListedRows | src/blackpod_build_week/effective_date_reconciliation.py:92-99 | exactly the undated rows are listed as unknown, under their own source, and exactly the unconfirmed independent rows as status conflicts |
| EffectiveDates.BucketsIgnoreOrder | src/blackpod_build_week/effective_date_reconciliation.py:89-108 | reordering the rows of either side changes no bucket |
| EffectiveDates.SymbolConflictIff | src/blackpod_build_week/effective_date_reconciliation.py:111-116 | a possible conflict is a symbol conflict exactly when type and date agree |
| EffectiveDates.PairsAre | src/blackpod_build_week/effective_date_reconciliation.py:111-117 | exactly those pairs of one-sided groups are possible conflicts that share the type or the date, and both of them if they share no symbol |
| EffectiveDates.MatrixCountsIncidences | src/blackpod_build_week/effective_date_reconciliation.py:118-124 | the matrix counts add up to the (in-span row, universe symbol) incidences over the supported types |
| EffectiveDates.GroupSide | src/blackpod_build_week/effective_date_reconciliation.py:90-99 | the dictionary of a side lists, under each key, its ids in order |
| EffectiveDates.Bucketing | src/blackpod_build_week/effective_date_reconciliation.py:100-108 | the bucketing loop computes the four buckets of the sorted keys |
| EffectiveDates.AddPairs | src/blackpod_build_week/effective_date_reconciliation.py:111-117 | the pair loop lists every possible conflict in order, or is refused exactly beyond its bound |
| EffectiveDates.Coverage | src/blackpod_build_week/effective_date_reconciliation.py:118-124 | every place of the matrix counts its observed events, lists exactly their dates and the intervals declared for it, and the days no declared interval covers |
| EffectiveDates.GapsAreBounded | src/blackpod_build_week/contracts/effective_date_reconciliation.py:273-274 | with the sixteen sources a request allows, no place ever lists more than the 32 gaps the result contract allows |
| EffectiveDates.Gather | src/blackpod_build_week/effective_date_reconciliation.py:55-88 | collects the rows and symbols of every source, and refuses exactly when a source repeats an id or a body, reuses an original body, leaves the universe, or exceeds the row bound |
| DeclaredScope.GapsAreUnique | src/blackpod_build_week/contracts/effective_date_reconciliation.py:100-110 | the conditions on the gaps of a span leave exactly one list |
| DeclaredScope.ScopeGaps | src/blackpod_build_week/contracts/effective_date_reconciliation.py:100-110 | the sweep over sorted intervals lists exactly the uncovered days of the span, as few, ordered, separated gaps |
| EffectiveDates.Reconcile | src/blackpod_build_week/effective_date_reconciliation.py:55-124 | the whole report: buckets, unknown dates, conflicts, matrix with dates, intervals and gaps, and source inventory; refused exactly when a source is refused or a workload bound is exceeded |
| DeskSizing.PilotSizeIsLargest | src/blackpod_build_week/desk_candidate_review.py:222-238 | the pilot size is the largest whole number of shares within the entry cap and the scenario-loss cap |
| DeskSizing.PickPilot | src/blackpod_build_week/desk_candidate_review.py:226-244 | the pick is the first ranked pilot with a positive size, within both caps |
| DeskSizing.ChooseHoldings | src/blackpod_build_week/desk_candidate_review.py:245-267 | costs plus reserve equal the budget exactly, each cost is within cap and remaining cash and cannot take one more share, the reserve is never negative, at most three; in rank order, and a candidate is passed over only if three better ranked are held or not one share fits |
| DeskSizing.BestRanked | src/blackpod_build_week/desk_candidate_review.py:372-385 | no better ranked pilot has a positive size |
| DeskSizing.CategoriesAre | src/blackpod_build_week/desk_candidate_review.py:343-368 | who may be picked, held or excluded, on the evidence: a pilot is liquid and neither natively rejected, blocked nor gated; a holding is a liquid fund with issuer facts and no corporate action before the horizon |
| DeskSizing.PilotsRank | src/blackpod_build_week/desk_candidate_review.py:374-376 | REVIEW goes before WATCH before OBSERVE, then the tighter spread, the larger volume, the earlier symbol |
| DeskSizing.HoldingsRank | src/blackpod_build_week/desk_candidate_review.py:377-380 | holdings go by their asset class, then by symbol |
| DeskSizing.CapIs | src/blackpod_build_week/desk_candidate_review.py:222-225 | a cap is the largest whole number of cents within its share of the budget |
| DeskSizing.Review | src/blackpod_build_week/desk_candidate_review.py:343-385 | ranking and sizing together: the pick is liquid, neither rejected, blocked nor gated, the best such that can be sized, never also an investment; the budget is conserved; holdings are liquid funds with issuer facts in research rank order and none that could be held is passed over |
| BrigadeDebrief.ReportsMatchHeaders | fixtures/shadow_galactica_analysis/brigade_debrief.py:118-247 | one report per header line in header order; a report not marked incomplete has a decision, an incomplete one says why |
| BrigadeDebrief.SectionsAreTheLog | fixtures/shadow_galactica_analysis/brigade_debrief.py:98-247 | one section for each header line, with exactly the lines up to the next header: no line from the first header on is lost, repeated or moved |
| BrigadeDebrief.IncompleteIff | fixtures/shadow_galactica_analysis/brigade_debrief.py:98-247 | a report is what its own section reads, marked incomplete exactly when the run was interrupted, another symbol began before it was closed, or the log ended before its decision, with a note for each of these |
| BrigadeDebrief.ClosedStays | fixtures/shadow_galactica_analysis/brigade_debrief.py:218-226 | nothing after the closing separator changes a report |
| BrigadeDebrief.Absorb | fixtures/shadow_galactica_analysis/brigade_debrief.py:145-235 | every pending reason index stays valid, whatever the line |
| BrigadeDebrief.ReadLine | fixtures/shadow_galactica_analysis/brigade_debrief.py:145-235 | one line adds at most one call or vote and keeps all earlier ones, a reason reaches only the pending vote of the council being read, a decision is never lost, and the report is closed exactly by a separator after its decision; the direction, confidence and reasoning a report carries are those of the line that set them |
| BrigadeDebrief.ParseLog | fixtures/shadow_galactica_analysis/brigade_debrief.py:98-247 | the parser's reports are those of the log's sections, each from its own lines alone |

## Left out

- RuntimeFiles.RuntimeLedger.Append: one event directory; the separate profile directory, which uses the same publication, is a set of retained profiles.
- TradingSafety.NoDeadlock: says that a step is possible, not that a scheduler takes it, and fairness between processes is not assumed (that an operation nobody obstructs ends is `TradingProgress`); the per-account admission lock, taken without blocking outside the runtime root, is not modelled.
- TradingPreserved.EveryState: the expiry of a capital authorization, the profile files' own validation and the 100000-event bound do not appear in the interleaving model; a status observer may hold the worker lock for a moment, as in the source.
- TradingLedger.AttemptHistories: receipts without a schema version carry no attempt and are validated elsewhere; decimal context precision is not modelled, so positions and quantities are exact.
- JournalChain.MissionChain: the validators of the other event kinds are one abstract predicate of the event and the chain before it; digests name their bytes, so it sees referenced evidence and no other.
- JournalProjection.ProjectionKeepsSemantics: stages, phase and outcome of a snapshot are one opaque summary; only ASCII white space is trimmed; repeated artifact names are excluded by the snapshot contract.
- JournalStore.JournalStore.Append: verification and conflict errors are one refusal; the lock file, directory creation and path hardening are not modelled; a kill stops the process between system calls, and loss of unsynchronised directory entries on power failure is not modelled.
- JournalStore.JournalStore.AppendBatch: evidence is published in an arbitrary order within one event, of which the sorted order is one.
- JournalCli.ExportWritesNewRevisions: assumes that identities of governed events never equal mission identities, which hash their kind; the concurrent re-reads while loading a history are not modelled.
- BrigadeCapture.Capsule.Capture: each write is one atomic durable step (the hard-link detail is that of `RuntimeFiles`); copies of the source evidence and provenance checks of the provider's envelope are not modelled, and the analysis is an abstract function of the sealed request.
- CabinReader.Capture.LoadMission: the validation of a loaded mission lives in the mission store and is an abstract predicate of the bytes read; a single file read is one instant, its size and time stamp re-check being the reason.
- CabinReader.Capture.CapturePublication: when a capture must succeed is stated for a directory at rest; coherence is stated for every directory.
- CabinContext.ContextIsComplete: a linked file is a copy of its finished temporary file; both have immutable content.
- EffectiveDates.Reconcile: evidence closure, clocks and scopes of the sources, inventory parsing, reason codes and the coverage proposal are not modelled; strings and calendar days are integers in the same order.
- DeskSizing.Review: decimals are exact rationals, so division at 64 digits is not modelled; quote and bar parsing, the metric averages and the wording of reasons are left out, and the advisor gate is one flag of a candidate.
- BrigadeDebrief.ParseLog: a line is what the regular expressions match in it; the expressions themselves, the time stamp and the renderers are not modelled.
- The council workflow, the HTTP handlers, rendering, command-line parsing, builders, prompts and indicators are input, output or one-branch checks and add no protocol.
