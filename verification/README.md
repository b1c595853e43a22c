# Knowledge pipeline models

This project models the stateful parts of the knowledge pipeline and proves what they keep, over
every run, every interleaving and every crash. Each model is a Dafny program of its own; `dafny
verify dfyconfig.toml` checks all of them.

| part | modules | what it is |
|---|---|---|
| ADK job queue | `AdkJobQueue`, `AdkJobStore`, `AdkEnqueue`, `AdkJobWorker`, `AdkJobSafety`, `AdkJobAttempts`, `AdkJobEndings` | a nine-status job machine over a store whose only concurrency control is compare-and-set on the status; any number of workers and recovery sweeps, interleaved at every store and provider call |
| live pilot | `LivePilotCheckpoint`, `LivePilotRun`, `LivePilotSafety`, `LivePilotReadback` | a write-ahead checkpoint with atomic rename; runs that die between any two effects |
| e-mail importer | `EmailWorker`, `EmailLoops`, `EmailSafety`, `EmailUploads`, `EmailRuns` | cursors and one in-flight record, replayed against a control plane that is idempotent per key; identifiers as in sections 2.3.1.1 and 6.4.8 of RFC 3501 |
| crawler | `CrawlManifests`, `CrawlGraph`, `CrawlFrontier`, `CrawlRun` | the concurrent, layered crawl with budgets and shared manifest objects |
| radar intake | `RadarCsv`, `RadarIntake`, `RadarPlanner`, `RadarMeaning` | the CSV state machine for section 2 of RFC 4180 and the validating planner |
| extraction | `ExtractText`, `ExtractTable`, `ExtractTrees` | text normalisation, Markdown tables (section 4.10 of GitHub Flavored Markdown), explicit-stack traversals, PDF windows |
| relocation | `RelocationStore`, `RelocationRun` | the additive, resumable copy of a content-addressed tree |

`Common` holds options, results, text order, trimming, decimal numbers and counting.

Conventions. Text is `seq<char>`, and bytes are text. Hashes, directory listings, clocks, random
names and whatever a remote party answers are arguments; where injectivity of a hash matters it is
a hypothesis (`Injective`, `World.Valid`). An exception is an `Err`, a `Some(error)` or a named
outcome. Code that updates state in place is a class or a loop proved against a function of the old
state; the theorems over whole runs are lemmas about those functions, or invariants the methods keep.

Where the code differs from what one might expect, the model follows the code:

- the two job stores do not claim in the same order (`AdkJobStore.ClaimOrdersAgree` says when they do);
- a stale CLAIMED snapshot can bring back an older attempt count: attempts count the failures exactly in the runs without a harmful stale write (`AdkJobAttempts.CountedRun`), and the limit can be passed exactly after one (`AdkJobAttempts.BoundBreaksExactly`, `StaleStartsBreakTheBound`);
- the pilot's lineage check lets blank identifiers through, which the next read refuses (`LivePilotReadback.ReadBackExactly`, `BlankIdentifierHappens`);
- an empty first e-mail import forgets `initialUid` (`EmailSafety.FloorKeptExactly`, `FloorIsLost`);
- a leftover temporary file makes the next relocation refuse (`RelocationRun.LeftoverRefuses`, `Relocation.DieAndRetry`).

## Model

| member | source | states |
|---|---|---|
| AdkJobQueue.AbsorbingMeansNoTransition | apps/worker/src/adk-knowledge-job-queue.ts:38-178 | SUCCEEDED, FAILED, BLOCKED_RECOVERY and BLOCKED_EXECUTION are exactly the statuses in which every transition throws |
| AdkJobQueue.TransitionKeepsRecord | apps/worker/src/adk-knowledge-job-queue.ts:38-178 | an accepted transition keeps the identity and the record invariant (attempts within the limit, error exactly in failed, retry or blocked statuses, three artifacts exactly when SUCCEEDED); only a failure counts an attempt; error, artifacts and time are those of the request |
| AdkJobQueue.ArrowsExactly | apps/worker/src/adk-knowledge-job-queue.ts:38-178 | the job machine has exactly twelve arrows: each is taken by some request, and no request takes a job along any other |
| AdkJobStore.KeyOrder | apps/worker/src/adk-knowledge-job-queue-store.ts:216-230 | `ORDER BY created_at, id` is a total order in which equal keys mean equal ids |
| AdkJobStore.WriteRow | apps/worker/src/adk-knowledge-job-queue-store.ts:127-200 | writing one agreeing row whose key no other row holds keeps columns equal to documents and ids and keys unique, and changes one document |
| AdkJobStore.SqliteJobStore.Get | apps/worker/src/adk-knowledge-job-queue-store.ts:202-207 | the stored document, or nothing, or an error exactly when the document does not parse |
| AdkJobStore.SqliteJobStore.GetByExecutionKey | apps/worker/src/adk-knowledge-job-queue-store.ts:209-214 | the document whose trimmed key is the key asked for, compared as given |
| AdkJobStore.SqliteJobStore.Put | apps/worker/src/adk-knowledge-job-queue-store.ts:127-158 | insert-if-absent: the new table, the returned job and every error case; an existing id or key is never overwritten |
| AdkJobStore.SqliteJobStore.SaveIfStatus | apps/worker/src/adk-knowledge-job-queue-store.ts:181-200 | compare-and-set on status alone, after the identity check: one document changes or none |
| AdkJobStore.SqliteJobStore.Save | apps/worker/src/adk-knowledge-job-queue-store.ts:160-179 | unconditional replacement of one row under the identity check |
| AdkJobStore.SqliteJobStore.SelectLeastQueued | apps/worker/src/adk-knowledge-job-queue-store.ts:223-232 | the least (createdAt, id) among the QUEUED rows, or none when there is none |
| AdkJobStore.BestOfAll | apps/worker/src/adk-knowledge-job-queue-store.ts:223-232 | the row the scan ends with is the least queued one of the whole table |
| AdkJobStore.SqliteJobStore.ClaimNext | apps/worker/src/adk-knowledge-job-queue-store.ts:223-257 | claims the least (createdAt, id) among the queued jobs and touches no other row |
| AdkJobStore.SqliteJobStore.List | apps/worker/src/adk-knowledge-job-queue-store.ts:216-221 | every document once, in (createdAt, id) order |
| AdkJobStore.InsertByKeyKeeps | apps/worker/src/adk-knowledge-job-queue-store.ts:216-221 | inserting into the ordered list adds the job at one place and keeps the order |
| AdkJobStore.InsertByKeyAdds | apps/worker/src/adk-knowledge-job-queue-store.ts:216-221 | inserting a job with a new id adds exactly that job and keeps ids distinct |
| AdkJobStore.MemoryJobStore.Put | apps/worker/src/adk-knowledge-job-queue-store.ts:263-271 | insert-if-absent in the insertion-ordered map |
| AdkJobStore.MemoryJobStore.SaveIfStatus | apps/worker/src/adk-knowledge-job-queue-store.ts:281-291 | the same compare-and-set, keeping the entry in its place |
| AdkJobStore.MemoryJobStore.FindByKey | apps/worker/src/adk-knowledge-job-queue-store.ts:298-303 | the first entry whose untrimmed key is the trimmed key asked for |
| AdkJobStore.MemoryJobStore.ClaimNext | apps/worker/src/adk-knowledge-job-queue-store.ts:309-316 | claims the first queued job in insertion order |
| AdkJobStore.ClaimOrdersAgree | apps/worker/src/adk-knowledge-job-queue-store.ts:223-257 | the memory store and the SQLite store claim the same job in every choice of statuses if and only if insertion order is (createdAt, id) order |
| AdkJobStore.ClaimsDiffer | apps/worker/src/adk-knowledge-job-queue-store.ts:309-316 | two concrete queued jobs of which the stores claim different ones |
| AdkEnqueue.ScopesCoincide | apps/worker/src/adk-knowledge-job-worker.ts:146-163 | different revisions have different scopes, and an explicit scope meets that of a revision if and only if it spells it |
| AdkEnqueue.ScopeIsSettled | apps/worker/src/adk-knowledge-job-worker.ts:146-163 | the scope is the trimmed text, of at most 128 characters and without a revision beside it, or that of a revision from one to the largest safe integer; anything else is refused |
| AdkEnqueue.EnqueueCell | apps/worker/src/adk-knowledge-job-worker.ts:198-218 | one (assignment, provider) cell: the answering job is returned, and a row is added only when neither its id nor its key exists |
| AdkEnqueue.KeyTellsCell | apps/worker/src/adk-knowledge-job-worker.ts:197-197 | within one scope a key tells its assignment and its provider, whatever the assignment id contains |
| AdkEnqueue.EnqueueAssignment | apps/worker/src/adk-knowledge-job-worker.ts:197-219 | the inner loop: every provider of the assignment is answered for, rows only grow |
| AdkEnqueue.EnqueueProviderJobs | apps/worker/src/adk-knowledge-job-worker.ts:190-221 | the returned jobs are those stored under the keys, in order; each new row is a fresh QUEUED job for one of the cells, under the key `assignment:provider:scope` of that cell; cells that are answered for add nothing |
| AdkEnqueue.EnqueueAdkKnowledgeJobs | apps/worker/src/adk-knowledge-job-worker.ts:186-221 | the scope is settled first, and an unusable one changes nothing; then the jobs of all cells |
| AdkEnqueue.AnsweredSurvives | apps/worker/src/adk-knowledge-job-queue-store.ts:127-257 | what is answered for stays answered for while rows keep their keys |
| AdkEnqueue.ApplyChange | apps/worker/src/adk-knowledge-job-queue-store.ts:160-257 | claiming and saving, conditional or not, neither add nor remove rows and keep their keys |
| AdkEnqueue.EnqueueAgain | apps/worker/src/adk-knowledge-job-worker.ts:186-221 | repeating an enqueue adds nothing, whatever claims and saves the jobs have been through |
| AdkEnqueue.EnqueuedTransitive | apps/worker/src/adk-knowledge-job-worker.ts:186-221 | successive enqueues only add fresh rows |
| AdkEnqueue.GroundedKeyTrimmed | apps/worker/src/adk-grounded-queue-admission.ts:16-18 | a grounded execution key is its own trimmed form, so the trimmed column cannot merge two inputs |
| AdkEnqueue.EnqueueGroundedExecution | apps/worker/src/adk-grounded-queue-admission.ts:37-69 | admission is idempotent per execution input: what comes back carries the input it was asked for, and repeating it adds nothing |
| AdkJobWorker.StepKeepsInv | apps/worker/src/adk-knowledge-job-worker.ts:249-295 | every single step of any worker or sweep, crashes included, keeps the global invariant |
| AdkJobWorker.StartKeepsInv | apps/worker/src/adk-knowledge-job-worker.ts:317-339 | the step into RUNNING makes exactly one owner; grounded jobs go to BLOCKED_EXECUTION instead |
| AdkJobWorker.ReturnKeepsInv | apps/worker/src/adk-knowledge-job-worker.ts:359-400 | each way a provider call may end keeps the invariant: after an uncertain ending the job cannot go back to work |
| AdkJobWorker.CloseKeepsInv | apps/worker/src/adk-knowledge-job-worker.ts:116-137 | the closing compare-and-set ends the ownership |
| AdkJobWorker.RecoverKeepsInv | apps/worker/src/adk-knowledge-job-worker.ts:249-295 | a recovery sweep acting on an old listing keeps the invariant |
| AdkJobWorker.RunKeepsInv | apps/worker/src/adk-knowledge-job-worker.ts:249-422 | every state reachable by any interleaving satisfies the invariant |
| AdkJobSafety.WrittenIsTheEffect | apps/worker/src/adk-knowledge-job-worker.ts:116-137 | a step changes at most one document, to the one it writes |
| AdkJobSafety.StepReplaces | apps/worker/src/adk-knowledge-job-worker.ts:249-422 | a step leaves a stored document alone or replaces a non-absorbing one with the same identity: out of RUNNING only into BLOCKED_RECOVERY or by the closing step of its owner, and with fewer attempts exactly on a stale write |
| AdkJobSafety.SingleFlight | apps/worker/src/adk-knowledge-job-worker.ts:314-422 | in every interleaving of any number of workers and sweeps, at most one worker is past the RUNNING write of a job: calling, keeping its artifacts or closing |
| AdkJobSafety.CloseActsOnOwnEra | apps/worker/src/adk-knowledge-job-worker.ts:116-137 | the closing write, although it compares the status only, replaces exactly the owner's own RUNNING document or finds BLOCKED_RECOVERY |
| AdkJobSafety.RunningLeftByOwnerOrBlocked | apps/worker/src/adk-knowledge-job-worker.ts:249-295 | a non-owner takes a job out of RUNNING only into BLOCKED_RECOVERY |
| AdkJobSafety.AbsorbingForever | apps/worker/src/adk-knowledge-job-worker.ts:249-422 | a job in an absorbing status keeps its whole document for ever |
| AdkJobSafety.IdentityForever | apps/worker/src/adk-knowledge-job-queue-store.ts:86-97 | jobs never disappear and never change identity |
| AdkJobSafety.StoredJobsConsistent | apps/worker/src/adk-knowledge-job-worker.ts:249-422 | every stored record satisfies the record invariant in every reachable state |
| AdkJobSafety.GroundedNeverCalled | apps/worker/src/adk-knowledge-job-worker.ts:320-326 | GROUNDED_PREPARED jobs never reach RUNNING and no provider is ever called for them |
| AdkJobSafety.OnlyLastCallIndefinite | apps/worker/src/adk-knowledge-job-worker.ts:359-421 | every provider call for a job, except possibly the last, ended retryably or for a missing credential |
| AdkJobSafety.NoCallAfterSettled | apps/worker/src/adk-knowledge-job-worker.ts:285-291 | after a timeout, network error, unknown exception, failed sink or lost worker no further call for the job is ever made |
| AdkJobSafety.AttemptsRegressExactly | apps/worker/src/adk-knowledge-job-worker.ts:249-339 | the stored attempt count goes down if and only if a worker starts from, or a sweep writes back, a snapshot that has been overtaken |
| AdkJobAttempts.UpToDateExactly | apps/worker/src/adk-knowledge-job-worker.ts:317-339 | while no snapshot is ahead of the store, working from a current attempt count is the absence of a harmful stale write |
| AdkJobAttempts.OrderedStep | apps/worker/src/adk-knowledge-job-worker.ts:249-422 | without a harmful stale write, claims and listed snapshots of jobs at work never get ahead of the store |
| AdkJobAttempts.HarmfulLosesCount | apps/worker/src/adk-knowledge-job-worker.ts:317-339 | a stale start of a provider job, or a stale requeue, always loses count of the failures |
| AdkJobAttempts.CountedStepExactly | apps/worker/src/adk-knowledge-job-worker.ts:249-422 | a step keeps count of the failures if and only if it is not a harmful stale write |
| AdkJobAttempts.CountedRun | apps/worker/src/adk-knowledge-job-worker.ts:249-422 | all along a run, the attempts of a waiting job are its retryable failures and no job is charged beyond its limit, if and only if no step of the run is a harmful stale write |
| AdkJobAttempts.NoStaleIsHarmless | apps/worker/src/adk-knowledge-job-worker.ts:317-339 | runs without any stale write are among those runs |
| AdkJobAttempts.RetriesBounded | apps/worker/src/adk-knowledge-job-worker.ts:359-408 | in such runs a provider is called for a job at most maxAttempts times, calls without a credential excepted, and so fails retryably no more often |
| AdkJobAttempts.Exhaust | apps/worker/src/adk-knowledge-job-worker.ts:314-422 | a provider that keeps failing retryably uses up exactly the attempts that are left |
| AdkJobAttempts.SupportedStep | apps/worker/src/adk-knowledge-job-worker.ts:340-358 | only supported providers are ever called |
| AdkJobAttempts.BoundExactly | apps/worker/src/adk-knowledge-job-worker.ts:249-422 | where attempts count, the next step is a harmful stale write if and only if some continuation without another one charges a job beyond its limit |
| AdkJobAttempts.BoundBreaksExactly | apps/worker/src/adk-knowledge-job-worker.ts:249-422 | so it is after every run without a harmful stale write |
| AdkJobAttempts.StaleStartsBreakTheBound | apps/worker/src/adk-knowledge-job-worker.ts:317-339 | a concrete run in which a sleeping worker starts from its old claim, after which the job is charged beyond its limit of two |
| AdkJobEndings.AnsweredJobEnds | apps/worker/src/adk-knowledge-job-worker.ts:359-400 | whatever happens between the answer and the closing write: no credential leaves BLOCKED_CREDENTIAL, a timeout, network error or unknown exception BLOCKED_RECOVERY, any other error RETRY_PENDING exactly if it is retryable and attempts are left and FAILED otherwise, a foreign result FAILED, each with its error text; or a sweep had blocked the job |
| AdkJobEndings.AcquiredJobEnds | apps/worker/src/adk-knowledge-job-worker.ts:388-421 | a result of the job's own lineage leaves SUCCEEDED with its artifact and the two persisted ones if and only if the sink persisted them and the three differ, and BLOCKED_RECOVERY otherwise |
| AdkJobEndings.CalledOrFailed | apps/worker/src/adk-knowledge-job-worker.ts:328-358 | the provider is called exactly for a supported provider with its assignment and its own adapter; otherwise the job fails and says which was missing |
| AdkJobEndings.ClaimedJobStarts | apps/worker/src/adk-knowledge-job-worker.ts:320-329 | a job still CLAIMED goes to RUNNING, or to BLOCKED_EXECUTION with the right reason if it is grounded; otherwise the worker gives up |
| AdkJobEndings.SweptJobEnds | apps/worker/src/adk-knowledge-job-worker.ts:249-295 | a sweep requeues exactly the retry-pending, credential-blocked and stale claimed jobs it was asked for and blocks stale running ones, each only if the status is still the listed one |
| AdkJobEndings.HealthyJobSucceeds | apps/worker/src/adk-knowledge-job-worker.ts:314-422 | a queued job of a supported provider for which everything answers as it should succeeds with its three artifacts |
| AdkJobEndings.SuccessIsEarned | apps/worker/src/adk-knowledge-job-worker.ts:388-421 | in every interleaving a job succeeds only if the provider's last answer was a result for the job's own assignment and provider, which the job names first |
| AdkJobEndings.UncertainCallIsLast | apps/worker/src/adk-knowledge-job-worker.ts:359-387 | a call that timed out, lost the connection, broke off, failed for good or returned a result is the last one ever made for the job |
| LivePilotCheckpoint.CellKeyInjective | apps/worker/src/adk-live-pilot-resume.ts:84-86 | a cell key determines its assignment and provider, whatever the assignment id contains |
| LivePilotCheckpoint.CellRoundTrip | apps/worker/src/adk-live-pilot-resume.ts:100-136 | a written cell is read back as itself if and only if its fields are well formed |
| LivePilotCheckpoint.RoundTrip | apps/worker/src/adk-live-pilot-resume.ts:157-200 | a written checkpoint is read back as itself if and only if it is well formed, and is never read back as a different one |
| LivePilotCheckpoint.RenderInjective | apps/worker/src/adk-live-pilot-resume.ts:226-233 | different checkpoints are written differently |
| LivePilotRun.Executor.SaveCheckpoint | apps/worker/src/adk-live-pilot-resume.ts:226-245 | wherever a save dies, in the temporary file, before the rename or after it, the next run loads exactly what it would have loaded before or this checkpoint as written, never a part or a mixture |
| LivePilotRun.Executor.Attempt | apps/worker/src/adk-live-pilot-resume.ts:348-434 | one cell, effect by effect, leaves disk, call log and progress as the step function says |
| LivePilotRun.Executor.Acquire | apps/worker/src/adk-live-pilot-resume.ts:361-434 | so do the call and everything after it, in each of its endings |
| LivePilotRun.Executor.LoopBody | apps/worker/src/adk-live-pilot-resume.ts:344-436 | a durable cell is skipped, any other attempted, and the key index stays that of the durable cells |
| LivePilotRun.Executor.RunLoops | apps/worker/src/adk-live-pilot-resume.ts:337-439 | the nested loops leave disk and call log, and return, what the recursion over cells says |
| LivePilotSafety.HasCellIsPrefix | apps/worker/src/adk-live-pilot-resume.ts:344-346 | the cells still to do are exactly those after the durable prefix |
| LivePilotSafety.LaterRunCases | apps/worker/src/adk-live-pilot-resume.ts:318-335 | a run over an existing file enters the loops with the checkpoint as it was written if and only if the file is well formed, is the plan's, has nothing in flight and only cells that verify; otherwise it throws and changes nothing |
| LivePilotSafety.FirstRunCases | apps/worker/src/adk-live-pilot-resume.ts:235-262 | a first run enters the loops with a checkpoint that names the plan and holds nothing else, unless it refuses the providers or dies |
| LivePilotSafety.CallCellCases | apps/worker/src/adk-live-pilot-resume.ts:361-434 | a call makes its cell durable if and only if it returned the cell's own result, persisted under that lineage with two receipts, and the save was lived through; the in-flight record is cleared otherwise only after a definite error |
| LivePilotSafety.TryCellKeeps | apps/worker/src/adk-live-pilot-resume.ts:348-434 | the attempt at the next cell keeps disk and log in order and stops with the outcome that belongs to what happened |
| LivePilotSafety.RunKeepsWorld | apps/worker/src/adk-live-pilot-resume.ts:313-439 | whatever happened before, a run leaves everything as it was or makes one call per cell after the durable ones, each but the last successful, and ends with the outcome of the last |
| LivePilotSafety.CallsRecordedFirst | apps/worker/src/adk-live-pilot-resume.ts:354-362 | over any sequence of runs and crashes, every provider call was made while its cell was recorded in flight on disk |
| LivePilotSafety.OneUnresolvedCallPerCell | apps/worker/src/adk-live-pilot-resume.ts:359-388 | a cell is called again only after a provider error that is neither a timeout nor a network error, and only if the run lived to clear its record |
| LivePilotSafety.UncertainCallStopsPilot | apps/worker/src/adk-live-pilot-resume.ts:359-416 | a call answered by a timeout, a network error, another exception, a death or a result that was not kept stays in flight on disk and is the last call of all later runs |
| LivePilotSafety.InFlightStopsEverything | apps/worker/src/adk-live-pilot-resume.ts:324-331 | once a run leaves an in-flight record, no later run makes a provider call or touches the file |
| LivePilotSafety.CheckpointIsTheStoredCalls | apps/worker/src/adk-live-pilot-resume.ts:419-434 | the durable cells are a prefix of the plan order and exactly what the successful calls stored; the byte total is theirs |
| LivePilotSafety.ReturnedResultDescribesDisk | apps/worker/src/adk-live-pilot-resume.ts:293-311 | a run that returns reports exactly the checkpoint on disk; it claims completion if and only if all six cells are durable, and otherwise names the failed cell with the provider's error code |
| LivePilotSafety.ResultIsPointwise | apps/worker/src/adk-live-pilot-resume.ts:272-311 | receipts, lineage, receipt ids and bytes of a result are those of the durable cells, one by one |
| LivePilotSafety.CompletedAcceptance | apps/worker/src/adk-live-pilot-acceptance.ts:32-68 | a completed result passes acceptance if and only if its six keys are distinct texts |
| LivePilotSafety.AcceptanceGuard | apps/worker/src/adk-live-pilot-acceptance.ts:50-58 | the six keys are distinct for every choice of submission ids if and only if no assignment id continues another past a provider name |
| LivePilotSafety.ColonFreeIsUnentangled | apps/worker/src/adk-live-pilot-acceptance.ts:50-58 | assignment ids without a colon meet that condition |
| LivePilotSafety.CompletedRunIsAccepted | apps/worker/src/adk-live-pilot-acceptance.ts:32-68 | over any history, a run of such a plan that reports completion passes `assertLivePilotComplete` |
| LivePilotReadback.ReadBackExactly | apps/worker/src/adk-live-pilot-resume.ts:406-434 | after any history the checkpoint on disk is read back as written if and only if every stored cell has all its identifiers filled in |
| LivePilotReadback.BlankIdentifierStopsPilot | apps/worker/src/adk-live-pilot-resume.ts:406-418 | one stored cell with a blank identifier, which the lineage check lets through, makes every later run throw and change nothing |
| LivePilotReadback.BlankIdentifierHappens | apps/worker/src/adk-live-pilot-resume.ts:406-418 | a concrete plan and provider answer that store such a cell, and end the pilot |
| EmailLoops.SearchUids | workers/email/email_worker.py:302-308 | from any server answer to `UID n:*` in any order, filtering, sorting and cutting give the smallest identifiers from n on |
| EmailLoops.SortedIsBatch | workers/email/email_worker.py:302-308 | cutting the increasing list of identifiers gives the batch |
| EmailLoops.RefetchAndVerify | workers/email/email_worker.py:449-459 | every message is fetched again and compared, or nothing is done |
| EmailSafety.BatchIsGood | workers/email/email_worker.py:302-308 | a batch is increasing, starts at the window, and skips nothing below its last identifier |
| EmailLoops.Importer.ArtifactReceipt | workers/email/email_worker.py:462-510 | create or resume, upload and finalise follow the small steps in every session state; a receipt is returned only for a finalised session, which holds this message's bytes unless an earlier run had uploaded them |
| EmailLoops.Importer.ProcessInflight | workers/email/email_worker.py:513-595 | whatever the importer leaves when it dies or ends is a state of the small-step process, and it ends when it survives long enough |
| EmailLoops.Importer.Save | workers/email/email_worker.py:152-161 | a save that is lived through replaces the in-flight record on file, one that is not changes nothing |
| EmailLoops.MaxUid | workers/email/email_worker.py:582-582 | the largest identifier of the messages |
| EmailSafety.AdvanceKeeps | workers/email/email_worker.py:513-595 | every single effect of processing keeps the invariant of file, control plane and memory |
| EmailSafety.NoteKeeps | workers/email/email_worker.py:540-548 | noting a receipt keeps the list that of a prefix of the messages |
| EmailSafety.RunKeeps | workers/email/email_worker.py:598-641 | a whole run, dying anywhere, keeps the invariant |
| EmailSafety.RunsKeep | workers/email/email_worker.py:598-641 | so does any sequence of runs |
| EmailSafety.InflightReceipts | workers/email/email_worker.py:540-559 | the receipts on file are, without repetition, those of a prefix of the in-flight messages; `verifying` means all of them |
| EmailSafety.CompletionsCarryOneReceiptEach | workers/email/email_worker.py:560-581 | every accepted completion carries exactly one receipt per message, in order, all distinct |
| EmailSafety.CursorsFollowCompletions | workers/email/email_worker.py:582-595 | the cursors are those of the accepted completions and lag by at most the one whose save was lost |
| EmailSafety.CursorDominates | workers/email/email_worker.py:582-593 | a cursor has its imports' UIDVALIDITY and is no smaller than anything imported |
| EmailSafety.ImportsIncrease | workers/email/email_worker.py:423-446 | under one cursor imports share one UIDVALIDITY and identifiers strictly increase from import to import |
| EmailSafety.NothingSkipped | workers/email/email_worker.py:432-446 | no message present at discovery between the window start and the new cursor is left out, and the window starts right after the old cursor |
| EmailSafety.FirstCursor | workers/email/email_worker.py:589-593 | the cursor the first import stores respects `initialUid` if and only if it imported something or there was no floor |
| EmailSafety.WindowStart | workers/email/email_worker.py:432-440 | a later window starts right after the cursor, and at or above every earlier one |
| EmailSafety.FloorKeptExactly | workers/email/email_worker.py:423-446 | where a cursor is used again, all its later windows start at or above `initialUid` if and only if its first import imported something or there was no floor |
| EmailSafety.FloorIsLost | workers/email/email_worker.py:589-593 | a concrete first import of an empty mailbox with `initialUid` 10, after which the next window starts at 1 |
| EmailSafety.CursorMonotone | workers/email/email_worker.py:582-593 | a cursor never moves back |
| EmailUploads.SessionsMoveForward | workers/email/email_worker.py:476-510 | an upload session goes from created to verified only by bytes of its own digest, and to finalised only from verified |
| EmailUploads.TransferKeeps | workers/email/email_worker.py:513-595 | every effect keeps record, sessions and reports in step |
| EmailUploads.ReceiptMeansUploaded | workers/email/email_worker.py:540-548 | over any sequence of runs and deaths, a receipt on file stands for a finalised session holding bytes of the message's digest |
| EmailUploads.CompletedMeansUploaded | workers/email/email_worker.py:513-581 | an accepted completion means that every message was uploaded and finalised under the receipt it carries, and that starting, uploading and verifying were reported before |
| EmailRuns.LimitIsBounded | workers/email/email_worker.py:371-378 | a job takes between one and fifty messages |
| EmailRuns.DiscoveryIsExact | workers/email/email_worker.py:388-446 | discovery takes the smallest identifiers from the window on with their own digests and sizes, and refuses exactly a changed UIDVALIDITY and a batch with an empty or oversized message |
| EmailRuns.ReplayRefusesChanges | workers/email/email_worker.py:449-459 | a replay over a changed mailbox touches nothing |
| EmailRuns.SurvivingRunImports | workers/email/email_worker.py:513-595 | however often earlier runs died, a run that finds the messages unchanged and lives long enough hands in the whole batch and moves the cursor |
| EmailRuns.FreshRunImports | workers/email/email_worker.py:598-641 | so does a run that claims a new job |
| CrawlManifests.Sorted | workers/crawl4ai/acquire.py:310-310 | the sorted list of a set |
| CrawlManifests.SortedListIsUnique | workers/crawl4ai/acquire.py:310-310 | a set has only one sorted list, so the manifest field is determined by the parents |
| CrawlManifests.InsertUriKeeps | workers/crawl4ai/acquire.py:310-310 | insertion keeps the list strictly sorted and adds one member |
| CrawlManifests.Manifest.Merge | workers/crawl4ai/acquire.py:304-310 | the manifest's list becomes the sorted union |
| CrawlManifests.ParentRegistry.RecordParent | workers/crawl4ai/acquire.py:313-323 | recording one parent keeps every manifest equal to the sorted union over all its URLs |
| CrawlManifests.ParentRegistry.Bind | workers/crawl4ai/acquire.py:326-333 | so does binding a URL to a new manifest or to one shared by digest |
| CrawlGraph.LevelIsReach | workers/crawl4ai/acquire.py:363-395 | level n is what followed-link paths of at most n links from a seed reach |
| CrawlGraph.PathStaysInLevel | workers/crawl4ai/acquire.py:363-395 | a path of at most n links ends in level n |
| CrawlGraph.DistanceUnique | workers/crawl4ai/acquire.py:363-395 | a URL has one distance from the seeds |
| CrawlGraph.LevelsSettle | workers/crawl4ai/acquire.py:363-395 | a level that adds nothing is the last |
| CrawlGraph.NextHead | workers/crawl4ai/acquire.py:546-570 | popping the whole queue and queueing the new links leads from one layered head to the next |
| CrawlGraph.DrainedMeansReached | workers/crawl4ai/acquire.py:363-395 | when the queue is empty everything within the depth limit was seen |
| CrawlFrontier.NumberedOnce | workers/crawl4ai/acquire.py:248-251 | a file name tells its sequence number, whatever stem, digest and suffix are |
| CrawlFrontier.LedgerNamesDistinct | workers/crawl4ai/acquire.py:229-301 | artifact file names are pairwise distinct |
| CrawlFrontier.LedgerNextName | workers/crawl4ai/acquire.py:250-251 | the next name is taken only by a file that was there before the run |
| CrawlRun.Crawl.Write | workers/crawl4ai/acquire.py:229-301 | the byte limits, every error, the new artifact and the new total |
| CrawlRun.Crawl.FetchAttachment | workers/crawl4ai/acquire.py:402-451 | a wanted attachment is counted once; if its bytes are kept, the URL and nothing else is bound to the manifest of these bytes, new or shared; otherwise nothing is bound or written |
| CrawlRun.Crawl.DownloadedExactly | workers/crawl4ai/acquire.py:402-425 | an attachment is downloaded within the smaller of the two limits if it is asked for, and kept if what comes back is of a kind asked for |
| CrawlRun.Crawl.WritePage | workers/crawl4ai/acquire.py:520-544 | a page leaves exactly one artifact per requested kind it has content of within the limit, in order, with its own addresses, size, digest and suffix |
| CrawlRun.Crawl.PageLoaded | workers/crawl4ai/acquire.py:518-544 | a page that opens is counted as a success and written |
| CrawlRun.Crawl.Pop | workers/crawl4ai/acquire.py:368-451 | one queue entry: a new page joins the batch, anything else does not; scope and pattern tests cannot fail for queued entries |
| CrawlRun.Crawl.DrainFrontier | workers/crawl4ai/acquire.py:363-451 | the batch is every new page of the popped entries, once, at this round's depth |
| CrawlRun.Crawl.FollowLinks | workers/crawl4ai/acquire.py:546-570 | exactly the followed links not yet seen are queued one deeper, and their parents recorded |
| CrawlRun.Crawl.HandleResult | workers/crawl4ai/acquire.py:480-570 | each result counts once, as success or failure; a page within its host is written, kind by kind, and only such a page leads on |
| CrawlRun.Crawl.RunBatch | workers/crawl4ai/acquire.py:453-579 | under at most one result per URL, successes and failures add up to the batch and the queue grows by the batch's new links |
| CrawlRun.AnsweredBatch | workers/crawl4ai/acquire.py:571-579 | results and missing URLs add up to the batch |
| CrawlRun.RoundSound | workers/crawl4ai/acquire.py:363-395 | pages attempted in a round lie at exactly that distance |
| CrawlRun.RoundLayered | workers/crawl4ai/acquire.py:363-570 | a complete round leads to the next layered head |
| CrawlRun.Crawl.Run | workers/crawl4ai/acquire.py:336-606 | the whole crawl: at most maxDepth+1 rounds; counts balance, bytes and items stay in bounds, file names differ; every attempted page at its shortest distance, and all pages within maxDepth unless the item budget ran out; every manifest is that of a written artifact, is bound to some URL, and lists exactly the followed pages that link to it; the artifacts are exactly those of the requested kinds of the pages that opened and of the attachments downloaded, each with its own addresses, size and digest, and none twice; `succeeded` counts the pages that opened; every attachment seen was dealt with |
| RadarCsv.ReadRecords | apps/worker/src/radar-source-intake.ts:199-246 | the index loop computes the state machine |
| RadarCsv.ParseCsv | apps/worker/src/radar-source-intake.ts:199-254 | the first record's trimmed names over the rows of the others, or the error for an unterminated quote |
| RadarCsv.ReadDoubled | apps/worker/src/radar-source-intake.ts:215-225 | inside quotes a printed value is read back up to its closing quote |
| RadarCsv.ReadCells | apps/worker/src/radar-source-intake.ts:227-241 | a printed record is read back whole |
| RadarCsv.ReadEnding | apps/worker/src/radar-source-intake.ts:234-238 | LF, CRLF and a lone CR all close the record, even a lone CR before an LF |
| RadarCsv.ReadUndoesPrint | apps/worker/src/radar-source-intake.ts:199-246 | for every table, every choice of quotes and every mix of line endings, with or without a byte-order mark, reading gives back the records that are not all empty |
| RadarCsv.NothingLost | apps/worker/src/radar-source-intake.ts:206-211 | a table without an all-empty record comes back whole |
| RadarCsv.BomMustBeQuoted | apps/worker/src/radar-source-intake.ts:200-200 | a concrete document whose bare leading byte-order mark is lost, and its quoted form, which keeps it |
| RadarCsv.ValueUnderHeader | apps/worker/src/radar-source-intake.ts:248-253 | a row holds under each header the value of the last column of that name, empty where the record is short |
| RadarCsv.TableIsTable | apps/worker/src/radar-source-intake.ts:246-253 | the first record names the columns, every other one is a numbered row of its own values under those names |
| RadarCsv.TableIsUnique | apps/worker/src/radar-source-intake.ts:246-253 | nothing else is the table of the same records |
| RadarCsv.ParseUndoesPrint | apps/worker/src/radar-source-intake.ts:199-254 | whatever is quoted and however lines end, the rows read are those of the printed table under its trimmed names |
| RadarIntake.KeptInOrder | apps/worker/src/radar-source-intake.ts:487-764 | kept rows are rows, in order, with distinct identifiers where they must differ |
| RadarIntake.KeptExactly | apps/worker/src/radar-source-intake.ts:487-764 | a row is kept if and only if it is complete and repeats no identifier of the rows kept before it |
| RadarIntake.NoneRejected | apps/worker/src/radar-source-intake.ts:487-764 | no row is rejected if and only if all are kept |
| RadarPlanner.AddAllKeeps | apps/worker/src/radar-source-intake.ts:301-313 | each target once, none missing |
| RadarPlanner.AcquisitionsExact | apps/worker/src/radar-source-intake.ts:315-393 | a source's acquisitions are its proposals with each target once, and only a confirmed mail subscription is verified |
| RadarPlanner.Planner.RequiredValue | apps/worker/src/radar-source-intake.ts:100-119 | a blank value, and only that, adds one error about the row |
| RadarPlanner.Planner.ParseEnum | apps/worker/src/radar-source-intake.ts:121-155 | a blank or unknown value, and only that, adds one error about the row |
| RadarPlanner.Planner.BuildAcquisitions | apps/worker/src/radar-source-intake.ts:315-393 | the loop builds that list and only warns |
| RadarPlanner.Planner.PlanRule | apps/worker/src/radar-source-intake.ts:489-535 | one rule row: its record or its error, and the per-source index stays the filter of the list |
| RadarPlanner.Planner.PlanRules | apps/worker/src/radar-source-intake.ts:487-535 | the rules are those of the kept rows, in order |
| RadarPlanner.Planner.PlanSource | apps/worker/src/radar-source-intake.ts:580-689 | one source row: its record, or an error, also for a repeated id |
| RadarPlanner.Planner.PlanSources | apps/worker/src/radar-source-intake.ts:580-689 | the sources are those of the kept rows, in order |
| RadarPlanner.Planner.PlanCandidates | apps/worker/src/radar-source-intake.ts:691-746 | the same for candidates |
| RadarPlanner.Planner.PlanSubscriptions | apps/worker/src/radar-source-intake.ts:537-578 | the same for the subscription log |
| RadarPlanner.Planner.PlanGaps | apps/worker/src/radar-source-intake.ts:748-764 | the same for coverage gaps |
| RadarPlanner.Planner.ParseDocument | apps/worker/src/radar-source-intake.ts:256-288 | file issues name no row; without errors the file was read and has its required headers |
| RadarPlanner.Planner.Plan | apps/worker/src/radar-source-intake.ts:436-795 | in every file the records are those of the kept rows in order; each data row has exactly one record if no error names it and none if one does; with no error every row is represented and ids are distinct |
| RadarPlanner.RowYieldsOneRecord | apps/worker/src/radar-source-intake.ts:487-764 | a data row has exactly one record if no error names it, and none if one does |
| RadarPlanner.NoErrorsMeansAll | apps/worker/src/radar-source-intake.ts:487-764 | with no error every row of every file is represented, and source and candidate ids are distinct |
| RadarPlanner.EvidenceIsTheFilter | apps/worker/src/radar-source-intake.ts:523-534 | a source's routing evidence is the order-preserving filter of the whole list by its id |
| RadarMeaning.BooleanMeans | apps/worker/src/radar-source-intake.ts:149-172 | true and false are the values of the two word lists, anything else is neither |
| RadarMeaning.ScoreMeans | apps/worker/src/radar-source-intake.ts:174-197 | a score is the number the cell spells, from zero to one hundred, both included |
| RadarMeaning.SourceMeans | apps/worker/src/radar-source-intake.ts:389-407 | a stopped subscription is blocked; an unchecked, lowest-priority or unreachable source stays a candidate; any other goes to review; identity, vocabularies, confirmation and evidence are those of the row |
| RadarMeaning.AcquisitionsMean | apps/worker/src/radar-source-intake.ts:309-387 | mail exactly where the status allows it and there is a contact, at the first contact named and verified if confirmed; feed, site map and news page where named; the rest as status and remark say |
| RadarMeaning.InferredKinds | apps/worker/src/radar-source-intake.ts:347-353 | which kinds a status and a remark lead to |
| RadarMeaning.RuleMeans | apps/worker/src/radar-source-intake.ts:489-521 | a rule counts as verified or created only where its row says yes |
| RadarMeaning.CandidateMeans | apps/worker/src/radar-source-intake.ts:409-413 | a rejected or duplicate candidate is blocked, a promoted one goes to review, any other stays a candidate |
| RadarMeaning.SubscriptionMeans | apps/worker/src/radar-source-intake.ts:537-578 | a log entry says of each confirmation step what its row says, and nothing where it says neither yes nor no |
| ExtractText.DropBeforeMatches | workers/document_extraction/extract.py:96-96 | the recursion is the substitution of blanks before a line end |
| ExtractText.OtherBlanksStay | workers/document_extraction/extract.py:96-96 | blanks that do not reach a line end stay |
| ExtractText.DropAfterMatches | workers/document_extraction/extract.py:97-97 | the recursion is the substitution of blanks after a line end |
| ExtractText.CollapseMatches | workers/document_extraction/extract.py:98-98 | the recursion is the substitution of three or more line ends |
| ExtractText.UpToTwoIsTwo | workers/document_extraction/extract.py:98-98 | of any number of line ends in a row at most two are left |
| ExtractText.LineEndsMatch | workers/document_extraction/extract.py:95-95 | a CRLF is one line end and so is a lone CR; everything else stays |
| ExtractText.NormalizeIsNormal | workers/document_extraction/extract.py:94-99 | the result has no CR, no blank beside a line end, no three line ends in a row and no outer white space |
| ExtractText.NormalizeFixesNormal | workers/document_extraction/extract.py:94-99 | normalising leaves exactly the normal texts unchanged, hence is idempotent |
| ExtractTable.BuildLines | workers/document_extraction/extract.py:107-119 | the loop builds the table's lines |
| ExtractTable.CellTextIsSingleSpaced | workers/document_extraction/extract.py:102-104 | a cell's text has single spaces only, none outside |
| ExtractTable.CellTextKeepsWords | workers/document_extraction/extract.py:102-104 | normalising a cell's white space keeps its words |
| ExtractTable.UnescapeUndoesEscape | workers/document_extraction/extract.py:104-104 | unescaping undoes escaping, backslashes in the text included |
| ExtractTable.CutCell | workers/document_extraction/extract.py:102-119 | an escaped cell holds no separator |
| ExtractTable.LineReadsBack | workers/document_extraction/extract.py:112-118 | a line has one separator more than cells and gives them back |
| ExtractTable.SplitJoin | workers/document_extraction/extract.py:119-119 | the joined lines are split into the same lines |
| ExtractTable.TableReadsBack | workers/document_extraction/extract.py:107-119 | every line has the same number of separators, and reading the table gives back every padded row with its white space normalised |
| ExtractTable.TableIsNormal | workers/document_extraction/extract.py:107-119 | normalising leaves every printed table unchanged |
| ExtractTrees.AssertComplexity | workers/document_extraction/extract.py:177-196 | the stack loop ends and accepts a value if and only if node count and height are within the limits; a named limit is really exceeded |
| ExtractTrees.AssertJsonComplexity | workers/document_extraction/extract.py:177-196 | the same with the limits 100000 and 64 |
| ExtractTrees.DepthStep | workers/document_extraction/extract.py:192-196 | replacing a node by its children hides no node beyond the depth limit |
| ExtractTrees.PendingTag | workers/document_extraction/extract.py:192-196 | pushing the children, in either order, accounts for every node |
| ExtractTrees.EmitPushed | workers/document_extraction/extract.py:249-274 | the reversed children on the stack stand for their lines in document order |
| ExtractTrees.AppendOwn | workers/document_extraction/extract.py:254-273 | the lines of one element are appended unless they pass the value limit |
| ExtractTrees.OwnIsPointwise | workers/document_extraction/extract.py:256-273 | an element prints its text if there is any, then each attribute, under its path |
| ExtractTrees.LineTells | workers/document_extraction/extract.py:264-273 | a printed line tells its path and its value |
| ExtractTrees.LocalNameFollowsBrace | workers/document_extraction/extract.py:215-216 | a local name is what follows the last closing brace |
| ExtractTrees.ExtractXml | workers/document_extraction/extract.py:249-278 | the stack loop prints exactly the recursive document order, and fails exactly when there is nothing to print or too much |
| ExtractTrees.ExtractXmlDocument | workers/document_extraction/extract.py:219-278 | a parsed document is accepted if and only if nodes, height and values are within the limits, and the output is normal text |
| ExtractTrees.EmitHoldsEveryNode | workers/document_extraction/extract.py:258-273 | each element's lines stand together under the names of exactly its ancestors and itself |
| ExtractTrees.EmitInDocumentOrder | workers/document_extraction/extract.py:258-274 | lines of an ancestor or an earlier branch come first |
| ExtractTrees.CoversOnce | workers/document_extraction/extract.py:603-604 | every page lies in exactly one window |
| ExtractTrees.CoversUniquely | workers/document_extraction/extract.py:603-604 | there is only one such sequence of windows |
| ExtractTrees.PdfTextExtract | workers/document_extraction/extract.py:601-636 | the windows cover pages 1 to n, none wider than 80; the result is built from their texts in order |
| ExtractTrees.PartsInOrder | workers/document_extraction/extract.py:604-630 | the blocks are those of the windows with text, each once, in page order, under its own heading |
| RelocationStore.TempIsNoObject | workers/local_folder/ukipo_visual_relocate.py:76-77 | a temporary file does not match the object pattern |
| RelocationStore.ObjectNames | workers/local_folder/ukipo_visual_relocate.py:35-37 | a digest's path names that digest, and object paths hold no NUL |
| RelocationStore.CheckedObjects | workers/local_folder/ukipo_visual_relocate.py:70-91 | the loop computes the checked list or fails |
| RelocationStore.CheckedDescribes | workers/local_folder/ukipo_visual_relocate.py:70-91 | the check passes if and only if every file is an object with its digest's content, and then lists every file once |
| RelocationStore.TakeInventory | workers/local_folder/ukipo_visual_relocate.py:94-106 | one pass counts, adds up and hashes |
| RelocationStore.FirstLine | workers/local_folder/ukipo_visual_relocate.py:101-101 | the bytes hashed for one object are read off unambiguously |
| RelocationStore.IndexInjective | workers/local_folder/ukipo_visual_relocate.py:94-106 | the hashed text determines paths and sizes, in order |
| RelocationStore.SameInventorySameTree | workers/local_folder/ukipo_visual_relocate.py:94-106 | two checked trees have the same inventory if and only if they are the same tree, byte for byte |
| RelocationRun.ReserveFloorRoundsUp | workers/local_folder/ukipo_visual_relocate.py:120-121 | the reserve floor is thirty percent rounded up and 64 GiB |
| RelocationRun.Relocation.CopyObject | workers/local_folder/ukipo_visual_relocate.py:218-260 | one object, dying at any file operation and with other runs in between: nothing is overwritten or deleted, and a copied or reused object equals the source |
| RelocationRun.Relocation.CopyNew | workers/local_folder/ukipo_visual_relocate.py:230-260 | the same for the temporary file, its verification and the link, corrupted copies included |
| RelocationRun.Relocation.Publish | workers/local_folder/ukipo_visual_relocate.py:247-260 | the link fails where something stands, and never replaces it |
| RelocationRun.Relocation.CopyAll | workers/local_folder/ukipo_visual_relocate.py:299-304 | copied and reused add up to the objects; undisturbed, the target becomes the merge of both trees and the copied count is the number of objects that were missing |
| RelocationRun.Relocation.Admit | workers/local_folder/ukipo_visual_relocate.py:263-296 | admission is exactly: no receipt, the accepted source, a target that is part of it, room for the rest |
| RelocationRun.Relocation.Verify | workers/local_folder/ukipo_visual_relocate.py:310-316 | the checks after the copy pass if and only if the target is the source, byte for byte |
| RelocationRun.Relocation.Apply | workers/local_folder/ukipo_visual_relocate.py:263-341 | an accepted run leaves target equal to source and accounts for every object; what is not admissible changes nothing; undisturbed, a run dies if and only if its file operations do not reach for what is missing, and leaves a temporary file if and only if it dies inside a copy; given time it is accepted if and only if its demands are met |
| RelocationRun.Relocation.Runs | workers/local_folder/ukipo_visual_relocate.py:263-341 | over any sequence of runs no object is overwritten or deleted and every new object is a true copy; once one has been accepted the target is the source |
| RelocationRun.PreservesTransitive | workers/local_folder/ukipo_visual_relocate.py:218-341 | preservation composes |
| RelocationRun.MergedIsClear | workers/local_folder/ukipo_visual_relocate.py:218-232 | while a copy runs undisturbed nothing stands in the way of the next object |
| RelocationRun.LeftoverRefuses | workers/local_folder/ukipo_visual_relocate.py:76-77 | a temporary file left by a dead run makes every later run refuse |
| RelocationRun.AfterDeath | workers/local_folder/ukipo_visual_relocate.py:273-296 | after a run from an admitted start that wrote no receipt, the next is admitted if and only if no temporary file is left and there is room |
| RelocationRun.Relocation.DieAndRetry | workers/local_folder/ukipo_visual_relocate.py:233-296 | after an undisturbed death the next run is admitted if and only if the dead one stopped between two copies and there is room; otherwise it refuses and changes nothing |
| RelocationRun.SampleCanDie | workers/local_folder/ukipo_visual_relocate.py:263-296 | a concrete source, target and hash from which a run dies so |
| RelocationRun.PartialCopyIsAdmitted | workers/local_folder/ukipo_visual_relocate.py:273-296 | a target of true copies without leftovers is admitted whenever the disk has room |

## Left out

- HTTP clients, IMAP and TLS transport, the browser, subprocesses and SQLite itself: they appear as answers and effects with the assumptions stated in the modules.
- The command-line files, configuration reading and request validation: environment plumbing.
- The sequential crawl loop (`workers/crawl4ai/acquire.py:695-864`): it shares the helpers modelled here but drains one seed at a time, so depth is not distance there.
- URL normalisation, pattern matching, redirect scope and DNS checks of the crawler: parameters of `CrawlGraph.World`; URLs are taken as already normalised.
- Crawl statistics (`httpStatusCounts`, redirects, links discovered, largest depth), the rate gate and the last error kept for an empty result: counters and wording only.
- Several different results for one URL in a crawl batch: a repeated result repeats the same page; the accounting and distance claims assume at most one.
- SHA-256 itself, JSON text syntax, timestamps as texts, log output and message wording. `JSON.stringify` is a value with named properties, so property order in the equality of `put` is not modelled.
- One clock reading per pilot cell stands for the separate readings of `startedAt`, `updatedAt` and `recordedAt`.
- The pilot's `verifyDurableCell` and the adapters are answers of the environment; `createRawArtifactAdkAcquisitionSink` is the sink step of the job protocol.
- `enqueueAdkProductionPilot`: the same enqueue loop after a provider filter.
- E-mail configuration, account binding and URI texts: easy members; `fetch` is the mailbox content.
- Optional columns the planner copies unchanged (country, notes, labels and the like), `stableKey` (Unicode NFKD), blocking reason texts, and the summary counts, which are lengths of modelled lists.
- Lower-casing, number parsing and the URL pattern of the radar planner: parameters (`RadarIntake.Text`).
- XML attributes are given in order of their names; sorting them is the library's. XML and JSON parsing, DOCX, XLSX, e-mail and OCR extraction.
- Reparse-point checks, plan validation and progress output of the relocation; the frozen constants (file count, bytes, index hash) are the argument `expected`. The directory of an empty target counts as present.
- The CNIPA workers and the UKIPO journal: their rules live in packages that are not part of this model, or are parsing only.
- AdkJobAttempts.BoundExactly: lets a worker claim any queued job, as the two stores choose differently; so the continuation it finds may need other queued jobs to be claimed first.
- CrawlRun.Crawl.Run: the balance of counts, the distances and that nothing is written twice are stated for batches that answer each URL at most once, as the library promises; which artifacts there are is stated without that.
- The bodies of the vocabulary lists of the radar planner (authority types, source types and the like) are data, copied as they are.
