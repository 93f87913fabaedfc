# Job ledger, QA coordinator and engineering worker: a verified model

The repository runs engineering jobs through a PostgreSQL job ledger (B031). Jobs
are submitted once, leased to workers under tokens that expire, retried within a
budget, and may have side effects that must never be silently replayed. Two
side-effecting clients use it: the QA coordinator (B034), which runs untrusted
candidate code in a sandbox, profile by profile, and the engineering worker
(B032), which creates a local branch with a commit. This project models the
ledger functions as their final migrations define them, the two clients as step
machines, and four smaller parts the stages share, and proves what they promise
over every run.

| file | what it holds |
|---|---|
| `Basics.dfy` | optional values, the order of text and uuid columns, first element of a finite order |
| `LedgerTypes.dfy` | rows of the ledger tables, events, calls and replies |
| `LedgerSpec.dfy` | what each ledger function does to one job's record and to the whole ledger; runs |
| `LedgerTables.dfy` | class `Ledger`: the ledger functions as methods that change the tables in place, each proved against its specification; the lease query and the reaper loop |
| `LedgerInvariant.dfy` | CHECKs, attempts, gates, effects, evidence and budget: kept by every function |
| `LedgerReplay.dfy` | the event log is a chain that rebuilds the tables, and its length is bounded |
| `LedgerColumns.dfy` | the ledger read column by column: when each call goes through, what it makes of every column, how a job moves from status to status, the order of leases |
| `LedgerRuns.dfy` | quarantine, fencing, finality, evidence and resubmission for every run |
| `LedgerSplitCommit.dfy` | `commit_job_effect` split into its unlocked check and its later UPDATE |
| `LedgerRelease.dfy` | the announced release step in runs, and the old and the new numbering of attempts |
| `LedgerClients.dfy` | what any client can rely on while others keep using the ledger |
| `QaProfiles.dfy`, `QaCoordinator.dfy` | profile selection; the coordinator and the system of many coordinators |
| `QaSafety.dfy`, `QaAgreement.dfy` | at most one sandbox entry per (job, profile); a succeeded job says what happened |
| `QaTrace.dfy` | what the steps of a run must contain for a coordinator to be where it is: admissions, sandbox results, clean checks, failures |
| `EngineeringWorker.dfy` | the worker from gate to clean-up, and its branch; the system of many workers on one machine |
| `WorkerSafety.dfy`, `WorkerAgreement.dfy` | no branch without its claim, one candidate per job; which commit a succeeded job names |
| `WorkerTrace.dfy` | the same for workers: gate, leftovers, tests, commits, failures |
| `WorkerBranches.dfy` | when a succeeded job still has its branch |
| `LedgerCases.dfy`, `QaCases.dfy`, `WorkerCases.dfy` | concrete reachable runs in which a promise of the documentation fails |
| `EvidenceBundle.dfy` | evidence directories handed from stage to stage |
| `ModelRanking.dfy` | the model ranking query |
| `PathScope.dfy` | path validation and the path-scope predicate |
| `BoundedCollector.dfy` | the output collector of the sandbox adapter |

How the ledger is modelled. A ledger function is one atomic step and its `now()`
is fixed. RAISE leaves the state as it was, since the transaction rolls back: the
method returns before it writes its working copy back. Constraints that a caller
can trip over (uniqueness of tokens, gate decisions, effect keys; lengths of
actors, keys, reasons) raise in the model too; the CHECKs on `fzh.jobs` that no
caller can trip over are proved. The clock may advance by any amount but does not go
back. In PostgreSQL `now()` is the start of the transaction, so a call that had to
wait for the lock on its row can act with an older value than the call before it;
such calls are not modelled, and fencing of a lease that is expired but not yet
reaped rests on their absence. Rows locked by other transactions are an arbitrary set
that SKIP LOCKED passes over, and lease tokens are arbitrary inputs: where freshness
matters the unique index provides it. Clients are step machines that can crash at any
point, lose any reply after the call took place, fail before the call is sent, be
started any number of times with the same envelope, and raise at any of their own
commands. The check and the UPDATE of their commit calls can lie apart, with anything
in between.

The methods of class `Ledger` that work on one job carry out the functions of
`LedgerSpec` statement by statement; what they add is the frame, that is that no
other job changes and that RAISE changes nothing. The lease order and the reaper
loop are where that file does more. What the ledger promises is proved about the
functions, in the files after it.

Where the code and its documentation differ the model follows the code:

- docs/operations/ENGINEERING-QA.md:28 calls an admission mismatch a terminal
  `reject`. For a side-effecting QA job `complete_job` raises there, because no
  effect row exists, so the job ends through `fail_job` or the reaper.
  `QaAgreement.RejectPath` gives the exact condition and `QaCases.RejectIsRefused` a run
  that gets there.
- docs/operations/JOB-LEDGER.md:43 speaks of releasing jobs from
  `waiting_approval`. There is no such function: `LedgerRuns.WaitingOnlyCancelled`.
- The guard of `b034_complete_job` (db/migrations/0008_b034_qa_api.sql:151) names three
  statuses but lets a result without `qa_status` through, because NULL NOT IN (...) is
  not true: `QaCases.StatuslessCompletion` is a run in which such a result is stored.
  What the guard does secure is `QaAgreement.GuardNeedsStatus`; that coordinators
  never submit such a result is `QaAgreement.SucceededRecordsStatus`.
- "Ledger succeeded implies the branch exists" is false for B032, and the reply to the
  completion alone does not decide it. `WorkerBranches.SucceededKeepsBranch` says when
  the branch is there: exactly if the worker that completed the job got the reply or
  never got to its clean-up, and no other worker of the job has cleaned the branch away
  since. Where the workers share the evidence root there is no such other worker:
  `WorkerBranches.SharedRootKeepsBranch`. `WorkerCases.LostReplyMayDeleteBranch` and
  `WorkerCases.LostReplyMayKeepBranch` are runs with a lost reply and either outcome; in
  `WorkerCases.StaleWorkerDeletesBranch` the reply was received, and an earlier worker
  of the job with another evidence root deletes the branch.
- The event chain is not kept when the UPDATE of `commit_job_effect` runs after the
  job was reaped or failed: `LedgerSplitCommit.SplitLogReplays` says exactly in which
  runs, and `LedgerCases.LateCommitBreaksChain` is one.

## Model

| member | source | states |
|---|---|---|
| LedgerTables.Ledger.SubmitJob | db/migrations/0003_job_ledger.sql:187-240 | a new definition is stored under the new id with its first event; the same definition returns the existing job; a different one under the same key, a bad definition or a bad actor raises and changes nothing |
| LedgerTables.Ledger.LeaseNextJob | db/migrations/0004_job_ledger_budget_accounting.sql:11-92 | the job leased is the unique first candidate in the query's order; its row, attempt and event change as specified and no other job does |
| LedgerTables.NextExists | db/migrations/0004_job_ledger_budget_accounting.sql:45-57 | whenever some job qualifies, the lease query has an answer and it is the first one |
| LedgerTables.NextIsUnique | db/migrations/0004_job_ledger_budget_accounting.sql:51-53 | the order of the lease query leaves no choice |
| LedgerTables.Ledger.RecordJobGateDecision | db/migrations/0004_job_ledger_budget_accounting.sql:94-181 | evidence is stored once per attempt; allow keeps the lease, approval_required refunds and parks, deny ends the job; everything else raises and changes nothing |
| LedgerTables.Ledger.StartJob | db/migrations/0003_job_ledger.sql:399-433 | only a live leased token starts the job, and a side-effecting job only with an allow decision for that very attempt |
| LedgerTables.Ledger.HeartbeatJob | db/migrations/0003_job_ledger.sql:435-461 | only a live token extends its lease; nothing else changes |
| LedgerTables.Ledger.BeginJobEffect | db/migrations/0003_job_ledger.sql:463-515 | the claim is inserted once, answered again to the same attempt and refused to any other attempt or job |
| LedgerTables.Ledger.CommitJobEffect | db/migrations/0003_job_ledger.sql:517-561 | the attempt's own started effect becomes committed with its receipt; a second commit changes nothing |
| LedgerTables.Ledger.CompleteJob | db/migrations/0003_job_ledger.sql:563-604 | a side-effecting job completes only if its attempt has effects and all are committed |
| LedgerTables.Ledger.FailJob | db/migrations/0005_job_ledger_reaper_hardening.sql:1-73 | the failed attempt ends in that status with cleared lease, error, delay and event, or the call raises and changes nothing |
| LedgerTables.Ledger.CancelJob | db/migrations/0003_job_ledger.sql:707-733 | cancels exactly the four cancellable statuses |
| LedgerTables.Ledger.NextExpired | db/migrations/0005_job_ledger_reaper_hardening.sql:86-93 | the loop visits the expired lease that expires first |
| LedgerTables.Ledger.ReapOne | db/migrations/0005_job_ledger_reaper_hardening.sql:94-131 | one iteration of the loop is the per-job reap function |
| LedgerTables.Ledger.ReapExpiredJobs | db/migrations/0005_job_ledger_reaper_hardening.sql:75-134 | the loop equals reaping exactly the expired unlocked leases, and returns them in order of expiry with their new statuses; with an actor the event table refuses it raises exactly when there is something to reap |
| LedgerTables.ReapLeavesNone | db/migrations/0005_job_ledger_reaper_hardening.sql:86-93 | after a pass no expired unlocked lease is left (which leases those are: LedgerColumns.ReaperColumns), reaped jobs hold no token, and every other job is as before |
| LedgerTables.ReapTwice | db/migrations/0005_job_ledger_reaper_hardening.sql:86-93 | a second pass at the same moment does nothing, whoever makes it |
| LedgerTables.ReapOrderIrrelevant | db/migrations/0005_job_ledger_reaper_hardening.sql:91-127 | visiting the rows one by one in any order that covers the expired ones gives the same ledger |
| LedgerInvariant.StepInv | db/migrations/0003_job_ledger.sql:28-76 | every function keeps the CHECKs, distinct and consecutively numbered attempts, gate evidence, quarantine and the budget equation |
| LedgerInvariant.CommitUpdateInv | db/migrations/0003_job_ledger.sql:539-560 | the UPDATE of a commit keeps all of that even if the job changed since the check |
| LedgerReplay.StepHistory | db/migrations/0003_job_ledger.sql:78-88 | every function logs an event that starts where the log ended and reads as the change made to the tables |
| LedgerReplay.StepPays | db/migrations/0004_job_ledger_budget_accounting.sql:45-70 | every event but the effect ones uses up a measure of what the job can still do, refunds included |
| LedgerRuns.QuarantineIsPermanent | db/migrations/0003_job_ledger.sql:497-513 | once an attempt owns an effect it is the job's last attempt in every later state, allowed, in a quarantine status, and the job is never leasable again |
| LedgerRuns.EventLogReplays | db/migrations/0003_job_ledger.sql:78-88 | in every reachable state the log is a chain and folding it rebuilds status, counters, result and every effect |
| LedgerRuns.EventLogIsBounded | db/migrations/0005_job_ledger_reaper_hardening.sql:34-60 | a job never logs more than 4 * max_attempts + 2 events other than effect_started and effect_committed |
| LedgerRuns.BudgetIsConserved | db/migrations/0004_job_ledger_budget_accounting.sql:61-74 | attempt_count plus refunds is lease_count is the number of attempts, numbered 1..lease_count, and attempt_count never exceeds max_attempts |
| LedgerRuns.RefundNeverClamps | db/migrations/0004_job_ledger_budget_accounting.sql:152-157 | GREATEST(attempt_count - 1, 0) always takes the first argument |
| LedgerRuns.EvidenceIsComplete | db/migrations/0003_job_ledger.sql:584-591 | nothing side-effecting runs or owns an effect without an allow decision for its attempt; succeeded means at least one effect and all committed |
| LedgerRuns.ChecksAlwaysHold | db/migrations/0003_job_ledger.sql:28-43 | the CHECKs hold in every reachable state, tokens are distinct, and a held token is that of the newest attempt |
| LedgerRuns.SupersededRaises | db/migrations/0003_job_ledger.sql:411-415 | every call with an expired or superseded token raises and changes nothing |
| LedgerRuns.FencedForever | db/migrations/0003_job_ledger.sql:450-458 | such a token is refused in every later state, so an expired lease is never revived |
| LedgerRuns.TerminalIsFinal | db/migrations/0003_job_ledger.sql:722-728 | a terminal job keeps its whole record for ever |
| LedgerRuns.WaitingOnlyCancelled | db/migrations/0003_job_ledger.sql:722-728 | cancelling is the only way out of waiting_approval |
| LedgerRuns.StepEvolves | db/migrations/0003_job_ledger.sql:112-180 | every function respects the triggers: definitions are immutable, attempts, gates and events only grow, effects only go from started to committed |
| LedgerRuns.ResubmissionIsStable | db/migrations/0003_job_ledger.sql:206-238 | resubmitting at any later time returns the first job and changes nothing if the definition is the same, and is refused and changes nothing if not |
| LedgerRuns.LeaseLasts | db/migrations/0004_job_ledger_budget_accounting.sql:59-70 | a lease is live for exactly the seconds asked for and only under its own token |
| LedgerRuns.HeartbeatLasts | db/migrations/0003_job_ledger.sql:446-460 | a heartbeat resets the remaining time rather than adding to it |
| LedgerRuns.RetryWaitsOutDelay | db/migrations/0005_job_ledger_reaper_hardening.sql:34-60 | after a failed attempt the job is leasable if and only if the attempt had no effect, was retryable, budget is left and the delay is over |
| LedgerRuns.ReapedIsLeasable | db/migrations/0005_job_ledger_reaper_hardening.sql:99-121 | a reaped job is leasable at once if and only if it has no effects at all and budget is left |
| LedgerColumns.StatusDiagram | db/migrations/0003_job_ledger.sql:399-733 | whatever changes a job moves it along one diagram of statuses, in which each move names the calls that may cause it |
| LedgerColumns.StepColumns | db/migrations/0003_job_ledger.sql:1-44 | every column of the job row after whatever changed it: budget, lease, dates, outcome |
| LedgerColumns.StepTables | db/migrations/0003_job_ledger.sql:53-107 | every row of attempts, gate decisions, effects and events after whatever changed the job: what is added, under which attempt, by whom and when, and that the rest stays |
| LedgerColumns.GateGoesThrough | db/migrations/0004_job_ledger_budget_accounting.sql:112-144 | a decision is recorded if and only if the job is leased under the live token of its newest attempt, that has none yet, and evidence and actor are well-formed |
| LedgerColumns.DecisionOutcome | db/migrations/0004_job_ledger_budget_accounting.sql:146-181 | allow leaves the row alone; approval_required ends the lease and gives the budget back; deny ends lease and job at that moment and takes the budget |
| LedgerColumns.DeniedIffDecided | db/migrations/0004_job_ledger_budget_accounting.sql:146-163 | in every reachable state a job is denied if and only if some decision on it is deny, which is then that of its newest attempt; it waits for approval only if the newest attempt was told so, and having been told so it waits or is cancelled |
| LedgerColumns.StartGoesThrough | db/migrations/0003_job_ledger.sql:411-428 | a start goes through if and only if the job is leased under the live token of its newest attempt and, if side-effecting, that attempt has allow |
| LedgerColumns.HeartbeatGoesThrough | db/migrations/0003_job_ledger.sql:446-458 | a heartbeat goes through if and only if the newest attempt holds the job and 15 to 3600 seconds are asked for |
| LedgerColumns.BeginGoesThrough | db/migrations/0003_job_ledger.sql:475-513 | a claim goes through if and only if the side-effecting job runs under the newest attempt and the key is its own or nobody's; the reply is the state of the effect |
| LedgerColumns.CommitGoesThrough | db/migrations/0003_job_ledger.sql:530-560 | a commit goes through if and only if the job runs under the newest attempt and has that effect |
| LedgerColumns.CompleteGoesThrough | db/migrations/0003_job_ledger.sql:575-601 | a completion goes through if and only if the job runs under the newest attempt and, if side-effecting, has effects, all committed |
| LedgerColumns.FailGoesThrough | db/migrations/0005_job_ledger_reaper_hardening.sql:20-60 | a failure is accepted if and only if the newest attempt holds the job |
| LedgerColumns.FailEnds | db/migrations/0005_job_ledger_reaper_hardening.sql:34-42 | a failed job with effects is up for reconciliation, otherwise failed if no retry is wanted, otherwise waits for the retry or is a dead letter as the budget says |
| LedgerColumns.ReapEnds | db/migrations/0005_job_ledger_reaper_hardening.sql:99-107 | the same for a reaped job, for which a retry is wanted |
| LedgerColumns.CancelGoesThrough | db/migrations/0003_job_ledger.sql:722-728 | a job can be cancelled if and only if it is neither held under a token nor terminal |
| LedgerColumns.ReaperColumns | db/migrations/0005_job_ledger_reaper_hardening.sql:86-93 | after a pass no unlocked job is leased or running beyond its lease_expires_at; a job changes if and only if it was unlocked, leased or running, and that moment had come |
| LedgerColumns.LeaseGoesThrough | db/migrations/0004_job_ledger_budget_accounting.sql:37-74 | a chosen job is leased if and only if it is queued or waiting for a retry, due, within budget, and worker, seconds and token are acceptable |
| LedgerColumns.LeaseOrder | db/migrations/0004_job_ledger_budget_accounting.sql:45-57 | the leased job waits, and comes before every other that waits by priority, then due date, then creation, then id; nothing else changes |
| LedgerColumns.SomeoneIsLeased | db/migrations/0004_job_ledger_budget_accounting.sql:45-74 | whenever a job waits, an acceptable request leases one |
| LedgerColumns.SubmitGoesThrough | db/migrations/0003_job_ledger.sql:1-28 | a definition under a new key is accepted if and only if kind, key, action, attempts, priority and actor fit the CHECKs of their columns |
| LedgerColumns.SubmittedColumns | db/migrations/0003_job_ledger.sql:206-222 | a new job is stored as submitted: queued, due at not_before, its whole budget left, with its first event |
| LedgerColumns.NotBeforeIsKept | db/migrations/0003_job_ledger.sql:206-214 | in every run after the submission the first lease of a job is not before its not_before |
| LedgerSplitCommit.SplitRunSafe | db/migrations/0003_job_ledger.sql:530-554 | all invariants but the event chain hold in every run in which anything may happen between the check and the UPDATE of a commit |
| LedgerSplitCommit.HalvesMakeWhole | db/migrations/0003_job_ledger.sql:517-561 | check and UPDATE with nothing in between are commit_job_effect, reply included; where the check fails the whole raises |
| LedgerSplitCommit.SplitQuarantine | db/migrations/0003_job_ledger.sql:530-554 | quarantine is permanent in those runs too |
| LedgerSplitCommit.LateCommitHistory | db/migrations/0003_job_ledger.sql:530-558 | a single late UPDATE that logs keeps the event chain exactly when the job is still running |
| LedgerSplitCommit.SplitLogReplays | db/migrations/0003_job_ledger.sql:530-558 | in every run with split commits the log of a job is a chain if and only if every late UPDATE on it that logged met it running, and a chain rebuilds the tables |
| LedgerSplitCommit.ReapedBeforeLateCommit | db/migrations/0005_job_ledger_reaper_hardening.sql:86-121 | from any record, the reaper in between breaks the chain, and the job is already up for reconciliation |
| LedgerCases.LateCommitBreaksChain | db/migrations/0003_job_ledger.sql:530-558 | a run from the empty ledger in which that happens |
| LedgerRelease.ReleaseInv | db/migrations/0004_job_ledger_budget_accounting.sql:152-157 | putting a waiting job back to queued keeps every invariant of its record |
| LedgerRelease.NumbersSurviveReleases | db/migrations/0004_job_ledger_budget_accounting.sql:61-74 | in every run in which releases happen between the operations, the attempts of each job are numbered exactly 1..lease_count, and each is charged or refunded |
| LedgerRelease.LeaseSequenceIsFresh | db/migrations/0004_job_ledger_budget_accounting.sql:72-74 | the number given to the next attempt is never taken |
| LedgerRelease.AttemptCountCollides | db/migrations/0003_job_ledger.sql:302-303 | the number attempt_count + 1, which migration 0003 gave, is taken exactly when some lease was refunded |
| LedgerRelease.OldLeaseIs | db/migrations/0003_job_ledger.sql:292-311 | the lease function of 0003 is that of 0004 as long as no lease of the job was refunded, and raises from then on |
| LedgerRelease.OldNumberingSticks | db/migrations/0003_job_ledger.sql:302-303 | in runs with releases and the lease function of 0003, a job refunded once never gets another attempt |
| LedgerClients.SpentStep | db/migrations/0003_job_ledger.sql:411-428 | a token whose job is no longer leased under it can never start the job again |
| LedgerClients.StartSpends | db/migrations/0003_job_ledger.sql:411-428 | a start succeeds at most once per token |
| LedgerClients.ClaimStable | db/migrations/0003_job_ledger.sql:497-513 | an effect claim of an allowed attempt stays one, whatever anyone does |
| LedgerClients.ClaimHasOneToken | db/migrations/0003_job_ledger.sql:61-62 | no two tokens hold the same claim |
| QaProfiles.ProfileKeyInjective | db/migrations/0008_b034_qa_api.sql:27-37 | no two (job, profile) pairs share an effect key although profile ids may contain ':', and every key fits its column |
| QaProfiles.ValidateModelSelection | scripts/engineering_qa/coordinator_core.py:341-365 | accepts exactly well-formed lists, keeps the allowed ids once each in order, and reports the others |
| QaProfiles.SelectProfiles | scripts/engineering_qa/coordinator_core.py:501-519 | the selection loops compute the selection |
| QaProfiles.SelectionIsExact | scripts/engineering_qa/coordinator_core.py:501-519 | exactly the baseline, required and proposed profiles are selected, each once |
| QaProfiles.SelectionIsInOrder | scripts/engineering_qa/coordinator_core.py:501-519 | profiles run in the order in which they first occur in the baseline, then the required and then the proposed ones |
| QaProfiles.IdsWhereAppends | scripts/engineering_qa/coordinator_core.py:341-365 | suggestions are taken one by one in their order |
| QaSafety.SandboxAtMostOnce | scripts/engineering_qa/worker.py:31-71 | in every interleaving no profile of a job enters the sandbox twice, and each entry is made under an attempt that holds an allow decision and owns the claim |
| QaSafety.EntryIsClaimed | scripts/engineering_qa/worker.py:35-53 | the claim is in the ledger before the profile enters |
| QaSafety.NextOnce | scripts/engineering_qa/coordinator_core.py:459-572 | every step of coordinators, operators, crashes and late commits keeps that invariant |
| QaAgreement.SucceededAgrees | scripts/engineering_qa/coordinator_core.py:497-563 | when any QA job is succeeded its effect keys are exactly those of the profiles selected, each receipt is the digest of that profile's result, and the recorded status is qa_passed exactly when every result was a pass; the profiles include all of the baseline and all required ones, are at most max_profiles and otherwise allowed ones; passed or failed means admitted, and that the clone was found clean after each profile; only a job that is not side-effecting, not admitted, with nothing run, can be a recorded rejection instead |
| QaAgreement.SucceededRecordsStatus | scripts/engineering_qa/coordinator_core.py:483-563 | in every confined run each succeeded QA job, side-effecting or not, records one of qa_passed, qa_failed and reject |
| QaAgreement.GuardNeedsStatus | db/migrations/0008_b034_qa_api.sql:141-158 | an accepted completion records one of the three statuses if and only if the submitted result has a qa_status at all |
| QaAgreement.GuardRefusesPromotion | db/migrations/0008_b034_qa_api.sql:154-156 | no accepted completion authorizes a promotion, however true is spelled |
| QaAgreement.WrappersCheck | db/migrations/0008_b034_qa_api.sql:96-139 | claims and receipts go through only for QA jobs, under the key of job and profile; a receipt is 64 hexadecimal digits and leaves the effect committed |
| QaAgreement.EmptyResultIsAccepted | db/migrations/0008_b034_qa_api.sql:141-158 | the empty result completes every running, live QA job that is not side-effecting and is stored as it is |
| QaCases.StatuslessCompletion | db/migrations/0008_b034_qa_api.sql:150-153 | a run of the ledger after which a succeeded QA job has no status |
| QaAgreement.RejectPath | scripts/engineering_qa/coordinator_core.py:483-495 | the reject path runs no profile and completes the job if and only if it is not side-effecting and still running under a live token |
| QaTrace.EntriesAreAdmitted | scripts/engineering_qa/coordinator_core.py:480-533 | in every run whoever has entered the sandbox had met a verified admission and an allowing gate before |
| QaTrace.RejectedWasNotAdmitted | scripts/engineering_qa/coordinator_core.py:480-495 | whoever stands on the reject path had met a failed admission |
| QaTrace.AdmissionDecides | scripts/engineering_qa/coordinator_core.py:480-497 | a verified admission leads to the selection, a failed one to the reject path |
| QaTrace.RecordedAsAdmitted | scripts/engineering_qa/coordinator_core.py:480-561 | in every confined run a recorded rejection was completed by a coordinator whose admission had failed, a recorded qa_passed or qa_failed by one whose admission was verified, whose every result the sandbox returned, and which found the clone clean after each |
| QaTrace.FailuresAreHandled | scripts/engineering_qa/coordinator_core.py:566-572 | a coordinator that has started its job finishes, crashes or goes through its exception handler |
| QaTrace.ReportedFailure | scripts/engineering_qa/coordinator_core.py:566-572 | the report of a failure under a live token quarantines a job with effects, and otherwise retries it after the configured delay within its budget |
| QaTrace.RefusedCall | scripts/engineering_qa/coordinator_core.py:471-572 | a call that raises, is not sent, or whose reply is lost leads a coordinator that has started its job to its handler and ends any other |
| QaTrace.HeartbeatTaken | scripts/engineering_qa/coordinator_core.py:477-482 | while the lease is held the heartbeat prolongs it by the configured time, and the admission comes next |
| QaTrace.CommitInHalves | scripts/engineering_qa/worker.py:54-71 | check and UPDATE of a commit with nothing in between are the whole call: the profile is done exactly if it goes through, otherwise the handler runs |
| QaCases.RejectIsRefused | scripts/engineering_qa/coordinator_core.py:483-495 | a run in which the coordinator of a running, side-effecting job stands on the reject path and its completion raises |
| QaAgreement.UpdateTracksDone | scripts/engineering_qa/worker.py:54-71 | a delivered commit lands the digest of the result under the key of its profile |
| QaAgreement.StartTracks | db/migrations/0003_job_ledger.sql:411-428 | a job that starts has no effects yet, so everything later found on its attempt is the coordinator's |
| WorkerSafety.BranchHasClaim | scripts/engineering_worker/worker.py:522-545 | with distinct 12-digit prefixes, in every state of every run a job's branch that was not there at the start was made by a worker whose allowed attempt holds the effect claim of that job |
| WorkerSafety.OneCandidatePerJob | db/migrations/0006_b032_worker_api.sql:91-104 | at most one worker process ever passes the effect boundary of a job |
| WorkerTrace.BranchesAreTested | scripts/engineering_worker/worker.py:455-537 | in every run a job's branch that was not there at the start was made by a worker whose gate had allowed, that had found no leftovers, and that had its patch tested in its own worktree |
| WorkerTrace.FailuresAreHandled | scripts/engineering_worker/worker.py:574-595 | no worker cleans up a failure without having been in its exception handler |
| WorkerTrace.ReportedFailure | scripts/engineering_worker/worker.py:574-581 | the report of a failure under a live token quarantines a job with effects, and otherwise retries it after the configured delay within its budget |
| WorkerTrace.RefusedCall | scripts/engineering_worker/worker.py:428-595 | a call that raises, is not sent, or whose reply is lost leads from the try block to the handler, from the handler to the clean-up, and before the try block ends the worker |
| WorkerTrace.HeartbeatTaken | scripts/engineering_worker/worker.py:445-457 | while the lease is held the heartbeat prolongs it by the configured time, and the set-up comes next |
| WorkerTrace.CommitInHalves | scripts/engineering_worker/worker.py:543-545 | check and UPDATE of a commit with nothing in between are the whole call: the completion comes next exactly if it goes through, otherwise the handler |
| WorkerTrace.WrapperChecks | db/migrations/0006_b032_worker_api.sql:106-128 | a receipt goes through only under the key of its job; it is 40 hexadecimal digits and leaves the effect committed |
| EngineeringWorker.BranchIffSuccess | scripts/engineering_worker/worker.py:384-595 | a run that is not cut short, of a worker alone, leaves its branch exactly when it succeeded, or clean-up deleted nothing and the branch was made or there before; with deletions that take effect, exactly when it succeeded, or never had a worktree and the branch was there before; no other branch changes |
| EngineeringWorker.BranchIsNamed | scripts/engineering_worker/worker.py:449-453 | the branch of a job is named after the first two groups of its uuid |
| WorkerBranches.SucceededKeepsBranch | scripts/engineering_worker/worker.py:384-389 | in every confined run in which `git branch -D` takes effect, with any number of workers per job and any roots, a succeeded job has its branch if and only if the worker that completed it got the reply or did not run its clean-up, and no other worker of the job has deleted it by its clean-up since it was made |
| WorkerBranches.CleanUpsAreLogged | scripts/engineering_worker/worker.py:593-595 | in such runs the workers that have deleted a branch are exactly those that had a worktree and ran their clean-up without success |
| WorkerBranches.SharedRootIsSafe | scripts/engineering_worker/worker.py:455-459 | once a worker has made its branch, no other worker of the job with the same evidence root ever deletes one |
| WorkerBranches.SharedRootKeepsBranch | scripts/engineering_worker/worker.py:455-459 | where all workers of the job share the evidence root, the branch is there if and only if the worker that completed the job got the reply or did not run its clean-up |
| WorkerAgreement.SucceededNamesItsCommit | scripts/engineering_worker/worker.py:545-572 | in every confined run a succeeded job was completed by a worker that made its branch; its only effect is committed, and the recorded result names that branch, the receipt, which is the commit the worker made, as head_commit, and no promotion |
| WorkerTrace.RecordedCommitWasMade | scripts/engineering_worker/worker.py:532-572 | in every confined run the head_commit a succeeded job records was made by the worker that completed it, after its patch had been tested |
| WorkerCases.StaleWorkerDeletesBranch | scripts/engineering_worker/worker.py:593-595 | a run with two work directories in which the completing worker got its reply, succeeded and cleaned up, and the branch is deleted by an earlier worker of the job |
| WorkerCases.LostReplyMayDeleteBranch | scripts/engineering_worker/worker.py:569-595 | a run in which the worker that completed the job never got the reply and its clean-up deleted the branch of the succeeded job |
| WorkerCases.LostReplyMayKeepBranch | scripts/engineering_worker/worker.py:569-595 | a run in which the reply is lost, the process dies, and the branch of the succeeded job stays |
| EvidenceBundle.WriteReviewBundle | scripts/engineering_reviewer/reviewer.py:424-435 | writes exactly the given files and a manifest of them, and returns the digests that anchor them |
| EvidenceBundle.CheckFiles | scripts/engineering_qa/coordinator_core.py:295-304 | the file-set check and the loop over the manifest accept exactly intact directories |
| EvidenceBundle.WrittenReviewPasses | scripts/engineering_qa/coordinator_core.py:276-322 | a written review bundle passes exactly when it carries a diff, approves it with the right bindings and is within the size budgets |
| EvidenceBundle.AcceptedReviewIsWritten | scripts/engineering_qa/coordinator_core.py:276-322 | with an injective digest, any directory accepted under the written anchors has byte for byte the regular files that were written |
| EvidenceBundle.WrittenWorkPasses | scripts/engineering_reviewer/reviewer.py:230-263 | a worker's bundle passes the reviewer exactly when it hands over and is small enough; an oversized document is an error, not an integrity finding |
| EvidenceBundle.AcceptedWorkIsWritten | scripts/engineering_worker/worker.py:559-568 | any directory the reviewer accepts under the worker's anchors has byte for byte the worker's regular files |
| EvidenceBundle.ReviewAcceptedIff | scripts/engineering_qa/coordinator_core.py:276-322 | under the written anchors a place is accepted if and only if it is a directory with byte for byte the regular files written, and the written evidence approves the diff within the size budgets |
| EvidenceBundle.WorkAcceptedIff | scripts/engineering_reviewer/reviewer.py:230-263 | under the worker's anchors a place is accepted if and only if it is a directory with byte for byte the worker's regular files, and the evidence hands over and is small enough |
| EvidenceBundle.OnlyRegularFilesCount | scripts/engineering_qa/coordinator_core.py:295-304 | both verifiers give the same verdict on directories with the same regular files |
| EvidenceBundle.ExtrasAreIgnored | scripts/engineering_qa/coordinator_core.py:296-298 | links and subdirectories under fresh names change no verdict |
| EvidenceBundle.AcceptedReviewSays | scripts/engineering_qa/coordinator_core.py:276-322 | whatever is accepted, from whatever directory, has the digests of the payload, approves by verdict, integrity, next stage and diff digest exactly the job, commits and branch of the payload, and is within the size budgets |
| EvidenceBundle.ApprovingReviewIsAccepted | scripts/engineering_qa/coordinator_core.py:276-322 | and every written bundle that says all that within the budgets is accepted |
| EvidenceBundle.EvidenceIsForOneCandidate | scripts/engineering_qa/coordinator_core.py:306-322 | no evidence document is accepted under payloads that differ in review job, base, head or branch |
| EvidenceBundle.AcceptedListsItsFiles | scripts/engineering_qa/coordinator_core.py:295-304 | the regular files of whatever either verifier accepts are the manifest and exactly those listed in it, each under a plain name with its digest and size |
| EvidenceBundle.AcceptedWorkSays | scripts/engineering_reviewer/reviewer.py:230-263 | whatever the reviewer accepts has the digests of its payload, hands over without promotion, comes with its patch, and is small enough |
| EvidenceBundle.WorkIsAccepted | scripts/engineering_reviewer/reviewer.py:230-263 | and every written work bundle that does is accepted |
| ModelRanking.RankContent | db/migrations/0002_model_registry.sql:126-183 | a row is returned if and only if it comes from the newest valid evaluation of an eligible candidate |
| ModelRanking.RankIsOrdered | db/migrations/0002_model_registry.sql:127-200 | one row per candidate, strictly ordered by score, latency with nulls last, and key |
| ModelRanking.FilterThenLatest | db/migrations/0002_model_registry.sql:126-183 | filtering by policy before or after DISTINCT ON gives the same evaluations |
| ModelRanking.StorageOrderIrrelevant | db/migrations/0002_model_registry.sql:126-200 | the result does not depend on the storage order of the table |
| ModelRanking.IrrelevantEvaluationsIgnored | db/migrations/0002_model_registry.sql:132-142 | synthetic, expired, foreign-role, wrong-hardware and ineligible evaluations never change the result |
| ModelRanking.ScoresBounded | db/migrations/0002_model_registry.sql:156-163 | every score lies in [-0.20, 1.00] |
| ModelRanking.SecretRanksNothing | db/migrations/0002_model_registry.sql:171-182 | SECRET, unknown and NULL classifications return nothing |
| ModelRanking.PolicyHolds | db/migrations/0002_model_registry.sql:167-182 | everything ranked is promoted, not paid and cleared for the classification; a remote provider sees confidential data only with zero retention and no training |
| ModelRanking.RankedRowsAreCurrent | db/migrations/0002_model_registry.sql:126-183 | every row carries the columns and the weighted score of the last evaluation of its candidate that counts: real, current, of the role, and on the right hardware |
| ModelRanking.WhoMayServeIsRanked | db/migrations/0002_model_registry.sql:126-183 | every candidate the policy admits that has an evaluation that counts is ranked with the last one |
| ModelRanking.RankedInOrder | db/migrations/0002_model_registry.sql:184-200 | higher scores first, then lower latency with unmeasured ones last, then the key |
| ModelRanking.CaseIsIgnored | db/migrations/0002_model_registry.sql:171-182 | the classification is read without regard to case |
| PathScope.ValidateIsIdempotent | scripts/engineering_worker/worker.py:112-120 | a validated path validates to itself |
| PathScope.RefusedPaths | scripts/engineering_worker/worker.py:112-120 | a path is refused if and only if it is empty, holds NUL or a backslash, is absolute, or has a ".." or ".git" segment |
| PathScope.AcceptedPathIs | scripts/engineering_worker/worker.py:112-120 | an accepted path comes back with its segments in order, without empty and "." ones |
| PathScope.StripSlashesIs | scripts/engineering_worker/worker.py:126-135 | only trailing slashes are stripped, and all of them |
| PathScope.CoversMeansUnder | scripts/engineering_worker/worker.py:133-135 | the string test is the component-wise prefix test, except that "." covers only itself |
| PathScope.ReviewerAllows | scripts/engineering_reviewer/reviewer.py:121-131 | the reviewer's loop accepts, refuses and raises exactly as the worker's predicate does; without an allowed_paths list it raises once the list is needed, where the worker refuses |
| PathScope.AllowedMeans | scripts/engineering_worker/worker.py:123-136 | the answer for every path and every setting: what raises, what the forbidden lists refuse component by component, and that otherwise the first entry of the scope that is no valid path raises, the first that covers the path accepts, and a scope without either refuses |
| PathScope.ValidScopeMeans | scripts/engineering_worker/worker.py:123-136 | with valid settings a path is accepted if and only if it lies under an allowed base, is not forbidden and is not under a forbidden prefix |
| PathScope.DotCoversNothing | scripts/engineering_worker/worker.py:112-120 | the scope "." admits no path that has a component |
| BoundedCollector.CollectBounded | scripts/engineering_qa/bwrap_sandbox_adapter.py:101-145 | the read loop with its two breaks computes status and captured outputs of the rounds taken one after the other; pass means exit code 0 and fail another one, both with the whole of both outputs |
| BoundedCollector.CollectedIsBounded | scripts/engineering_qa/bwrap_sandbox_adapter.py:101-145 | captured outputs are prefixes of their streams and together within the limit; pass or fail means both were captured whole; output_exhausted means the process wrote more than the limit |
| BoundedCollector.PassIffExitZero | scripts/engineering_qa/bwrap_sandbox_adapter.py:137-145 | a run that was not cut short is a pass if and only if the process exits with 0 |
| BoundedCollector.DecidedInTime | scripts/engineering_qa/bwrap_sandbox_adapter.py:110-144 | if no deadline passes and each stream is offered often enough to be read to its end, the status is output_exhausted if the process wrote more than the limit, otherwise pass for exit code 0 and fail for any other |

## Left out

- LedgerTables.Ledger.LeaseNextJob: the token is an input instead of `gen_random_uuid()`, and the rows other transactions have locked are an input set.
- QaAgreement.SucceededAgrees: assumes that the lease tokens of QA jobs are used by coordinators only, which is what the role of migration 0008 is for; anyone else holding the token could commit another receipt. The at-most-once result needs no such assumption.
- WorkerSafety.BranchHasClaim: assumes distinct 12-digit prefixes among the jobs in the ledger; without them the claim is that of some job with the same prefix.
- WorkerBranches.SucceededKeepsBranch: for runs in which the `git branch -D` of clean-ups takes effect, as for WorkerBranches.SharedRootKeepsBranch and WorkerBranches.CleanUpsAreLogged; where one fails, the branch stays until some clean-up does delete it (`WorkerBranches.SucceededUntilDeleted`). Assumes distinct 12-digit prefixes among the jobs in the ledger, and that the lease tokens of implementation jobs are used by workers only, which is what the role of migration 0006 is for; only workers and their clean-ups change branches of the form fzh/job-*.
- WorkerAgreement.SucceededNamesItsCommit: assumes the same use of lease tokens, since anyone else holding the token could complete the job with another result. Late UPDATEs of the workers' own commits are included; late UPDATEs by others on these jobs are not, here and in WorkerBranches.SucceededKeepsBranch, and likewise on QA jobs in QaAgreement.SucceededAgrees.
- EngineeringWorker: reasons for which `git branch -D` does not delete, such as a branch checked out elsewhere, are one outcome of clean-up that may occur at any time.
- ModelRanking.ScoresBounded: assumes the CHECKs of `fzh.model_evaluations`; `numeric` is exact, so scores are reals.
- Tables are grouped by job: attempts, events, gate decisions and effects are stored with their job rather than in five tables with identity columns; an attempt is named by its position.
- SHA-256 and JSON: an injective digest and an encoding with an inverse are parameters where a result needs them; job payloads and results are flat, and the hash anchors and commit ids in the recorded QA and worker results, and the details of effect rows, are not modelled.
- Roles, GRANT and SECURITY DEFINER; SQL NULL for arguments other than those of the ranking query and the result of `complete_job`; PostgreSQL text collation other than C.
- Whitespace in a model hypothesis is space, tab, carriage return or line feed.
- BoundedCollector.CollectBounded: the exit code is an input; that the second wait for a killed process may itself time out and raise is not modelled.
- Subprocesses, git, psql, the sandbox, the model and the clock are environment choices: a reply, an outcome or an exception at any point. Checks before the gate, which only end the process, are part of the starting point. A failing `print` after the last ledger reply of the coordinator is not modelled; the fail call it causes is refused because the job is terminal.
- The action gate's decision, the B033 ledger wrappers, verdict derivation, the LiteLLM adapters, the tool and git command budgets, configuration schemas and the migration validators: straight case analyses or counters beside the above.
- The text of an exception, which the clients pass as error_summary, is the empty string.
- Liveness: the number of heartbeats is unbounded, so no job is shown to end.
