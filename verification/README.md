# Crash-safe paid dispatch, modelled and proved in Dafny

This project models the part of DraftBench that must not lose, repeat or overspend
anything: the attempt ledger, the shared campaign budget, the drivers over both, the
content-addressed store, and the self-contained algorithms around them.

- **Ledger** (`Plans`, `LedgerTables`, `LedgerAudit`, `LedgerSoundness`, `LedgerOps`,
  `LedgerRuns`, `LedgerMoves`, `LedgerProduced`, `LedgerLimits`, `Ledger`). The rules of
  the ledger exist three times: as checks of the operations, as database triggers in
  three schema versions, and as the history verifier. `LedgerRuns` proves that the three
  agree over every run; `LedgerSoundness` proves what an accepted history guarantees;
  `LedgerProduced` says exactly which accepted ledgers runs produce. The class `Ledger` is
  the object with its tables as fields; its methods are proved equal to the functions
  of `LedgerOps` that the theorems are about.
- **Money** (`Decimals`, `TokenBudget`, `Policies`, `Campaign`). Decimal contexts with
  rounding as in the General Decimal Arithmetic Specification, the precision that makes
  rounding the identity, the worst-case reservations, and integer admission under a
  ceiling.
- **Provider runs** (`ProviderRun`, `ProviderInvariant`, `ProviderChanges`,
  `ProviderSafety`, `ProviderReport`, `ProviderRows`, `ProviderWorld`, `ProviderReplies`,
  `ProviderMoney`, `ProviderLimits`, `ProviderDriver`, `ProviderRecovery`,
  `ProviderPrompts`, `ProviderWitnesses`). A run is a machine of small durable steps; a
  crash may fall between any two, and any number of runs share one campaign.
  `ProviderChanges` says what one step may change; almost all theorems over whole runs use
  only that. `ProviderReport` is the check of everything saved that every command starts
  with. `ProviderReplies` shows that what is stored is what the provider said, and
  `ProviderMoney` bounds the estimates of all outcomes by the reservations.
  `ProviderDriver` is the driving loop itself, proved to take only those steps and to end
  only for the reasons it names; `ProviderRecovery` says when the dependencies of a
  blocked row can still be completed. `ProviderPrompts` builds the messages of each role
  and says exactly what they are and what refuses them; `ProviderWitnesses` holds runs
  that reach the states these theorems speak of.
- **Synthetic runs** (`SyntheticDrive`, `SyntheticPlan`). The driver with pauses and
  crashes refines a function of the plan, the adapter and the calls that were cut off.
- **Store** (`ArtifactStore`). Concurrent writers over a file system that separates what
  is visible from what is durable.
- **Algorithms** (`RuntimeDependencies`, `Scoring`, `Decisions`, `Findings`,
  `ReplayContract`, `AnnotationStore`, `AnnotationExport`, `Spearman`), with the small
  libraries `Wrappers`, `Sorting`, `Tally` and `Text`.

Modelling conventions: a database transaction is one atomic step; SHA-256 and canonical
JSON are functions that keep distinct inputs apart where a result depends on that, and
this is written in the contract that needs it; identifiers and digests are only
compared and ordered; random ids are any unused ones; the adapter's reply is arbitrary,
and a function of the request only in `SyntheticDrive`. Clock readings are parameters.

Five places where the code is weaker than one might read it, kept as the code has it:

- The history verifier accepts more than the operations can produce. It does not force
  all `planned` events to come first, nor a recovery to mark all items together;
  `LedgerLimits` has a history for each, and `AcceptedIsProducedExactly` gives the exact
  condition on the rows.
- `blocked` is terminal even when the dependency is completed later
  (`BlockedThoughCompleted`). In provider runs that takes a retry or a reconciliation of
  the dependency (`BlockedThenCompleted`), and it does happen (`BlockedThenRecovered`);
  `CompletableExactly` gives the exact condition at the moment the row is blocked.
- A drive builds the prompt of a row after its dependencies are completed and outside any
  handler. A writer's success is accepted whatever its text, so a text that is no draft
  makes every later drive of the run stop at the review, for good and before anything is
  reserved (`NonDraftStrandsReview`, `RefusalIsForGood`).
- A receipt is created first and filled after. A crash in between leaves a file that
  every later command refuses to read, so the run can be neither resumed nor retried nor
  reconciled (`CrashedRunResumes`, `TornStrands`).
- Splicing an exported draft back with a blank meta line does not return the exported
  text; `OwnDraftReturns` gives the exact condition, `BlankMetaIsNotReturned` a prompt.

## Model

| member | source | states |
|---|---|---|
| Plans.ValidatePlan | src/draftbench/ledger.py:84-126 | Accepts a plan exactly when its rows are well formed, distinct, know their dependencies, and the dependency graph has no cyclic walk: both directions of Kahn's verdict |
| Plans.CheckRows | src/draftbench/ledger.py:84-106 | The row loop accepts exactly the size limits, distinct dependency lists and distinct work ids |
| Plans.BuildGraph | src/draftbench/ledger.py:107-114 | Degrees are the dependency counts, children lists are the reversed edges with each edge once; refuses exactly unknown dependencies |
| Plans.Traverse | src/draftbench/ledger.py:115-125 | The queue loop counts every item of the plan exactly when the graph has no cyclic walk |
| Plans.Release | src/draftbench/ledger.py:119-123 | Releasing one item decrements each of its children once and enqueues exactly those whose last dependency it was |
| Plans.EliminationExcludesCycles | src/draftbench/ledger.py:115-125 | An order in which every dependency precedes its item, as the traversal produces, leaves no room for a cycle |
| Plans.StuckHasCycle | src/draftbench/ledger.py:115-125 | A set of items none of which the traversal can free contains a cycle |
| LedgerAudit.VerifyHistory | src/draftbench/ledger.py:945-1033 | The verifier over stored tables returns true exactly on accepted histories |
| LedgerAudit.AuditEvents | src/draftbench/ledger.py:978-1027 | The event loop computes the fold of the per-event checks and stops at the first violation |
| LedgerAudit.CheckAttempts | src/draftbench/ledger.py:955-963 | The attempt loop accepts exactly one attempt per planned item |
| LedgerSoundness.AcceptedFollowsMoves | src/draftbench/ledger.py:52-58 | In an accepted history each event of each item is a move of the transition table from the item's previous state |
| LedgerSoundness.TerminalStays | src/draftbench/ledger.py:52-58 | Once an item of an accepted history is completed, failed, limited, unavailable or blocked, it has no further event |
| LedgerSoundness.AcceptedCompletion | src/draftbench/ledger.py:1023-1026 | A completion carries exactly the digest of the saved result right before it |
| LedgerSoundness.AcceptedSingleAttempt | src/draftbench/ledger.py:1013-1015 | All events of an item that name an attempt name the same one, with the same request |
| LedgerSoundness.TransitiveDepsCompleted | src/draftbench/ledger.py:1016-1022 | Before an item is first reserved, every item reachable over dependency edges is completed |
| LedgerSoundness.RetryEvidence | src/draftbench/ledger.py:992-1006 | Every exit from uncertain to reserved has its own retry row, which names exactly that uncertain event, and no attempt has two |
| LedgerSoundness.ReceiptEvidence | src/draftbench/ledger.py:1007-1012 | Every other exit from uncertain has its own reconciliation row with the saved result, and no attempt has two |
| LedgerSoundness.AcceptedDispatchBound | src/draftbench/ledger.py:952-1033 | In an accepted history an attempt has exactly one in-flight event, plus one for its retry row, less one while it is reserved |
| LedgerSoundness.CountBoundIsImplied | src/draftbench/ledger.py:982-985 | The event count bound of six per item and three per retry follows from the other checks, so it never rejects an otherwise good history |
| LedgerRuns.GuardAdmitsOnlyMoves | src/draftbench/ledger.py:232-306 | For every schema version, an event the trigger admits is a move of the table, and nothing leaves a terminal state |
| LedgerRuns.GuardAdmitsOnlyAccepted | src/draftbench/ledger.py:232-306 | An event the trigger, row check and foreign keys admit onto an accepted history passes every check of the verifier |
| LedgerRuns.InsertKeepsAccepted | src/draftbench/ledger.py:627-641 | Any raw insert that the row check, foreign keys and trigger let through keeps a healthy ledger healthy and its history accepted, closing balance included |
| LedgerRuns.ReserveAgrees | src/draftbench/ledger.py:642-697 | A reservation that passes the operation's own checks under an unused id is never refused by the triggers, and the result stays healthy |
| LedgerRuns.TransitionAgrees | src/draftbench/ledger.py:698-720 | Start, record, complete and fail succeed exactly from the state they name, write exactly one row, and agree with the triggers |
| LedgerRuns.SkipAgrees | src/draftbench/ledger.py:854-863 | A skip succeeds exactly on planned items with an allowed state and code, and agrees with the triggers |
| LedgerRuns.RecoverAgrees | src/draftbench/ledger.py:864-882 | Recovery cannot fail, turns exactly the in-flight items uncertain with their attempt kept and the interruption code, and is the identity without any |
| LedgerRuns.RetryAgrees | src/draftbench/ledger.py:744-787 | An unsent retry is granted exactly once per uncertain attempt, through the upgrade to version 3, and is accepted by the verifier |
| LedgerRuns.ReconcileAgrees | src/draftbench/ledger.py:788-836 | A receipt is reconciled exactly from uncertain, through the upgrade to version 2; the identical repetition changes nothing |
| LedgerRuns.ApplyKeepsHealthy | src/draftbench/ledger.py:642-881 | Every call, successful or not, keeps the ledger healthy; its own verification never reports corruption |
| LedgerRuns.EveryRunIsAccepted | src/draftbench/ledger.py:642-881 | Every history the operations can produce, in any interleaving and through any upgrade, is accepted by the verifier |
| LedgerRuns.TerminalForever | src/draftbench/ledger.py:52-58 | No sequence of calls ever changes the state row of an item that is completed, failed, limited, unavailable or blocked |
| LedgerRuns.DispatchBound | src/draftbench/ledger.py:282-306 | In every reachable ledger an attempt has exactly one in-flight event, plus one for its retry row, less one while it is reserved |
| LedgerRuns.EventsOnlyGrow | src/draftbench/ledger.py:209-220 | No call rewrites or drops an event or the plan |
| LedgerProduced.AcceptedIsProducedExactly | src/draftbench/ledger.py:642-881 | Exactly which stored ledgers the operations can produce: the accepted ones with valid rows whose log starts with the planned events, whose ids are consecutive, in which every recovery marks all items then in flight together in id order, and whose schema version is the least the evidence tables need; for each of them the calls are reconstructed |
| LedgerProduced.EveryRunIsProducible | src/draftbench/ledger.py:642-881 | Whatever calls are made, the stored ledger has that shape |
| LedgerLimits.EarlySkipIsNotProduced | src/draftbench/ledger.py:981-1033 | A history that the verifier accepts and no sequence of calls produces: an item is skipped before another is planned |
| LedgerLimits.HalfRecoveryIsNotProduced | src/draftbench/ledger.py:864-882 | From any healthy ledger with two items in flight, marking only one of them uncertain leaves an accepted history that no calls produce |
| LedgerLimits.HalfRecoveryGoesOn | src/draftbench/ledger.py:864-882 | Going on from that history with any admitted event but the other marking is accepted by the verifier too, and no log that extends it is produced by any calls |
| LedgerLimits.TwoInFlight | src/draftbench/ledger.py:698-720 | Ledgers with two items in flight are reachable by calls |
| LedgerLimits.BlockedThoughCompleted | src/draftbench/ledger.py:788-836 | Calls reach a ledger in which an item is blocked for good although its dependency was completed later by a reconciliation |
| Ledger.Ledger.constructor | src/draftbench/ledger.py:432-511 | A new ledger is healthy with every item planned |
| Ledger.Ledger.Append | src/draftbench/ledger.py:627-641 | One guarded insert: the row is appended or nothing changes |
| Ledger.Ledger.Reserve | src/draftbench/ledger.py:642-697 | The method on the stored fields computes exactly the reservation the theorems are about, or leaves the fields alone |
| Ledger.Ledger.Move | src/draftbench/ledger.py:698-718 | The common transition on the stored fields, with the same outcome and rollback |
| Ledger.Ledger.Skip | src/draftbench/ledger.py:854-863 | The skip on the stored fields |
| Ledger.Ledger.Recover | src/draftbench/ledger.py:864-882 | The recovery loop over in-flight items on the stored fields |
| Ledger.Ledger.AuthorizeUnsentRetry | src/draftbench/ledger.py:744-787 | The retry transaction on the stored fields, rolled back on any refusal |
| Ledger.Ledger.ReconcileResult | src/draftbench/ledger.py:788-836 | The reconciliation transaction on the stored fields, rolled back on any refusal |
| Decimals.DigitsExactly | src/draftbench/adapters/token_budget.py:23-31 | A coefficient has at most n digits exactly when it is below ten to the n |
| Decimals.TimesExact | src/draftbench/adapters/token_budget.py:32-36 | A product whose digits fit the context is not rounded |
| Decimals.PlusExact | src/draftbench/adapters/token_budget.py:32-36 | An aligned sum whose digits fit the context is not rounded |
| Decimals.OverTerminates | src/draftbench/adapters/token_budget.py:32-36 | A division by a divisor made of twos and fives terminates within the precision |
| Decimals.OverExact | src/draftbench/adapters/token_budget.py:32-36 | Such a division is not rounded |
| TokenBudget.SumIsExact | src/draftbench/adapters/token_budget.py:27-36 | With the precision derived from the operand lengths no product and no sum of a token cost rounds |
| TokenBudget.TokenCostExact | src/draftbench/adapters/token_budget.py:22-36 | The token cost is exact: its value is (price in * input + price out * output) / (1000000 * denominator), for denominators one and two |
| Policies.ReservationIsLinear | src/draftbench/adapters/pilot_policy.py:119-159 | The total for n attempts is exactly n times the cost of one, and that is the worst case of the provider |
| Policies.AdmissionBoundsSpending | src/draftbench/adapters/token_budget.py:38-46 | As many attempts as were admitted, each within its worst case, cost at most the policy's maximum |
| Policies.AdmitsExactly | src/draftbench/adapters/token_budget.py:38-46 | A capped run admits a number of reservations exactly when its requests, its tokens per provider window, and that many worst cases all fit its caps |
| Policies.UsageWithinReservation | src/draftbench/adapters/anthropic_contract.py:51-99 | Every usage either provider's check accepts costs at most its reservation |
| Policies.EstimateIsExact | src/draftbench/adapters/anthropic_contract.py:51-99 | Every estimate is exactly the price of the tokens as billed: input and output at OpenAI; input, cache reads and twice the cache writes, and output at Anthropic; nothing is rounded |
| Policies.AcceptedExactly | src/draftbench/adapters/openai_contract.py:50-87 | A usage is accepted exactly when its parts are within their totals and its totals within the policy; an accepted one has no estimate exactly when it is absent, reports cache writes at OpenAI, or a long context there in a run without caps |
| Policies.OpenAIWithinReservation | src/draftbench/adapters/openai_contract.py:50-87 | An accepted OpenAI usage is dominated by 5/2 of the window and 3/2 of the output cap |
| Policies.AnthropicWithinReservation | src/draftbench/adapters/anthropic_contract.py:51-99 | An accepted Anthropic usage i + 2w + r is dominated by twice the window |
| Campaign.UnitsAreLeastCover | src/draftbench/campaign.py:85-100 | The units of an amount are the least integer that covers its exact value |
| Campaign.UnitsDependOnValue | src/draftbench/campaign.py:85-100 | Equal amounts take equal units, however written |
| Campaign.AmountUnitsCover | src/draftbench/campaign.py:85-100 | An accepted quote takes the fewest units that cover its exact value; they are positive and within the ceiling |
| Campaign.AdmissionAgrees | src/draftbench/campaign.py:223-284 | Admission keeps the sum under the ceiling, changes no other reservation, and is never refused by the trigger |
| Campaign.AdmissionIsExact | src/draftbench/campaign.py:223-284 | A new attempt is admitted exactly when its currency, mode and quote are right and the fewest units that cover the quote fit under the ceiling; the total grows by exactly those units, in a row bound to every field of the claim |
| Campaign.CeilingAlwaysHolds | src/draftbench/campaign.py:223-284 | Under any interleaving of claims the ceiling holds and granted reservations never change |
| Campaign.RepetitionIsFree | src/draftbench/campaign.py:263-269 | A granted claim is granted again unchanged even when exhausted; another claim for the attempt is granted exactly when run, request, configuration, provider and the value of the quote agree, and none changes anything |
| Campaign.CampaignBudget.constructor | src/draftbench/campaign.py:115-164 | A new campaign is empty and sound |
| Campaign.CampaignBudget.ReservedTotal | src/draftbench/campaign.py:206-209 | The summing loop computes the total of all rows |
| Campaign.CampaignBudget.Reserve | src/draftbench/campaign.py:223-284 | The method on the stored rows computes exactly the admission the theorems are about, or leaves them alone |
| ProviderSafety.StepKeeps | src/draftbench/provider_workflow.py:310-443 | Every single durable step, in any order a process or operator can take them and with a crash between any two, keeps the run invariant, only adds to the campaign, moves each row only as its state allows, adds attempts only by a reservation with room and retries only for a receipt that says nothing was sent, and puts only the outcome at hand into the store and its receipt |
| ProviderSafety.RebuiltRequestIsIdentical | src/draftbench/provider_reporting.py:20-39 | Whatever revision input is passed, the request of an attempt is rebuilt from custody to the stored digest, and its prompt can be built |
| ProviderSafety.RequestBindsCustody | src/draftbench/provider_reporting.py:20-39 | Equal request digests mean the same row, revision input, and for every dependency the same result and output |
| ProviderSafety.ReservedIsPromptable | src/draftbench/provider_workflow.py:336-345 | Once a row is reserved its prompt is never refused again, whatever revision input a resume passes |
| ProviderSafety.HoldNeverMismatches | src/draftbench/provider_workflow.py:347-358 | A request that was built is never held against its reservation: no mismatch arises, a used id is the only refusal of the ledger, and the policy's caps refuse exactly a row still planned beyond them |
| ProviderSafety.ResumedAttemptIsNotChargedAgain | src/draftbench/campaign.py:263-269 | A resumed attempt's claim is never a mismatch and, if it was reserved before, changes nothing |
| ProviderSafety.InvokedIsFunded | src/draftbench/provider_workflow.py:361-396 | A call is made only by an attempt that is in flight, holds its campaign reservation and has a dispatch to spare |
| ProviderSafety.ReceiptNeverCollides | src/draftbench/workflow.py:453-459 | The receipt file a driver creates never exists yet |
| ProviderReport.ReportsExactly | src/draftbench/provider_reporting.py:91-162 | On every reachable run the check of everything saved passes exactly when no receipt file was left unfilled: rebuilt requests, prompts, results, retry and recovery evidence never fail it |
| ProviderReport.ResumesExactly | src/draftbench/provider_workflow.py:310-311 | An idle run can be driven again exactly when it has no torn receipt |
| ProviderReport.CrashedRunResumes | src/draftbench/workflow.py:453-464 | A process that dies inside its loop can be resumed unless it died between creating a receipt and syncing it and the file stayed unfilled |
| ProviderReport.TornRefusesAll | src/draftbench/provider_recovery.py:62-69 | With a torn receipt driving, retrying and reconciling all refuse and change nothing |
| ProviderReport.TornStrands | src/draftbench/workflow.py:475-485 | However long it is tried, such a run stays exactly as it is, with its item in flight |
| ProviderReport.RetriesExactly | src/draftbench/provider_recovery.py:56-96 | The unsent retry is granted exactly on a run without torn receipts, for an uncertain attempt that was not retried and whose receipt says that nothing was sent |
| ProviderReport.ReconcilesExactly | src/draftbench/provider_recovery.py:103-149 | A recovery read from a receipt is recorded exactly for an uncertain attempt or as a repetition, and the repetition never mismatches and changes nothing |
| ProviderReport.RestoresExactly | src/draftbench/provider_recovery.py:99-141 | A receipt is read back exactly on an idle run without torn receipts, for an uncertain, saved or completed attempt whose receipt restores to a success |
| ProviderReport.ReportsGuarantee | src/draftbench/provider_reporting.py:91-162 | A run of any origin that passes the check, with a sound ledger and objects under their own digests, has every stored request as it would be rebuilt and with its prompt, every saved result verified, and every receipt its failures, retries and recoveries need |
| ProviderRows.RefusalIsForGood | src/draftbench/provider_workflow.py:336-345 | Over any steps: a row that is due and has no prompt, a revision with no input it could be given, is never reserved, dispatched or skipped, stays without a prompt whatever revision input is passed, and no drive gets past it |
| ProviderRows.RefusedExactly | src/draftbench/provider_workflow.py:336-345 | A row is refused for good exactly when it is planned and a drive would refuse its prompt: for a revision with every revision input, for any other row with any |
| ProviderRows.BehindKeeps | src/draftbench/provider_workflow.py:313-442 | The rows behind the loop's position are terminal or uncertain, after every step |
| ProviderPrompts.ReviewIsRefusedExactly | src/draftbench/provider_reporting.py:42-72 | A due review has no prompt exactly when the output is no draft, the exported prompt lacks its anchors or roles, or the limit is passed |
| ProviderPrompts.RevisionIsRefusedExactly | src/draftbench/provider_reporting.py:42-72 | A due revision has no prompt with any review replay exactly when it has other than two dependencies, no exported messages, or no messages opened by the exported instruction that keep the limit |
| ProviderPrompts.PromptIsExactly | src/draftbench/provider_reporting.py:42-72 | What is sent, exactly: a writer's exported messages; the exported review prompt with the subject's draft in place of the exported one; a replay pinned to the case and to both outputs and opened by the exported instruction; each within the limit and for its own role |
| ProviderPrompts.NoDraftNoReview | src/draftbench/adapters/replay_contract.py:177-184 | Any output that cannot be an object text, though a verified success, leaves its review without a prompt |
| ProviderWitnesses.NonDraftStrandsReview | src/draftbench/provider_reporting.py:42-72 | A run is reached in which the writer's verified success is the text hello and the review is refused in every continuation |
| ProviderWitnesses.TornIsReachable | src/draftbench/workflow.py:453-464 | A run with a torn receipt is reached from a fresh one |
| ProviderWorld.EveryHistoryIsSafe | src/draftbench/provider_workflow.py:310-443 | Every history of any number of runs, crashes, resumes, retries and reconciliations over one campaign keeps the world invariant |
| ProviderWorld.EveryLoopIsOk | src/draftbench/provider_workflow.py:313-442 | In every history the rows behind a drive's position are terminal or uncertain and, with dependencies listed first, every blocked row has a dependency that is terminal without success, uncertain, or was retried or reconciled |
| ProviderWorld.DispatchSafety | src/draftbench/provider_workflow.py:313-442 | Calls of an attempt are at most its in-flight events, those at most one plus one for a retry row; every called attempt is reserved in full; at most one item of a run is in flight |
| ProviderWorld.EveryCallIsFunded | src/draftbench/provider_workflow.py:361-396 | At the moment of any call of any history the attempt is in flight, not called for this dispatch yet, and reserved in the campaign under its own run, request, configuration and provider for the fewest units that cover its worst case |
| ProviderWorld.ResumeIsIdempotent | src/draftbench/provider_workflow.py:336-378 | In every history resuming rebuilds the stored request, its prompt and its binding, so neither mismatch arises and nothing is charged twice |
| ProviderWorld.WrongModeIsNeverCalled | src/draftbench/provider_workflow.py:361-381 | A run whose policy is capped in a tracking campaign, or the other way round, is never charged, dispatched or called, and each of its claims is refused for that reason |
| ProviderWorld.RefusedInEveryFuture | src/draftbench/provider_workflow.py:336-345 | In every continuation of a history, other runs included, a row refused its prompt stays due, unreserved, without a prompt for any revision input, and in the way of every drive |
| ProviderWorld.TornInEveryFuture | src/draftbench/workflow.py:475-485 | In every continuation of a history a run with a torn receipt is exactly as it was left |
| ProviderWorld.BlockedThenCompleted | src/draftbench/provider_workflow.py:325-329 | In every history, with dependencies listed first: a blocked row whose dependencies are all completed has one whose attempt holds a retry or a reconciliation row |
| ProviderReplies.EveryOutcomeIsItsReply | src/draftbench/provider_workflow.py:384-436 | In every history, crashes, retries and recoveries included: an attempt's receipt and its saved result carry the output, usage, answer and connection error of the provider's last reply to it, bound to the attempt's own request and parents; a recovered result has the output and usage that the reply's answer reads back as; an item is limited or failed only on that word |
| ProviderReplies.RetryIsForUnsent | src/draftbench/provider_recovery.py:56-96 | In every history an unsent retry can be taken exactly for an uncertain attempt without one, on an idle run without torn receipts, whose last reply was an Anthropic connection error without a request id or an answer and left its receipt |
| ProviderReplies.RecoveryIsForAnswered | src/draftbench/provider_recovery.py:99-141 | In every history a recovery can be taken exactly for an uncertain, saved or completed attempt with its receipt, on an idle run without torn receipts, whose last reply was not accepted but reads back as a success with an acceptable usage |
| ProviderReplies.ReconciledReadsBack | src/draftbench/provider_recovery.py:16-53 | Every reconciled attempt holds a success whose output and usage are exactly what its receipt's answer reads back as, with the receipt's request, parents and answer |
| ProviderReplies.RestorationExactly | src/draftbench/provider_recovery.py:16-53 | A receipt restores to a result exactly when it is uncertain, its answer reads back as this output and an acceptable usage, and the result keeps its request, parents and answer |
| ProviderMoney.MoneyBound | src/draftbench/campaign.py:223-284 | In every history of a non-tracking campaign: each stored outcome that is not uncertain, also one left behind by a crash, belongs to one reserved attempt that has no other; their estimates sum to at most the reserved amounts, and those to at most 50 USD |
| ProviderMoney.StepAccounts | src/draftbench/provider_workflow.py:384-436 | Every step of driver and operator keeps at most one outcome with an estimate per attempt: a second call, a retry or a restoration never adds another |
| ProviderRecovery.CompletableExactly | src/draftbench/provider_workflow.py:325-329 | With the loop past a row's dependencies: some further steps complete all of them exactly when none is stranded, that is terminal without success, or uncertain with no receipt that restores and no retry left to grant |
| ProviderRecovery.StoppedRests | src/draftbench/provider_workflow.py:313-329 | From the moment a row is blocked on, a drive that stops at any row leaves the run in the state the exact condition is read off: idle, nothing torn or in flight, every earlier row done with |
| ProviderRecovery.StrandedInEveryFuture | src/draftbench/provider_workflow.py:325-329 | In every continuation of a history, other runs included, a stranded dependency stays stranded and is never completed |
| ProviderRecovery.RestoreCompletes | src/draftbench/provider_recovery.py:99-149 | From any resumable idle run, an uncertain attempt whose receipt restores is completed by restoring and reconciling it, with every other row as it was and with the output and usage its receipt's answer reads back as |
| ProviderRecovery.RetryCompletes | src/draftbench/provider_recovery.py:56-96 | An uncertain attempt whose receipt says that nothing was sent is completed by its retry and one more drive with whatever success the provider answers, stored as it was said, with every other row as it was |
| ProviderWitnesses.BlockedThenRecovered | src/draftbench/provider_recovery.py:99-149 | Such a run is reached from a fresh one: the review is blocked behind the writer's uncertain call, and stays blocked after the writer is completed from its receipt |
| ProviderDriver.ProviderProcess.Drive | src/draftbench/provider_workflow.py:310-443 | Starts exactly without a torn receipt; makes at most the allowed calls; names the row it ended at and why: a pause only after exactly the allowed calls at a row still open, a refused prompt exactly when that row is due and has none, the caps only at a row planned beyond them, the campaign only at a reserved row it has not charged; finished, leaves every row terminal or uncertain; unless it crashed, nothing is in flight and what it leaves passes the closing check; all it did is a sequence of the modelled steps |
| ProviderDriver.ProviderProcess.Turn | src/draftbench/provider_workflow.py:313-442 | One turn touches only its own row and makes one call exactly when it says so; it pauses exactly when asked to at an open row; its prompt is refused exactly when the row is due, not paused and has none, and then nothing is stored, reserved, charged or called |
| ProviderDriver.ProviderProcess.Prepare | src/draftbench/provider_workflow.py:336-346 | Building waits exactly for a missing revision input, refuses exactly a missing prompt, and otherwise stores the request |
| ProviderDriver.ProviderProcess.Hold | src/draftbench/provider_workflow.py:347-358 | What was built is reserved or its reservation adopted; it is refused exactly when the row is planned and the policy's caps have no room for it |
| ProviderDriver.ProviderProcess.TakeFunds | src/draftbench/provider_workflow.py:361-381 | The shared reservation is granted exactly when the admission grants it, always for an attempt that already holds it; otherwise nothing changes and the reason holds: the campaign is exhausted, it is of the other mode, or the quote is zero or above the ceiling |
| ProviderDriver.ProviderProcess.Perform | src/draftbench/provider_workflow.py:384-442 | From the start to the end of a row at most one call is made, wherever a crash falls: also between the call, the store of its result, and the receipt's creation and filling |
| ProviderDriver.VisitTurns | src/draftbench/provider_workflow.py:313-329 | A row that needs no call becomes exactly what it should: a saved result is completed as saved, a row without input is unavailable, any other planned one is blocked, each with its code, and the rest are passed over |
| ProviderDriver.ConcludeTurns | src/draftbench/provider_workflow.py:427-436 | A limited, failed or uncertain reply leaves its item limited, failed or uncertain, with its code, and ends its row for this driver |
| ProviderDriver.HoldIsOfItsRequest | src/draftbench/provider_workflow.py:347-358 | Whatever is stored, an attempt is held only when its row carries exactly the request that was built and names that attempt |
| ProviderLimits.RunStaysWithinPolicy | src/draftbench/adapters/token_budget.py:38-46 | In every history every run stays within its own caps: requests, reserved tokens, and the estimated cost of all its stored outcomes |
| SyntheticDrive.SyntheticRun.Drive | src/draftbench/workflow.py:326-425 | The loop over the plan never refuses, only appends events, ends every item at the state the plan and the interrupted calls alone foresee when it finishes, and changes nothing on a finished run; it makes at most the allowed calls, counted in the log, and pauses only after exactly those at a row still to be called; only a crash in the window of a call loses an item, and then one |
| SyntheticDrive.SyntheticRun.DriveInPieces | src/draftbench/workflow.py:326-425 | Any number of step-limited and crashing drives followed by one undisturbed drive ends with exactly the states, requests, results and codes the plan and the interrupted calls determine: those of one drive when no crash fell in the window of a call, and the interrupted items are exactly the uncertain ones |
| SyntheticDrive.InterruptionStays | src/draftbench/workflow.py:326-425 | What interrupted calls leave: those items uncertain, everything that depends on them however far up blocked or unavailable, and every other item exactly where it would have ended without them |
| SyntheticDrive.InterruptedOnTrack | src/draftbench/workflow.py:376-386 | At the moment a call is cut off, counting its item as lost puts every row of the run on its way to its end again |
| SyntheticDrive.SyntheticRun.VisitRow | src/draftbench/workflow.py:331-424 | One turn touches only its own row and settles it, pauses at a row still open or crashes; the log shows exactly the call it says it made |
| SyntheticDrive.SyntheticRun.Dispatch | src/draftbench/workflow.py:376-424 | From start to record the adapter's reply decides the one row that fits the foreseen state; a crash in between leaves the item in flight and counted as interrupted |
| SyntheticDrive.SyntheticRun.Secure | src/draftbench/workflow.py:355-375 | A reserved row's stored request always equals the request built again |
| SyntheticDrive.SyntheticRun.VerifyArtifacts | src/draftbench/workflow.py:275-291 | The check before every resume passes exactly when each stored request is the one built again now and each saved result answers it |
| SyntheticDrive.OnTrackAgrees | src/draftbench/workflow.py:275-291 | That check passes on every paused or crashed run, with a call cut off or not |
| SyntheticDrive.SettledIsFate | src/draftbench/workflow.py:326-425 | A run whose items are all settled is where the plan, the adapter and the interrupted calls alone say |
| SyntheticDrive.RequestIsForeseen | src/draftbench/workflow.py:231-260 | With all dependencies completed the request built from the ledger is the foreseen one |
| SyntheticDrive.ReadyIsForeseen | src/draftbench/workflow.py:347-352 | An item is blocked exactly when the plan foresees it |
| SyntheticPlan.BuildPlan | src/draftbench/workflow.py:71-92 | The plan built from distinct cases lists writer, reviewer and revision with their dependencies in order and validates exactly within the size limit |
| SyntheticPlan.EarlierDepsAcyclic | src/draftbench/workflow.py:71-92 | A plan whose dependencies come earlier has no cycle |
| ArtifactStore.StepKeeps | src/draftbench/store.py:199-285 | Every system call of every concurrent writer, every abandoned or killed writer and every crash keeps the store invariant |
| ArtifactStore.EveryVisibleObjectIsSound | src/draftbench/store.py:145-185 | At every moment, also after a crash, each digest-named entry holds durable bytes of lawful size hashing to its name |
| ArtifactStore.NeverRebound | src/draftbench/store.py:250-262 | No step removes a digest-named entry or changes its file or bytes |
| ArtifactStore.ReturnedSurvives | src/draftbench/store.py:207-218 | Once any writer returned a digest, on either path, the object survives every later step and crash unchanged |
| ArtifactStore.NoMismatch | src/draftbench/store.py:209-212 | With an injective hash a writer never meets foreign bytes under its digest |
| ArtifactStore.NoLitter | src/draftbench/store.py:265-281 | Where no put was killed, every staging entry is that of a running put: one that returned or failed has removed its own |
| ArtifactStore.PutNeverStuck | src/draftbench/store.py:199-285 | Whatever other writers and earlier crashes did, a running put can take its next step, is nearer its end by it, and ends by returning the digest of its own bytes |
| ArtifactStore.Writers.Put | src/draftbench/store.py:199-218 | An undisturbed put returns the digest exactly for lawful sizes, and then the object is durable and reads back as the bytes |
| ArtifactStore.Writers.Publish | src/draftbench/store.py:220-273 | Stage, write, sync, link, check and discard, in that order, bring an undisturbed put to its directory sync |
| RuntimeDependencies.Resolve | src/draftbench/pilot.py:62-101 | Terminates on every graph, cyclic or not; succeeds exactly when the closure can be read and is met, and then reports the versions of exactly the least closed set of (distribution, extra) |
| RuntimeDependencies.Visit | src/draftbench/pilot.py:82-98 | Visiting base and extras in any order adds exactly those nodes and their active requirements |
| RuntimeDependencies.Children | src/draftbench/pilot.py:92-98 | The active requirements of one node, or failure at an unreadable line |
| RuntimeDependencies.LeastClosedIsUnique | src/draftbench/pilot.py:62-101 | There is one such set, so the order of the worklist does not matter |
| Decisions.ScoreDecisions | src/draftbench/scoring/decisions.py:71-151 | Succeeds on exactly the scorable cohorts, with the report of the counts; no rate refuses its counts |
| Decisions.Count | src/draftbench/scoring/decisions.py:110-125 | The counting loop computes the tallies of effective, raw and labelled decisions and the error counters |
| Decisions.CountsConserve | src/draftbench/scoring/decisions.py:92-125 | The three tallies each sum to the cohort; passes split by label; a raw pass is credited or invalid; no error exceeds its label or class |
| Decisions.AssessIsRawOrError | src/draftbench/scoring/decisions.py:33-68 | An assessment is the reviewer's own decision or a measurement error |
| Decisions.AssessMeans | src/draftbench/scoring/decisions.py:33-68 | A credited pass is a usable review that says pass, with every required check that is not waived passed and no major or critical defect; edits and blocks need such checks decided, abstentions none |
| Decisions.CohortMeans | src/draftbench/scoring/models.py:390-402 | Cases are of one cohort exactly when rubric and version, reviewer, and the scope, producer and basis of the reference agree |
| Decisions.OrderIsIrrelevant | src/draftbench/scoring/decisions.py:71-151 | Any order of the same cases is scorable alike and gets the same report |
| Findings.ScoreFindings | src/draftbench/scoring/findings.py:8-153 | Scores every valid case with the report its evidence determines; no rate refuses its counts |
| Findings.CountClaims | src/draftbench/scoring/findings.py:56-62 | The counter holds for each defect the number of predictions said to match it |
| Findings.Decide | src/draftbench/scoring/findings.py:63-93 | The loop gives every prediction its state, collects the matched defects and checks categories |
| Findings.ContestedByCount | src/draftbench/scoring/findings.py:70-76 | A count above one is exactly another prediction claiming the same defect |
| Findings.StateMeans | src/draftbench/scoring/findings.py:63-93 | From judgments, authority and spans alone: a prediction is ambiguous exactly when so judged or rivalled, spurious exactly when so judged with authority and a span in place, matched exactly with one known defect of its category, unrivalled, with authority and both spans in place |
| Findings.CoverageMeans | src/draftbench/scoring/findings.py:24-30 | Review coverage is complete exactly when a decision is credited, unavailable exactly without a review or with an error |
| Scoring.ScopeMeans | src/draftbench/scoring/models.py:358-369 | Each reference scope arises exactly from who produced the reference, on which basis and how independently |
| Scoring.RateMeans | src/draftbench/scoring/models.py:372-387 | A rate is refused exactly for counts that are no part and whole, and known exactly when assessed over something |
| Scoring.SpanMeans | src/draftbench/scoring/models.py:68-74 | A span fits exactly when its quote is what stands between its ends in its item |
| Findings.MatchesAreOneToOne | src/draftbench/scoring/findings.py:63-93 | Two matched predictions never share a defect, and each matches a reference defect |
| Findings.ScoresConserve | src/draftbench/scoring/findings.py:95-125 | Predictions are matched plus spurious plus ambiguous plus unassessed; defects are matched plus unmatched |
| Findings.ReportConserves | src/draftbench/scoring/findings.py:125-153 | The reported counts conserve, and critical misses are the critical defects not matched |
| Findings.KnownRatesAreDecided | src/draftbench/scoring/findings.py:110-153 | A known precision or recall is over decided predictions and valid measurements only |
| Findings.RatesAccepted | src/draftbench/scoring/models.py:372-387 | The counts given to each of the three rates, the critical one included, always satisfy 0 <= n <= d |
| Findings.OrderAndSuggestionsAreIrrelevant | src/draftbench/scoring/findings.py:8-153 | Reordering findings, judgments and defects, or adding and removing well-placed suggestions, changes nothing but the suggestion count |
| ReplayContract.ItemsUnchanged | src/draftbench/adapters/replay_contract.py:199-242 | Splicing any draft leaves the reviewer's item identifiers, or their refusal, unchanged |
| ReplayContract.SpliceRenders | src/draftbench/adapters/replay_contract.py:199-233 | An accepted prompt is a template around its own title, meta line and body; splicing renders the same template with the draft's |
| ReplayContract.OwnDraftReturns | src/draftbench/adapters/replay_contract.py:199-233 | Splicing the exported title, meta and body back returns the exported text exactly when the meta line is not blank |
| ReplayContract.SpliceDeterminesDraft | src/draftbench/adapters/replay_contract.py:219-232 | Two drafts with one-line title and meta give the same prompt exactly when title, shown meta and body agree |
| ReplayContract.BlankMetaIsNotReturned | src/draftbench/adapters/replay_contract.py:199-233 | A concrete accepted prompt with a blank meta line, whose own draft spliced back gives another text |
| ReplayContract.AcceptedIsUnambiguous | src/draftbench/adapters/replay_contract.py:207-218 | An accepted prompt has exactly one evidence block at any position, behind a promise; whatever else looks like that promise or like the draft anchor overlaps it |
| ReplayContract.AcceptedExactly | src/draftbench/adapters/replay_contract.py:207-218 | A prompt is accepted exactly when each anchor occurs once and a block lies between promise and draft: the left-to-right scan adds nothing |
| ReplayContract.ItemsReadBack | src/draftbench/adapters/replay_contract.py:236-242 | Rendered item lines are read back exactly, all of them and in order |
| ReplayContract.ItemsExactly | src/draftbench/adapters/replay_contract.py:199-242 | The items are exactly the identifiers on the item lines behind the last heading, refused when there are none or one comes twice |
| ReplayContract.RenderEnds | src/draftbench/adapters/replay_contract.py:236-242 | Only what follows the last items heading decides the items |
| AnnotationStore.Store.Append | src/draftbench/annotation_store.py:492-530 | Imports the whole batch or nothing, and succeeds on exactly the acceptable batches, in which the up-front byte limit on the batch plays no part |
| AnnotationStore.Store.Insert | src/draftbench/annotation_store.py:496-530 | The transaction inserts the new records in order and counts duplicates, or rolls back |
| AnnotationStore.PrepareBatch | src/draftbench/annotation_store.py:124-145 | The checks before the transaction accept exactly presentable batches within the byte budget |
| AnnotationStore.FittingBatchIsLight | src/draftbench/annotation_store.py:133-136 | A batch the store could take is never heavier than the byte budget: the early refusal loses nothing |
| AnnotationStore.EveryStoreIsOk | src/draftbench/annotation_store.py:435-459 | Count, byte and record limits and unique ids hold in every reachable store, and rows are only appended |
| AnnotationStore.RecordsNeverChange | src/draftbench/annotation_store.py:503-508 | No later batch changes what an id stands for or when it was received |
| AnnotationStore.AppendingAgainIsNothing | src/draftbench/annotation_store.py:492-530 | An accepted batch presented again at any later time succeeds and inserts nothing, even at capacity |
| AnnotationExport.Export | src/draftbench/annotation_export.py:57-129 | Exports a case under fresh aliases exactly when its checks name only its own units |
| AnnotationExport.ExportVerifies | src/draftbench/annotation.py:111-180 | Every exported task passes the verifier under its own mapping |
| AnnotationExport.VerifyTask | src/draftbench/annotation.py:111-180 | The verifier run decides exactly the declarative check |
| AnnotationExport.VerifiedIsExported | src/draftbench/annotation.py:111-180 | What passes the verifier is the case under the mapping's aliases: units exact and in order, sources and criteria exact as sets |
| AnnotationExport.TasksAreBlind | src/draftbench/annotation_export.py:92-120 | Under any injective renaming of units, sources and checks that keeps the questions, any other identity and any private observations, a case exports to exactly the same tasks, under aliases carried over by the renaming |
| AnnotationExport.SpansTravel | src/draftbench/annotation.py:297-303 | A span fits a blind unit's text exactly when it fits the case's text after its unit is named back |
| Spearman.RankIsOrder | src/draftbench/judge/report.py:207-209 | Ranks are 1..n in the order of falling scores, equal scores by identifier |
| Spearman.SumOfRanks | src/draftbench/judge/report.py:207-213 | Any sum over a ranking of n candidates is the sum over 1..n |
| Spearman.SquaresComplement | src/draftbench/judge/report.py:211-214 | Squared rank differences and squared mirror differences of any two rankings sum to n(n^2-1)/3 |
| Spearman.SpearmanIsBounded | src/draftbench/judge/report.py:201-214 | The coefficient before rounding lies in [-1, 1]; it is 1 exactly for equal and -1 exactly for mirrored rankings |
| Spearman.SpearmanIsPearson | src/draftbench/judge/report.py:201-214 | The coefficient before rounding is the Pearson correlation of the two rank maps: their covariance over their common positive variance |

## Left out

- Identifier, digest and code syntax checks, file modes, inodes, symbolic links, sidecars, pragmas and SQLite internals: the directory is trusted and transactions are atomic.
- Tracking-only campaigns and policies appear only as a mode without amounts; they have no monetary bound.
- Requests over HTTP, SDK dispatch, credentials, live authorization, command lines, progress output and rendering of reports.
- `bradley_terry` and the panel tallies: a fixed number of floating-point rounds with seeded wins that do not balance the seeded games.
- Pydantic validation and JSON encoding: the models start from records of the right shape; the shape rules that the theorems use are written out.
- The Inspect adapter: its results carry wall-clock times, so a resumed run need not equal an undisturbed one.
- The summary `_report` returns; of its checks, the manifest's own fields, the wire form of the request beside each result (a function of policy and prompt), and the fixed text of the retry evidence.
- The checks of a manifest on resume, which refuse a run of the wrong campaign mode before it is driven again; the model lets such a run be driven and proves it is never charged.
- The operator's own validation of a recovered output, the manifest the operator expects and the confirmation text: each may keep a retry or a recovery from being taken.
- ProviderDriver.ProviderProcess.Perform: an outcome larger than the store's limit of 8 MiB raises between the call and its save; to the saved state that is the crash before the save, and the item becomes uncertain on the next resume.
- ProviderDriver.ProviderProcess.Prepare: an envelope larger than the store's limit raises in the same place as a missing prompt, before anything is stored; the model counts it among the refused prompts.
- Installed package versions and logging set-up, which a drive checks before each call.
- The runs of `ProviderDriver` always have a campaign; one drive owns the campaign object while it runs, and interleavings with other processes are those of `ProviderWorld`.
- The pilot launcher, release projection, inventory counts, static schemas, HTML, CSV and Markdown: only easy members.
- Byte budgets and random presentation order of the annotation export, the sealing digests of its tasks, and `_normalize` beyond span and label renaming.
- The annotation store compares canonical bytes and their digest; the model compares the record they encode, and corruption found on reading is outside it.
- Bindings between the parts of a scoring case and its artifact digest, and the digests themselves: a case is taken with its parts already bound.
- Lists sorted only for display (pending, ambiguous and unmatched identifiers) are sets.
- ArtifactStore.Writers.Put: runs without interference; the other writers, failures and crashes between its steps are those of the step relation.
- ArtifactStore.StepKeeps: a write is one step that replaces the file's unsynced content; writes cut into pieces leave the same unsynced file.
- ArtifactStore.NoMismatch: needs a hash without collisions; the other store theorems do not.
- ProviderPrompts.ReviewIsRefusedExactly: reading a draft out of a JSON text is a function that accepts only texts starting with a brace, and the encoded length a predicate on the prompt; the hashes a review replay is bound by are modelled as the texts themselves.
- ProviderWorld.WrongModeIsNeverCalled: does not include the later refusal of the manifest itself.
- ReplayContract.AcceptedIsUnambiguous: counting without overlaps, as the code does, leaves overlapping occurrences possible.
- Campaign.UnitsDependOnValue: stands for the reduction to lowest terms in `as_integer_ratio`, which the model does not perform.
- Decisions.AssessIsRawOrError: does not restate each branch of the assessment, whose text is the function itself.
- ProviderMoney.MoneyBound: an outcome whose cost is unknown (uncertain, no usage, or cache writes) counts as zero, as no estimate exists for it.
- Spearman.SpearmanIsBounded: the value before rounding to three digits; scores are exact numbers.
- RuntimeDependencies.Resolve: parsing of requirement lines, names, versions and specifiers is given; markers are evaluated except for `extra`.
- ReplayContract.OwnDraftReturns: the templates of the reviewer prompt are fixed texts; message lists are the two messages with their roles.
