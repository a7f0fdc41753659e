# Factory control plane: a verified model

The repository runs an autonomous "factory": it holds money against a monthly
budget, picks an issue, applies one patch under a compare-and-set journal, and
keeps job files and archives on disk.  This project models six of those
components in Dafny and proves what each of them keeps over every run.

| component | files |
|---|---|
| The cash budget ledger | `Calendar`, `Pricing`, `LedgerErrors`, `LedgerRows`, `LedgerCommands`, `LedgerInvariant`, `LedgerPreservation`, `LedgerRuns`, `LedgerReplay`, `LedgerIntegrity`, `LedgerSettlement`, `LedgerReceipts`, `LedgerAcceptance`, `LedgerTampering`, `LedgerPricingStream`, `LedgerConnection` |
| The orchestration journal and service | `OrchestrationGates`, `OrchestrationJournal`, `Orchestration`, `OrchestrationSafety`, `OrchestrationWitness`, `OrchestrationOutcomes`, `OrchestrationStranding` |
| The policy import closure | `PolicyModules`, `PolicyTargets`, `PolicyClosure`, `PolicyWalk` |
| Scopes and issue selection | `IssueScopes`, `IssueScopeSpelling`, `IssueScopeOverlap`, `IssueSelection`, `IssueSelectionMeaning` |
| Crash-safe file protocols | `ArchiveStore`, `JobQueue`, `JobQueueTerminals`, `JobQueueOutcomes` |
| The bounded process | `Utf8`, `BoundedCapture` |

`Text` (string order, splitting, sorted sets) and `Wrappers` are shared.
`dafny verify dfyconfig.toml` checks everything.

## How the model is built

**Ledger.**  `LedgerRows` holds the five tables as sequences; a row's id is its
position.  `LedgerCommands` specifies the seven commands (no-charge and manual
reconciliation are the two constructors of one input) with every error branch in
the order the commands test them.  `LedgerConnection` is the program: a class whose tables are
updated in place, one transaction per command, rolled back on error; each method
leaves exactly the state and reply of its specification.  `LedgerInvariant` is
the invariant, `LedgerPreservation` proves that every command keeps it, and the
remaining modules read theorems off it for all runs from the empty ledger.
`LedgerAcceptance` and `LedgerReceipts` say of every command, by its fields and the
rows alone, exactly when it is taken, what it then writes, and what it is refused for.

**Orchestration.**  The journal is a class over its rows.  The service is a
transition system: any number of processes, one program counter each, every
journal call and every outside effect one atomic step, the environment answering
each question, a crash possible before any step.

**Files.**  The archive and the queue are transition systems whose steps are
single file operations, with kills between any two.

## Where the code does not do what it is for

Each point is a lemma with the exact condition, and a run or an input that fails.

* *Month window compared as text.*  Month boundaries are stored without
  fractional seconds and entries with six, and `.` sorts before `Z`.  An entry
  in the first second of its month is therefore "before" that month for the
  balance query, and from then on the ledger refuses to open.  The ledger opens
  exactly when no entry lies in a first second
  (`LedgerIntegrity.ValidatesExactlyWhen`), a command closes it exactly when the
  ledger would take its paid entry and that entry's time is in a first second, both
  known before the command (`StaysOpenExactlyWhen`), nothing reopens it
  (`ClosedForever`), and two accepted commands are enough
  (`MidnightDebitClosesTheLedger`).
* *Unrecordable gates.*  A gate that was cut off, timed out or cancelled but
  still left exit code zero has no valid result record
  (`OrchestrationGates.UnrecordableExactlyWhen`).  Its process then raises and its
  row stays in `gating`, exactly in that case; every other stopped gate ends in
  `failed` or `cancelled`
  (`OrchestrationStranding.FailingGateStrandsExactlyWhen`).  No later step of any
  process finishes such a row (`StrandedForever`), and any documentation request
  can end so (`StrandingIsReachable`).
* *Scopes with a leading backtick.*  The request model admits scopes in canonical
  repository spelling; the overlap test strips backticks first and can then drop a
  `./` that the glob test at apply time still sees.  Two admitted scopes that are
  found apart share a path exactly when one masks the other: it begins with a
  backtick, has its star right behind a dot, the other has a slash there, and their
  ends meet (`IssueScopeSpelling.ApartScopesShareAPathExactlyWhen`, for whole
  requests `RequestsShareAPathExactlyWhen`).  `IssueScopes.OddScopesShareAPath`
  gives such pairs.  Unless both sides begin with a backtick the test is sound
  (`RepoScopesAreSound`).
* *Leftover temporaries.*  A run killed while it holds a temporary file leaves
  an entry that makes every later archive run raise, even when the metadata was
  already linked (`ArchiveStore.LeftoverStopsEveryRun`).  A run can succeed
  exactly when its opening check does not refuse (`FinishesExactlyWhen`), and a
  killed run can be retried exactly when it held none
  (`KilledRunCanBeRetriedExactlyWhen`).
* *Two terminal files.*  A job can end both completed and failed.  The cause is a
  recovery that finishes a listed job itself while another outcome is still open or
  already written: the owner finished or restored the job between the listing and
  the reading, the owner was killed between its terminal write and the unlink, or
  the owner is alive past timeout and grace and completes later.  Each way is a run
  from the empty queue (`JobQueueTerminals.FinishedJobsCanAlsoFail`).  While every
  takeover of a job finds it out of the queue, out of the other terminal directory
  and with no living process that could still write the other outcome, the job ends
  in one directory (`GuardedJobsEndOnce`); a takeover is safe exactly under that
  guard (`TakeoverIsSafeExactlyWhen`).
* *Receipts that cannot be priced.*  A receipt whose reported usage leaves the
  envelope so far that its cost leaves 64 bits is refused as an amount and leaves no
  event; one that merely leaves the envelope makes the reservation uncertain
  (`LedgerReceipts.ReceiptEndsExactly`).
* *Dead checks.*  "journal-invalid" for an overlapping row of the same request
  never occurs on a sound table (`OrchestrationJournal.AdmittedExactlyWhen`), and a
  debit within the free budget never leaves the 64-bit balance
  (`LedgerAcceptance.RecordEndsExactly`).

## Model

| member | source | states |
|---|---|---|
| Calendar.MonthWindow | scripts/factory_budget_ledger_models.py:62-72 | an instant is in the half-open window from a month's start to the next month's start exactly when that is its calendar month, December included |
| Calendar.StampBeforeBoundaryText | scripts/factory_budget_ledger_integrity.py:99-104 | an instant's text sorts before a month boundary's text exactly when it is earlier or in that month's first second |
| Calendar.BoundaryTextOrder | scripts/factory_budget_ledger_models.py:197-198 | two month boundaries sort as text in calendar order |
| Calendar.BeforeCountsUp | scripts/factory_budget_reservation_models.py:81-85 | the order of instants is the order of their fields read as one number, and is total |
| Pricing.PricedCostMeaning | scripts/factory_budget_reservation_models.py:241-266 | the cost is the sum of the rounded-up lines and fails exactly when a count, a product or the total leaves 64 bits or a required charge is zero |
| Pricing.LineRoundsUp | scripts/factory_budget_reservation_models.py:258-261 | a line is at least the exact price and less than one unit above it |
| Pricing.CostOrderIrrelevant | scripts/factory_budget_reservation_models.py:241-266 | permuting the price terms changes neither the cost nor whether there is one |
| Pricing.EnvelopeDominates | scripts/factory_budget_reservation_models.py:241-266 | usage pointwise within the envelope never overflows and never costs more than the envelope |
| Pricing.SortByUnitPermutes | scripts/factory_budget_reservation_store.py:68-94 | reading the terms back by unit loses and invents none |
| Pricing.ComputePricedCost | scripts/factory_budget_reservation_models.py:241-266 | the loop returns the specified cost, exactly when it is chargeable and in range |
| LedgerConnection.ValidateRequest | scripts/factory_budget_reservation_models.py:111-140 | the validation loop, with its sets of snapshots and units, gives the specified worst case or the first error |
| LedgerConnection.Connection.InitializePeriod | scripts/factory_budget_ledger_periods.py:25-100 | in-place initialisation leaves exactly the specified state and reply and keeps the invariant |
| LedgerConnection.Connection.RecordEntry | scripts/factory_budget_ledger_entries.py:24-112 | in-place entry and balance update equal the specified step and keep the invariant |
| LedgerConnection.Connection.ReserveForDispatchLocked | scripts/factory_budget_reservations.py:54-110 | replay, rejection and admission equal the specified step and keep the invariant |
| LedgerConnection.Connection.AdmitReservation | scripts/factory_budget_reservations.py:69-108 | reservation, prices, event and hold are inserted together or rolled back |
| LedgerConnection.Connection.Settle | scripts/factory_budget_settlement.py:36-138 | replay, late receipt, rejection and settlement equal the specified step and keep the invariant |
| LedgerConnection.Connection.SettleLiveReservation | scripts/factory_budget_settlement.py:71-127 | a receipt on a live reservation is rejected or settled as specified |
| LedgerConnection.Connection.RecordReceiptRejection | scripts/factory_budget_settlement_mutations.py:100-135 | a rejected receipt makes the reservation uncertain and records one event |
| LedgerConnection.Connection.MarkUncertain | scripts/factory_budget_uncertainty.py:40-126 | marking equals the specified step; a terminal reservation records nothing |
| LedgerConnection.Connection.Reconcile | scripts/factory_budget_reconciliation.py:76-169 | both reconciliations equal the specified step and keep the invariant |
| LedgerPreservation.ApplyPreserves | scripts/factory_budget_ledger_integrity.py:15-24 | every command, accepted or rejected, keeps the whole ledger invariant |
| LedgerPreservation.SettlePreserves | scripts/factory_budget_settlement.py:36-138 | settlement, rejection and late receipts keep the invariant |
| LedgerPreservation.ReconcilePreserves | scripts/factory_budget_reconciliation.py:76-169 | reconciliation keeps the invariant |
| LedgerPreservation.ReservePreserves | scripts/factory_budget_reservations.py:54-110 | admission keeps the invariant |
| LedgerRuns.Conservation | scripts/factory_budget_ledger_integrity.py:69-108 | after any commands every period's net, entry count and active hold equal the sums over its rows |
| LedgerRuns.NoOverspend | scripts/factory_budget_ledger_rules.py:83-104 | after any commands debits less credits, floored at zero, plus live holds stay within cap less reserve |
| LedgerRuns.RefundsNeverExceedTheirCharge | scripts/factory_budget_ledger_rules.py:42-80 | refunds of a charge over all periods never exceed it, and each names an earlier matching charge |
| LedgerRuns.EntriesLieInTheirMonth | scripts/factory_budget_settlement_mutations.py:33-48 | every entry lies in its period's UTC month, however late the settlement that posted it |
| LedgerRuns.ReservationLinks | scripts/factory_budget_reservation_integrity.py:126-181 | resolved amounts are within the hold and linked to one matching entry, no entry or session is used twice, histories end in the reservation's state |
| LedgerRuns.ResolvedIsFinal | scripts/factory_budget_settlement.py:59-69 | settled and reconciled reservations never change again |
| LedgerRuns.ApplyExtends | scripts/factory_budget_reservation_schema.py:60-92 | no command removes or rewrites entries, events, prices or authority columns |
| LedgerReplay.ReplayAtAnyLaterTime | scripts/factory_budget_settlement.py:46-57 | a command that created something, issued verbatim after any further commands, succeeds with created false and changes nothing |
| LedgerReplay.ConflictAtAnyLaterTime | scripts/factory_budget_reservation_replay.py:13-45 | another payload under a recorded key is rejected at every later time and changes nothing |
| LedgerReplay.CreatedIsRecorded | scripts/factory_budget_uncertainty.py:61-76 | whatever a command created is stored under its key with its exact payload |
| LedgerReplay.RejectionChangesNothing | scripts/factory_budget_settlement.py:128-138 | a rejected command leaves every table as it was |
| LedgerSettlement.SettlesExactlyWhen | scripts/factory_budget_settlement_validation.py:14-55 | a receipt settles a live reservation exactly when identity, session, envelope and positive usage hold, and then charges the priced cost within the hold |
| LedgerSettlement.SettlementFreesHeadroom | scripts/factory_budget_settlement_mutations.py:53-62 | a settlement moves exactly its cost from hold to spend, frees the rest of the hold, and touches no other period |
| LedgerReceipts.ReceiptEndsExactly | scripts/factory_budget_settlement_validation.py:14-55 | a first receipt on a live reservation leaves exactly the doubt that its job, lane, model, form, session, usage and envelope give it, or is charged, or is refused; with the whole new state of each |
| LedgerReceipts.LateReceiptIsNoted | scripts/factory_budget_settlement.py:59-79 | a new receipt on a closed reservation adds one event and nothing else |
| LedgerReceipts.UsedKeyReceipt | scripts/factory_budget_settlement.py:46-57 | a receipt under a used key is a replay exactly when it is that event's own |
| LedgerReceipts.ReceiptRefusedFor | scripts/factory_budget_settlement.py:36-58 | bad names, a missing reservation and a full event table, each exactly |
| LedgerAcceptance.PricedExactlyWhen | scripts/factory_budget_reservation_models.py:111-140 | a request is priced exactly when its names, counts and terms are good, each price observed by then and not expired, and the cost fits |
| LedgerAcceptance.TermRefusedFor | scripts/factory_budget_reservation_models.py:77-85 | the first bad term is refused for its identifier, its numbers, or as a price |
| LedgerAcceptance.ReservesExactlyWhen | scripts/factory_budget_reservations.py:54-110 | a reservation is added exactly when the request is good, its key and job are new, there is room, its month is open under its policy, and the worst case fits what the cap leaves above reserve, spending and live holds |
| LedgerAcceptance.ReservesInOrder | scripts/factory_budget_reservations.py:69-108 | a request in order is refused for its budget exactly when it does not fit, and otherwise writes exactly its row, prices, event and hold |
| LedgerAcceptance.ReserveRefusedFor | scripts/factory_budget_reservations.py:62-71 | a used job, a full table, a missing month and another policy, each exactly |
| LedgerAcceptance.RecordsExactlyWhen | scripts/factory_budget_ledger_entries.py:24-112 | an entry is added exactly when it is good, new, in an open month with room, and its money or its refund fits |
| LedgerAcceptance.RecordEndsExactly | scripts/factory_budget_ledger_rules.py:42-104 | a new good entry is refused for room, refund, budget or amount exactly, or writes exactly its row and balance |
| LedgerAcceptance.OpensExactlyWhen | scripts/factory_budget_ledger_periods.py:25-100 | a month is opened exactly when its configuration is good and new, with its reserve entry |
| LedgerAcceptance.EntrySummaryTells | scripts/factory_budget_ledger_entries.py:24-112 | the reply to an entry tells its month's sums over the rows as they then stand, and what is free |
| LedgerAcceptance.PeriodSummaryTells | scripts/factory_budget_ledger_periods.py:25-100 | the reply to an opened or replayed month tells the same of it |
| LedgerAcceptance.MarksExactlyWhen | scripts/factory_budget_uncertainty.py:40-126 | doubt is recorded exactly on a live reservation under a new key with room for the event |
| LedgerAcceptance.ClosesFreeExactlyWhen | scripts/factory_budget_reconciliation.py:76-169 | a reservation is reconciled without charge exactly while it is live, freeing its whole hold |
| LedgerAcceptance.ClosesChargedExactlyWhen | scripts/factory_budget_reconciliation.py:76-169 | a manual charge also needs an amount within the hold and a new entry, and is spent in the reservation's period |
| LedgerAcceptance.ReconcileRefusedFor | scripts/factory_budget_reconciliation.py:76-169 | a closed reservation and an amount beyond the hold, each exactly |
| LedgerIntegrity.ValidatesExactlyWhen | scripts/factory_budget_ledger_integrity.py:15-24 | a reachable ledger passes its validators exactly when no entry lies in a month's first second |
| LedgerIntegrity.StaysOpenExactlyWhen | scripts/factory_budget_ledger_storage.py:88-102 | an open ledger stays open after a command unless the ledger, as it stands before the command, would take its paid entry and that entry's time is in a first second |
| LedgerIntegrity.PostsEntryExactlyWhen | scripts/factory_budget_ledger_entries.py:24-112 | a command that carries a posting time adds an entry exactly when its guards hold of the ledger before it |
| LedgerIntegrity.ClosedForever | scripts/factory_budget_ledger_schema.py:147-178 | a ledger that fails validation refuses every command, and no commands could repair it |
| LedgerIntegrity.CarefulRunsStayOpen | scripts/factory_budget_ledger_integrity.py:165-206 | callers that avoid every first second always find the ledger open |
| LedgerIntegrity.MidnightDebitClosesTheLedger | scripts/factory_budget_ledger_integrity.py:99-104 | two accepted commands after which the ledger cannot be opened |
| LedgerTampering.ChangedPeriodIsRefused | scripts/factory_budget_ledger_integrity.py:69-108 | a month whose bound, reserve, balance, hold or count is not what it was keeps the ledger from opening |
| LedgerTampering.ChangedAmountIsRefused | scripts/factory_budget_ledger_integrity.py:69-108 | an entry whose amount is not what it was keeps the ledger from opening |
| LedgerTampering.ChangedHoldIsRefused | scripts/factory_budget_reservation_integrity.py:105-124 | a live hold that is not what it was keeps the ledger from opening |
| LedgerTampering.ChangedStateIsRefused | scripts/factory_budget_reservation_integrity.py:126-181 | a reservation in a state its history does not end in keeps the ledger from opening |
| LedgerTampering.ChangedPriceIsRefused | scripts/factory_budget_reservation_integrity.py:184-249 | a price term that is not what it was keeps the ledger from opening |
| LedgerPricingStream.ScanBatch | scripts/factory_budget_reservation_integrity.py:198-223 | one fetched batch either carries the scan state on or exposes a wrong group or window |
| LedgerPricingStream.StreamPricing | scripts/factory_budget_reservation_integrity.py:184-223 | for every batch size the one-pass cursor accepts exactly when every group's digest and every window is right |
| LedgerPricingStream.GroupsAreLists | scripts/factory_budget_reservation_integrity.py:185-194 | over the ordered join the grouped check is the check of each reservation's own price list |
| LedgerPricingStream.ValidatePricing | scripts/factory_budget_reservation_integrity.py:184-249 | on the stored tables the streamed validator is the pricing query of the integrity check |
| OrchestrationGates.RunGateCommands | scripts/factory_orchestration_gates.py:67-126 | all gates pass exactly when every turn does; an error's results are the earlier passed gates and at most one more |
| OrchestrationGates.PassesExactlyWhen | scripts/factory_orchestration_gates.py:139-153 | a gate passes exactly on exit code zero with no cancellation, excess or timeout, recorded as such |
| OrchestrationGates.UnrecordableExactlyWhen | scripts/factory_orchestration_models.py:146-160 | exactly the gates stopped or cut off with exit code zero have no valid record |
| OrchestrationGates.StopsFor | scripts/factory_orchestration_gates.py:77-153 | which code a stopped gate gives, in the order cancelled, cut off, timed out, failed, and what is recorded of its process |
| OrchestrationJournal.Journal.PrepareRequest | scripts/factory_orchestration_journal.py:51-102 | in-place prepare leaves exactly the specified rows and result |
| OrchestrationJournal.Journal.ReadTerminalReceipt | scripts/factory_orchestration_journal.py:104-122 | reading changes nothing and gives the specified result |
| OrchestrationJournal.Journal.ApplyTransition | scripts/factory_orchestration_journal.py:124-173 | the compare-and-set leaves exactly the specified rows and result |
| OrchestrationJournal.PrepareKeeps | scripts/factory_orchestration_journal.py:73-98 | prepare keeps ids unique, records valid and active rows disjoint in issue and worktree |
| OrchestrationJournal.TransitionKeepsExactlyWhen | scripts/factory_orchestration_journal.py:133-140 | a successful move keeps the table sound exactly when its reason and receipt fit its target |
| OrchestrationJournal.AdmittedExactlyWhen | scripts/factory_orchestration_journal.py:73-98 | a request is inserted exactly when its id is new and no active row shares its issue or worktree |
| OrchestrationJournal.ReentryInterrupts | scripts/factory_orchestration_journal.py:63-70 | prepare on a request in flight turns its row uncertain and raises |
| OrchestrationJournal.ReceiptIsReturned | scripts/factory_orchestration_journal.py:104-122 | a terminal row's own request reads back its receipt and changes nothing |
| OrchestrationJournal.RefusedExactlyWhen | scripts/factory_orchestration_journal.py:51-122 | each refusal of prepare and of the receipt read, exactly by the rows of the id, the request, the issue and the worktree |
| OrchestrationJournal.MovesExactlyWhen | scripts/factory_orchestration_journal.py:124-173 | a move succeeds exactly on the request's own row in the expected life cycle, one step on or to an end, with a fitting receipt |
| OrchestrationSafety.StepKeeps | scripts/factory_orchestration_service.py:86-234 | every step of every process keeps the protocol invariant: one owner per request, each owner's log equal to its path |
| OrchestrationSafety.PatchStartsAtMostOnce | scripts/factory_orchestration_service.py:121-123 | over any processes, interleaving and crashes a request id's patch is started at most once |
| OrchestrationSafety.ActiveRowsAreDisjoint | scripts/factory_orchestration_journal.py:23-29 | in every reachable journal no two active rows share an issue or a worktree |
| OrchestrationSafety.AcceptanceIsTheWholePath | scripts/factory_orchestration_service.py:121-234 | an accepted row's log is its insertion and then one process's whole path, no re-entry, authority rechecked, every gate passed in order, integrity after each |
| OrchestrationSafety.StoredReceiptsAreValid | scripts/factory_orchestration_models.py:199-214 | every receipt in a reachable journal is one the receipt model accepts |
| OrchestrationSafety.ReceiptIsFinal | scripts/factory_orchestration_journal.py:104-122 | once a receipt is stored every later prepare or read returns it |
| OrchestrationSafety.UncertainIsAbsorbing | scripts/factory_orchestration_journal.py:60-62 | an uncertain row never changes and every later prepare raises |
| OrchestrationSafety.RunForward | scripts/factory_orchestration_journal.py:24-29 | rows are never dropped and never return to prepared |
| OrchestrationWitness.AcceptanceIsReachable | scripts/factory_orchestration_service.py:79-234 | an undisturbed documentation request reaches accepted |
| OrchestrationOutcomes.PatchErrorEndsExactly | scripts/factory_orchestration_service.py:122-151 | from any reachable state a failed patch leaves its row uncertain and raises exactly when interrupted, cancelled exactly when cancelled, and otherwise failed for the listed reason |
| OrchestrationOutcomes.NoTurnsUncertain | scripts/factory_orchestration_service.py:154-163 | a failed worktree, a changed main checkout, a lost authority or a lost integrity turns the row uncertain and raises |
| OrchestrationOutcomes.StoppedBeforePatch | scripts/factory_orchestration_service.py:102-120 | a cancellation before the patch closes the row without starting it; a denied authority leaves it prepared |
| OrchestrationOutcomes.StartsOnARow | scripts/factory_orchestration_service.py:60-90 | a call on an existing row returns its receipt, takes it up, or turns it uncertain, by its life cycle |
| OrchestrationOutcomes.AcceptedGates | scripts/factory_orchestration_gates.py:32-64 | only the two documentation lanes are ever accepted, each with exactly its own gates passed |
| OrchestrationStranding.FailingGateStrandsExactlyWhen | scripts/factory_orchestration_service.py:169-207 | from any reachable state a gate that does not pass leaves its row in gating and raises exactly when it was stopped with exit code zero; otherwise the undisturbed process records failed or cancelled with the stop code and the results so far |
| OrchestrationStranding.StrandedForever | scripts/factory_orchestration_service.py:169-207 | no later steps of any processes finish a row left in gating: it stays, or turns uncertain |
| OrchestrationStranding.StrandingIsReachable | scripts/factory_orchestration_gates.py:67-126 | a run from the empty journal leaves a documentation request in gating with no outcome |
| PolicyModules.BuildIndex | scripts/factory_policy_import_closure.py:207-214 | the index maps every module name to its only path, or two paths clash or one has no name |
| PolicyModules.OneDot | scripts/factory_policy_import_closure.py:194-196 | one dot names an initialiser's own package and any other file's directory |
| PolicyModules.OneMoreDot | scripts/factory_policy_import_closure.py:197-201 | one more dot names the same package without its last component |
| PolicyModules.NamedBehindDots | scripts/factory_policy_import_closure.py:202-204 | a name behind the dots is a child of the package the dots name |
| PolicyModules.TargetsIndexed | scripts/factory_policy_import_closure.py:167-188 | import statements lead only to indexed files |
| PolicyTargets.FromImportTargets | scripts/factory_policy_import_closure.py:167-188 | a from-import leads exactly to the base's file and every imported name's file, and is missing exactly when there is none |
| PolicyTargets.ImportStatementTargets | scripts/factory_policy_import_closure.py:115-126 | an import leads exactly to the files of its own modules, and is missing exactly when one has no file |
| PolicyTargets.ExecutionIsOwnPackages | scripts/factory_policy_import_closure.py:140-164 | loading a file runs exactly the indexed initialisers of its own packages, outermost first, and then the file |
| PolicyTargets.PackageNamesAre | scripts/factory_policy_import_closure.py:217-226 | an initialiser's module name is its package |
| PolicyTargets.ModuleNamesAre | scripts/factory_policy_import_closure.py:217-226 | any other file's module name is its package and its stem |
| PolicyTargets.OwnModules | scripts/factory_policy_import_closure.py:239-242 | a module is internal exactly when its first component is one of the two packages |
| PolicyTargets.OwnFiles | scripts/factory_policy_import_closure.py:245-246 | a path is internal exactly when it lies below one of the two directories |
| PolicyClosure.EnqueueModule | scripts/factory_policy_import_closure.py:140-151 | a file and its package initialisers are stacked in execution order, or the depth limit is passed |
| PolicyClosure.ScanNode | scripts/factory_policy_import_closure.py:115-136 | one statement adds exactly the executions of its targets, or reports its own fault or depth |
| PolicyClosure.ClosureIsLeast | scripts/factory_policy_import_closure.py:76-137 | the import closure is closed under imports and initialisers and is the least such set |
| PolicyWalk.WalkClosure | scripts/factory_policy_import_closure.py:76-137 | success lists exactly the closure within every limit; every error states a fact of the closure |
| PolicyWalk.PolicyImportClosure | scripts/factory_policy_import_closure.py:30-39 | the same, with the module index of the given sources |
| PolicyWalk.RootOrderIsIrrelevant | scripts/factory_policy_import_closure.py:86-87 | successful searches from the same roots in any order give the same listing |
| PolicyWalk.FittingTreesSucceed | scripts/factory_policy_import_closure.py:91-110 | a clean closure within every limit with no over-deep chain always succeeds |
| IssueScopes.SeparateScopesAreDisjoint | scripts/factory_issue_selector_parser.py:109-126 | any two scopes found apart have normal forms that share no path |
| IssueScopes.CanonicalScopesAreSound | scripts/factory_orchestration_git.py:258-259 | canonical scope lists pairwise apart let no common path through at apply time |
| IssueScopes.FileFamilyMatches | scripts/factory_orchestration_git.py:258-259 | a one-star scope passes exactly the paths with its prefix and its suffix |
| IssueScopes.RecursiveMatches | scripts/factory_orchestration_git.py:258-259 | a two-star scope passes exactly the paths with its prefix |
| IssueScopes.OddScopesShareAPath | scripts/factory_issue_selector_parser.py:96-126 | a family of non-canonical scopes found apart while one path passes both |
| IssueScopeSpelling.BodySplits | scripts/factory_issue_selector_parser.py:96-106 | behind its backticks and white space a scope in repository spelling is a dropped `./`, its normal form and an end without stars |
| IssueScopeSpelling.ApartScopesShareAPathExactlyWhen | scripts/factory_issue_selector_parser.py:109-126 | two scopes the request model admits, found apart, share a path at apply time exactly when one masks the other |
| IssueScopeSpelling.RequestsShareAPathExactlyWhen | scripts/factory_orchestration_models.py:115-125 | two requests whose scopes are found apart let one path through exactly when some pair of their scopes is masked |
| IssueScopeSpelling.RepoScopesAreSound | scripts/factory_orchestration_git.py:258-259 | unless a scope on each side begins with a backtick, scopes found apart let no common path through |
| IssueScopeOverlap.OverlapExactlyWhen | scripts/factory_issue_selector_parser.py:109-126 | two scopes without stars overlap exactly when some place lies under both; with a star exactly when some text begins with both fronts; without a normal form always |
| IssueScopeOverlap.CanonicalExactlyWhen | scripts/factory_issue_selector_parser.py:96-106 | a scope is its own normal form exactly when it is a proper path with its stars in place and no other marks |
| IssueScopeOverlap.StarsAllowedExactlyWhen | scripts/factory_issue_selector_parser.py:100-105 | the count of stars is accepted exactly for no star, one in the last component, or a final recursive component |
| IssueScopeOverlap.RepoSpelledExactlyWhen | scripts/factory_control_plane_policy.py:162-178 | the request model admits exactly the trimmed, relative, visible paths with named components |
| IssueScopeOverlap.QuotedScope | scripts/factory_issue_selector_parser.py:96-97 | white space and backticks around a scope do not count |
| IssueSelection.SelectIssue | scripts/factory_issue_selector_core.py:64-105 | the selected issue is eligible and least by bucket, priority and number; every reason and warning of every issue is reported in order and no other; a blocked selection names the first failing check |
| IssueSelection.EligibleExactlyWhen | scripts/factory_issue_selector_core.py:108-168 | an issue has no rejection reason exactly when it meets every condition |
| IssueSelection.SortByOrders | scripts/factory_issue_selector_core.py:96-97 | sorting by key orders and permutes |
| IssueSelection.SelectionIsApart | scripts/factory_issue_selector_core.py:154-162 | a selected issue shares no writable path with an occupied scope |
| IssueSelectionMeaning.ReasonsAreComplaints | scripts/factory_issue_selector_core.py:108-168 | each of the fifteen reasons is reported exactly when the issue's own fields give it |
| IssueSelectionMeaning.SelectedIsPreferred | scripts/factory_issue_selector_core.py:189-210 | no eligible issue is preferred to the selected one by class, priority and number, and the selection repeats its issue's labels and scopes |
| IssueSelectionMeaning.FreshExactlyWhen | scripts/factory_issue_selector_models.py:62-74 | a snapshot is fresh exactly when it is complete and was valid at the instant |
| ArchiveStore.MetadataIsTheCommitPoint | scripts/factory_metrics_archive_destination.py:35-84 | over runs killed anywhere, metadata present means the ledgers are exactly its manifest, and no later run changes them |
| ArchiveStore.StepKeeps | scripts/factory_metrics_archive_destination.py:178-205 | every file operation keeps the archive invariant |
| ArchiveStore.CrashLeavesATemporary | scripts/factory_metrics_archive_destination.py:185-189 | a run killed while holding a temporary file leaves it |
| ArchiveStore.LeftoverStopsEveryRun | scripts/factory_metrics_archive_provenance.py:178-181 | a leftover temporary makes every later run raise and freezes the disk |
| ArchiveStore.FinishesExactlyWhen | scripts/factory_metrics_archive_destination.py:52-69 | a started run can end in success exactly when its opening check does not refuse |
| ArchiveStore.KilledRunCanBeRetriedExactlyWhen | scripts/factory_metrics_archive_destination.py:35-84 | a run killed past its opening check can be retried to success by the same request exactly when it held no temporary file |
| ArchiveStore.OnlyAKillLeavesATemporary | scripts/factory_metrics_archive_destination.py:178-205 | a run that raises or succeeds has removed its temporary |
| ArchiveStore.AdmitsExactlyWhen | scripts/factory_metrics_archive_destination.py:35-84 | on any disk a run finds its archive in place exactly when it is byte for byte what it would write, and starts exactly when only its own ledgers lie there |
| ArchiveStore.ArchiveDirectory.AtomicReplaceRegular | scripts/factory_metrics_archive_destination.py:178-205 | writing in pieces of any size and renaming leaves exactly the payload under the name |
| ArchiveStore.ArchiveDirectory.CopyArchive | scripts/factory_metrics_archive_destination.py:35-84 | an unhindered run writes every ledger and then the metadata, or changes nothing |
| JobQueue.StepKeeps | scripts/ai_jobs.py:857-1073 | every file operation of every process keeps the queue invariant |
| JobQueue.SubmittedJobsStayPresent | scripts/ai_jobs.py:1037-1039 | a submitted name is always queued, running, completed or failed |
| JobQueue.EachPlacementIsClaimedOnce | scripts/ai_jobs.py:1060-1073 | placements of a name equal its claims plus the one still waiting |
| JobQueue.ClaimsAreExclusive | scripts/ai_jobs.py:1325-1345 | no two processes hold a claim on one job |
| JobQueue.TerminalFilesRemain | scripts/ai_jobs.py:1487-1488 | completed and failed names never disappear |
| JobQueueTerminals.GuardedJobsEndOnce | scripts/ai_jobs.py:1348-1381 | over all runs from the empty queue, a job whose takeovers are all guarded is never in both terminal directories |
| JobQueueTerminals.TakeoverIsSafeExactlyWhen | scripts/ai_jobs.py:1348-1381 | after any guarded run, the next takeover can lead to both directories without a further takeover exactly when it is not guarded |
| JobQueueTerminals.FinishedJobsCanAlsoFail | scripts/ai_jobs.py:1037-1039 | four runs from the empty queue that leave a job completed and failed |
| JobQueueOutcomes.WorkersAreLeftUntilOverdue | scripts/ai_jobs.py:1441-1454 | whatever other processes do meanwhile, a working job is first taken over exactly when it has no timeout or has passed it by more than a minute |
| JobQueueOutcomes.RecoveryEndsExactly | scripts/ai_jobs.py:1366-1381 | a listed file is left alone until overdue and then ended in the directory and with the status its own fields and the paid ledger give |
| JobQueueOutcomes.RecoveryOfNothing | scripts/ai_jobs.py:1355-1366 | a listed file that is gone or unreadable is failed as corrupt |
| JobQueueOutcomes.OwnerEndsJob | scripts/ai_jobs.py:931-1039 | a claimed job is dated, counted and ended by its worker's answer |
| JobQueueOutcomes.OwnerGivesUp | scripts/ai_jobs.py:893-929 | a blocked job goes back unchanged and a broken one fails as corrupt |
| JobQueueOutcomes.ClaimsTheFirst | scripts/ai_jobs.py:1060-1073 | a process claims the first waiting name and moves its file unchanged |
| Utf8.DecodeEncode | scripts/bounded_process.py:191 | decoding encoded text gives it back, however errors are handled |
| Utf8.DecodeCut | scripts/bounded_process.py:197 | text cut at any byte decodes to its whole characters and one error for the rest |
| BoundedCapture.Drain | scripts/bounded_process.py:93-160 | for every interleaving each stream and its consumer hold exactly the first bytes up to the limit, the flag is set exactly beyond it, stdin is written exactly as far as the pipe took it, and the loop fails exactly when a chunk reaches a consumer that raises |
| BoundedCapture.ReportFits | scripts/bounded_process.py:190-198 | the report encodes to at most the limit and is flagged exactly when it was cut |
| BoundedCapture.CutReport | scripts/bounded_process.py:197-198 | a cut report is the longest whole-character front that leaves room for the marker |
| BoundedCapture.SmallReport | scripts/bounded_process.py:194-196 | under a limit too small for more, a cut report is as much of the marker as fits |
| BoundedCapture.ReportedText | scripts/bounded_process.py:163-176 | text written to a stream is reported whole, or as its longest whole-character front and the marker |

## Left out

- SQLite, file locks, file identity and permission checks, schema migration: each command or journal call is one atomic step.
- SHA-256 and canonical JSON: a digest is represented by the value it is computed from; public ids are likewise taken to be injective.
- Quota holds and authorisations, the scheduler and provider registry: calls into them do not touch the modelled state.
- Git, GitHub, workers, the clock and subprocesses: nondeterministic answers that select a path.
- Malformed stored timestamps and naive datetimes in the ledger: instants are typed, so the validators' parse failures do not arise; price terms with naive times are excluded by the same types.
- Receipt counts of files and lines, gate timestamps and output hashes: carried by the receipts without affecting any transition.
- Plan-only orchestration: it writes no journal row.
- Orchestration.Advance: `orchestrate` is a step function per process rather than one method, because its journal calls interleave with other processes.
- OrchestrationJournal.TransitionKeepsExactlyWhen: row timestamps, and clocks that run backwards between two writes, are not modelled.
- PolicyModules.BuildIndex: which of two index errors is raised depends on set order and is left open.
- PolicyWalk.FittingTreesSucceed: a chain past the depth limit may or may not be met first by the walk, so the depth error is shown to imply such a chain and not the converse. Root order can decide it: with 34 files that import one another in turn, the roots first-then-middle pass the limit, and middle-then-first do not.
- Issue body parsing, labels and evidence parsing: a parsed issue is an input.
- Archive entry, depth and byte limits, and unexpected directory entries other than temporaries.
- JobQueue.EachPlacementIsClaimedOnce: job ids are taken to be fresh; quarantine and requeue are not part of this model.
- BoundedCapture.Drain: timeouts, cancellation and process-group kills end the event list and are not modelled further.
- Command-line interfaces, readiness scorecards, documentation audits and rendering.
