# Verification of the durable core

This project models the parts of the service whose mistakes would cost data or money, and
proves what they keep:

- the crash-safe artifact store: writers, deletions, readers, power loss and any number of
  reconciliation passes interleaved over metadata rows and files;
- exact billing: 128-bit charges in checked arithmetic, and reservations under budgets while
  many reserve transactions, settlements and releases run at once;
- fenced durable jobs: any number of workers with expiring leases, dispatch marks, cancellation
  and deletion;
- one model call from admission to accounting, with the observer on its streamed answer;
- the two admission gates, one per pool and one for requests and their body bytes;
- chunking, Markdown parsing and joining of search hits;
- the renaming of upstream ids through the binding table, out and back.

`dafny verify dfyconfig.toml` checks everything.

## How it is laid out

Protocols in which several parties interleave are state machines: `Enabled` and `Next` say what
each transaction, file operation or critical section does, and results are proved for every run.
Code that works step by step on its own state is a class or a method with loops, proved against
those functions: `ReconcilePass.Store`, `JobWorker`, `AdmissionPool.Gate`,
`RequestGate.InferenceGate`, `UsageStream.AccountingStream`, `ExecuteLifecycle.Attempt`,
`ResponseBindings.ResponseRewriter`, `Charge.Big128`, and the parsing, chunking and merging loops.
What an operation does is also stated without those functions, in terms of what was handed in and
what its callers see: `ArtifactContent`, `ArtifactLives`, `ArtifactPasses`, `BudgetAccounts`,
`CivilDate`, `JobEndings`, `AdmissionSteps` and `GateSteps` hold such results.

| area | files |
|---|---|
| artifacts | `ArtifactRows`, `ArtifactMachine`, `ArtifactSafety`, `ArtifactContent`, `ArtifactLives`, `ArtifactLeases`, `ArtifactHazards`, `ReconcilePass`, `ArtifactPasses` |
| billing | `FixedWidth`, `ExactDivision`, `Charge`, `UsageUnits`, `Calendar`, `CivilDate`, `BudgetLedger`, `BudgetSafety`, `BudgetAccounts`, `BillingAdmission` |
| jobs | `JobQueue`, `JobSafety`, `JobEndings`, `JobWorker`, `RetryBackoff` |
| one model call | `UsageReport`, `LineSplits`, `UsageStream`, `ExecuteLifecycle` |
| gates | `WaitLine`, `AdmissionQueue`, `AdmissionQuota`, `AdmissionSteps`, `AdmissionPool`, `GateQueue`, `GateSteps`, `RequestGate` |
| documents | `Whitespace`, `ChunkSizes`, `ChunkWindows`, `MarkdownBlocks`, `StructuredChunks`, `SectionMerge`, `SectionRuns` |
| response ids | `JsonTree`, `ResponseBindings` |
| shared | `Results`, `MapSums` |

## Where the code does not do what it is meant to

Each of these keeps the code as it is; the lemma named shows the case or the exact condition.

- **Artifacts.** The store is safe under four assumptions, stated as `ArtifactMachine.Assumption`,
  and `ArtifactHazards.EachAssumptionIsNeeded` gives for each one a run that loses the bytes of a
  final row when only that one is broken. A lease that ends at the very instant a pass starts is
  not listed as expired (strictly before) and not kept as live (strictly after): the pass removes
  the writer's file and leaves its row writing. A pass whose fencing of a row failed still removes
  that row's file in its traversal (`ReconcilePass.WriterLosesItsBytesIff` gives the exact case for
  one pass). Whatever else goes wrong, no pass touches the bytes of a writer whose lease ends after
  the pass began (`ArtifactLeases.LiveWriterKeepsItsBytes`, for every run). A row inserted after its own lease ran
  out is missed by a pass already past fencing. A commit that was applied but reported as failed makes the writer remove
  its own final bytes; if its tombstoning fails too, the row stays final without them.
- **Billing.** The comment on `liabilityFrom` speaks of the earlier of two starts; the code takes
  the later. Settled usage counts only for the tenant and the charged subject, so for any other
  subject a settlement makes the liability vanish (`BudgetSafety.SettlementIsSeenIff`). Holds
  taken before a budget is in force are never admitted against it: it may be over its limit by
  just what those hold or charged (`BudgetSafety.LiabilityIsBounded`), and stays within it in every
  run exactly when no reserve can begin before its start (`BudgetSafety.AlwaysWithinLimitIff`).
  A reservation charged to a tenant subject that names another tenant gets no canonical row and can never be settled or released
  (`BillingAdmission.CanonicalRowIff`). An advertised unit called `input`, `output` or
  `cached_input` displaces the field of that name (`UsageUnits.EveryUnitBilledIff`), and in an
  estimate it may leave a report within the estimate above the reserved bound
  (`UsageUnits.EstimateCoversIff`).
- **Jobs.** The attempt counter is raised when a job is granted, and `Fail` adds one again, so a
  job is retried once less than its maximum suggests (`JobSafety.RetriedIff`). The delay is
  base * 2^n, and its 30 second limit is looked at only after a doubling
  (`RetryBackoff.RetryDelay`). Releasing a dispatched claim would repeat the dispatch; only the
  guard in `translate` prevents it (`JobSafety.ReleaseAfterDispatchRepeats`).
- **Admission.** Giving a permit back never lowers the tenant's counter, so the counter is right
  exactly until the first release (`AdmissionQueue.TenantCounterIff`), and a tenant with a limit is
  refused for good exactly once the permits it holds and those it gave back fill that limit
  (`AdmissionQuota.RefusedForGoodIff`). In the request gate a wrapped body that is never
  closed keeps its bytes for as long as the gate runs
  (`GateQueue.UnclosedBodyKeepsItsBytes`, `GateQueue.UnclosedBodyShutsOut`).
- **Streams.** Beyond one mebibyte the way a line is split into reads decides what is seen
  (`UsageStream.OverlongLineShowsTheSplit`). A definitive error status settles on a plain call but
  only leaves unknown liability on a streaming one (`ExecuteLifecycle.Attempt.Execute`).
- **Documents.** Header paths name true ancestors exactly when no heading skips a level
  (`StructuredChunks.PathsAreAncestryIff`). With an overlap above half the size a plain-text
  window may add nothing (`ChunkWindows.RepeatsItsEndIff`). Joined search results may still adjoin
  each other (`SectionMerge.AdjoiningResultsMayRemain`): they do exactly when the first
  pass lists a section of a run already begun before any section it adjoins
  (`SectionRuns.ResultsStayApartIff`).
- **Response ids.** The walk skips the value of an `id` field that is no text, so upstream ids
  nested in one come out unchanged (`ResponseBindings.ExposesOnlyStoredIff`,
  `ResponseBindings.CompositeIdLeaks`). A stored row is reused whoever owns it, and remembered
  public ids are looked up by upstream id alone, across the responses of one stream
  (`ResponseBindings.ResponseRewriter.PublicFor`).

## Model

| member | source | states |
|---|---|---|
| `ArtifactSafety.FinalArtifactsStayIntact` | internal/artifacts/store.go:262-328 | In every state any sound run reaches, with writers, deletions, passes, crashes and power loss interleaved, a final row has its file on stable storage with exactly the recorded hash and size |
| `ArtifactContent.FinalRowsRecordWhatWasWritten` | internal/artifacts/store.go:239-328 | In every run, whatever fails, a final row records the digest and the size of exactly the chunks handed to its writer, in order, within the limit and under the digest it was begun with |
| `ArtifactContent.FinalFilesAreWhatWasWritten` | internal/artifacts/store.go:239-328 | So after every sound run the file of a final row is what was written, byte for byte, on stable storage |
| `ArtifactLives.UploadSucceeds` | internal/artifacts/store.go:164-328 | An undisturbed upload within its limit and under its declared digest ends final with its bytes in place, leaves no part file, and changes nothing else |
| `ArtifactLives.GivesUpIff` | internal/artifacts/store.go:239-284 | A writer gives up exactly at a chunk that crosses the limit, a declared digest that does not match, or a lease it no longer owns; nothing of the chunk is kept |
| `ArtifactLives.AbortCleansUp` | internal/artifacts/store.go:346-355 | An abort whose steps succeed leaves no file, no writer, and the row tombstoned as aborted unless it already was |
| `ArtifactLives.DeleteCleansUp` | internal/artifacts/store.go:386-402 | A deletion tombstones the row before it touches a file, and leaves neither file if its removals succeed |
| `ArtifactSafety.LiveBytesAreLeftAlone` | internal/artifacts/reconcile.go:36-154 | After any sound run no step of a pass, a deletion or another writer touches the durable bytes of a final row or of a row still writing |
| `ArtifactLeases.LiveWriterKeepsItsBytes` | internal/artifacts/reconcile.go:101-112 | In every run, failed fencings, lease ties, late inserts and applied failures included, no deletion, no other writer and no pass at whose start the lease was live touches the durable bytes of a writing row |
| `ArtifactSafety.ReadServesRecordedBytes` | internal/artifacts/store.go:361-384 | A read past its row lookup finds nothing, or exactly the bytes the row recorded, whatever happened in between |
| `ArtifactSafety.RowsNeverMoveBack` | internal/store/postgres/artifact_repo.go:70-172 | In every run, whatever the timing, rows never disappear or move back: a fenced or deleted row is never final again and a tombstone keeps its first reason |
| `ArtifactSafety.StepKeepsInv` | internal/artifacts/reconcile.go:36-154 | Every single step of every party keeps the invariant that ties rows, files, writers, passes, deletions and readers together |
| `ArtifactSafety.WriterStepOwn` | internal/artifacts/store.go:239-358 | A writer's write, verify, flush, rename, commit, undo and abort steps keep its part file, its renamed file and its row what it holds, if a failing commit was not applied |
| `ArtifactSafety.PassStepKeepsPass` | internal/artifacts/reconcile.go:40-112 | A pass keeps to its list: past fencing, no row it could meet as expired is still writing |
| `ArtifactHazards.LeaseEndingAtPassStartLosesBytes` | internal/artifacts/reconcile.go:107-111 | A run in which only the lease tie occurs ends with a final row whose bytes are gone, after its writer is done |
| `ArtifactHazards.FailedFencingLosesBytes` | internal/artifacts/reconcile.go:48-53 | The same when only one InvalidateWriting fails |
| `ArtifactHazards.LateInsertLosesBytes` | internal/artifacts/store.go:164-237 | The same when only a row is inserted after its own lease ended |
| `ArtifactHazards.AppliedFailureLosesBytes` | internal/artifacts/store.go:311-358 | The same when only a commit is applied but reported as failed, and the tombstoning that ends the abort fails as well |
| `ArtifactHazards.EachAssumptionIsNeeded` | internal/artifacts/reconcile.go:20-35 | None of the four assumptions can be dropped |
| `ReconcilePass.Store.RemoveFile` | internal/artifacts/reconcile.go:188-192 | A file that is not there is no failure; one that cannot be removed stays and is reported |
| `ReconcilePass.Store.FenceOne` | internal/artifacts/reconcile.go:48-57 | Bytes and part file are reaped only after the row was fenced; a failed fencing changes nothing and is reported, and so is a file that cannot be removed |
| `ReconcilePass.Store.FenceExpired` | internal/artifacts/reconcile.go:43-58 | Phase (a): exactly which rows, files and part files are gone, and when it reports success |
| `ReconcilePass.Store.SweepTree` | internal/artifacts/reconcile.go:63-117 | Phase (b): exactly the files of final rows and live writers, unremovable files, and files not reached or whose row lookup failed stay |
| `ReconcilePass.Store.RepairRows` | internal/artifacts/reconcile.go:120-151 | Phase (c): files of tombstoned rows go, and final rows are tombstoned exactly when their file is known to be missing and the update succeeds |
| `ReconcilePass.Store.Reconcile` | internal/artifacts/reconcile.go:36-154 | A whole pass over any store with any failing fencings, visits, removals, stats and updates: its exact effect, and success exactly when nothing that mattered failed |
| `ReconcilePass.FinalBytesSurvive` | internal/artifacts/reconcile.go:105-106 | A final row with its bytes keeps both, whatever fails in the pass |
| `ReconcilePass.AllWritersReapedIff` | internal/artifacts/reconcile.go:43-58 | Whatever fails, after a pass no row is writing exactly when every lease ended strictly before it began and every such row could be fenced |
| `ReconcilePass.PassConverges` | internal/artifacts/reconcile.go:20-35 | A clean pass without live writers leaves exactly the files of the final rows, and every final row has its file |
| `ReconcilePass.SecondPassChangesNothing` | internal/artifacts/reconcile.go:36-154 | A second pass at any time, under any failures of its own, then changes nothing |
| `ReconcilePass.WriterKeepsItsBytesIff` | internal/artifacts/reconcile.go:40-112 | Whatever fails, the exact cases in which a pass keeps the file of a writing row, and in which the row stays writing |
| `ReconcilePass.WriterLosesItsBytesIff` | internal/artifacts/reconcile.go:48-112 | A pass takes the bytes of a row it leaves writing exactly when the lease ends at its very start, or had ended and could not be fenced, and the file was reached and removable |
| `ArtifactPasses.PassIsSequential` | internal/artifacts/reconcile.go:36-154 | From any store, with any of these faults, the pass of the interleaved machine run undisturbed leaves exactly the rows, durable files and part files of the sequential pass |
| `ExactDivision.Div128` | internal/billing/service.go:550-573 | hi * 2^64 + lo = quo * q + rem with rem < q, for every 0 < q < 2^63 |
| `ExactDivision.DivideBit` | internal/billing/service.go:554-571 | One of the 128 turns keeps the quotient of the bits read so far in the two words, and the remainder below q |
| `ExactDivision.ReadBit` | internal/billing/service.go:555-560 | The remainder shifted in 64 bits never loses its top bit |
| `FixedWidth.Add64` | internal/billing/service.go:520-548 | Sum and carry are the exact sum |
| `FixedWidth.Mul64` | internal/billing/service.go:520-548 | The two words are the exact product |
| `Charge.Big128.AddRatMul` | internal/billing/service.go:520-548 | Adds a * b / q rounded once, exactly, and flags overflow exactly when the sum leaves int64 |
| `Charge.Big128.I64` | internal/billing/service.go:575-580 | The accumulated amount, clamped |
| `Charge.QuotientIsTerm` | internal/billing/service.go:520-548 | Rounding up the long division gives the least whole amount not below a * b / q, with room for the carry |
| `Charge.BuildRates` | internal/billing/service.go:388-393 | The last rate listed for a kind is the one in force |
| `Charge.ChargeUnits` | internal/billing/service.go:388-414 | Exactly the sum over kinds of the rounded terms, overflow exactly when it exceeds 2^63 - 1, independent of the order of kinds, and which kind is refused for want of a valid rate |
| `Charge.TotalMonotone` | internal/billing/service.go:385-414 | More units of no fewer kinds never cost less |
| `Charge.KindCostsItsRate` | internal/billing/service.go:388-414 | Under the last rate listed for it, a kind costs units times rate over quantity, rounded once to the next micro up, or down under the other rule |
| `Charge.KindsAdd` | internal/billing/service.go:388-414 | Every kind is charged exactly once, and nothing costs nothing |
| `Charge.RateInForce` | internal/billing/service.go:389-392 | The rate in force for a kind is the last one listed |
| `UsageUnits.UnitMap` | internal/billing/service.go:313-341 | Succeeds exactly on well-formed usage, and flattens it to one positive count per kind |
| `UsageUnits.UnitsByName` | internal/billing/service.go:313-341 | What is billed under each name: a positive further count of that name, or else the field of that name |
| `UsageUnits.EveryUnitBilledIff` | internal/billing/service.go:313-341 | The flattened counts add up to everything reported exactly when no positive further kind bears the name of a positive named field |
| `UsageUnits.FlattenedTotal` | internal/billing/service.go:313-341 | Every reported unit is counted once, less exactly the displaced fields |
| `UsageUnits.EstimateCoversIff` | internal/inference/service.go:180-187 | The estimate as Execute raises it covers every report within its input total, output and further kinds, unit kind by unit kind, exactly when no further kind bearing a named field's name understates it |
| `UsageUnits.SettlesWithinBound` | internal/inference/service.go:180-187 | A report within such an estimate is priced in full, costs at most the reserved bound, and can be charged if the bound could |
| `Calendar.WindowHoldsNow` | internal/billing/service.go:426-443 | For every instant since the zero time and every period, a window holds its instant, begins at midnight, a week on a Monday less than seven days ago |
| `Calendar.WindowsAdvance` | internal/billing/service.go:426-443 | Window starts never move back as time goes on |
| `CivilDate.MonthStartsOnDayOne` | internal/billing/service.go:435-436 | A monthly window begins at midnight of day 1 of the year and month of its instant, in the Gregorian calendar counted day by day |
| `CivilDate.SameMonthIff` | internal/billing/service.go:435-436 | Two instants share a monthly window exactly when their year and month agree |
| `CivilDate.InMonthIff` | internal/billing/service.go:435-436 | An earlier instant lies in the monthly window exactly when its year and month are the current ones |
| `CivilDate.DayStartsToday` | internal/billing/service.go:429-430 | A daily window begins at midnight of the same date |
| `CivilDate.YearLength` | internal/billing/service.go:435-436 | Twelve months of the month table are 365 days, or 366 in a leap year |
| `CivilDate.FourCenturies` | internal/billing/service.go:435-436 | 400 years are 146097 days |
| `CivilDate.DatesAscend` | internal/billing/service.go:426-443 | Every day has a date of its own, later than all before |
| `CivilDate.ThursdayIn1970` | internal/billing/service.go:431-434 | 1 January 1970 was a Thursday, which with the next row fixes every weekday |
| `CivilDate.WeekdaysGoOn` | internal/billing/service.go:431-434 | Every day is the weekday after the one before |
| `BillingAdmission.CheckedAdd` | internal/billing/service.go:501-509 | The sign test reports overflow exactly when the sum leaves int64 |
| `BillingAdmission.AddUnits` | internal/billing/service.go:445-499 | The sum of one row's units, or overflow exactly when it leaves int64 |
| `BillingAdmission.AddRows` | internal/billing/service.go:445-499 | The same over all rows a budget counts |
| `BillingAdmission.Admit` | internal/billing/service.go:445-499 | Checked int64 arithmetic admits exactly what exact arithmetic admits: existing plus bound within the limit, in the budget's currency |
| `BillingAdmission.WeighsItsOwnKind` | internal/billing/service.go:445-499 | An amount budget weighs amounts in its own currency only, a token budget units only |
| `BillingAdmission.RowAdds` | internal/billing/service.go:445-499 | One more liability row adds its amount in the budget's currency, or its units |
| `BillingAdmission.AdmitReading` | internal/store/postgres/billing_repo.go:228-259 | On the rows the two queries return, in any order and from two moments, that comparison admits exactly what the ledger's step admits: outstanding holds plus window charges plus the bound within the limit |
| `BillingAdmission.SubjectsFor` | internal/billing/service.go:283-309 | Exactly the usable subjects, each once, tenant subjects always naming the request's tenant |
| `BillingAdmission.SubjectIff` | internal/billing/service.go:283-309 | A reservation is attributed to its tenant, and to the billing subject and every further key that names a kind and an id, a tenant always being the request's own |
| `BillingAdmission.CanonicalRowIff` | internal/billing/service.go:125-144 | A reservation gets the row it is settled by exactly when its charged subject is usable and, if a tenant, the request's own |
| `BillingAdmission.EachReservationCountsOnce` | internal/store/postgres/billing_repo.go:219-259 | At most one row of a reservation counts under a budget, and one does exactly when the ledger counts it |
| `BillingAdmission.SnapshotFor` | internal/billing/service.go:347-383 | Succeeds exactly when every estimated kind has a price and those prices share a currency, and takes the first price of each kind and of no other |
| `BillingAdmission.FirstPriceCounts` | internal/billing/service.go:347-383 | The price that goes into the snapshot is the first one listed for its kind |
| `BillingAdmission.SnapshotPricesEstimate` | internal/billing/service.go:344-383 | An admitted estimate is priced in full: no unit is silently free |
| `BudgetSafety.LiabilityIsBounded` | internal/billing/service.go:65-153 | Over every run with reserves, settlements, releases and unknown outcomes interleaved between a reserve's own reads, a budget's in-window liability is at most its limit, plus what settled charges exceeded their own bounds by, plus what reservations begun while it was not active hold or were charged within their bounds |
| `BudgetSafety.BudgetIsNeverOverAdmitted` | internal/billing/service.go:65-153 | So a budget active whenever a reserve begins never carries more than its limit plus what settled charges exceeded their own bounds by |
| `BudgetSafety.AlwaysWithinLimitIff` | internal/store/postgres/billing_repo.go:128-155 | A budget not over yet stays so in every run that ends while it is active exactly when no reserve can begin before its start, unless another budget refuses first |
| `BudgetAccounts.AccountsBalance` | internal/billing/service.go:65-248 | Over every run, for every budget and window, the liability is the sum of its movements: a committed reserve adds its bound, a release takes it out, a settlement puts the charge in its place, and nothing else moves it |
| `BudgetAccounts.AccountMoves` | internal/billing/service.go:65-248 | The movement of one step, unknown outcomes and dispatch marks moving nothing |
| `BudgetAccounts.ChargeCountsIff` | internal/billing/service.go:416-424 | Usage counts exactly from the later of the period's window start and the budget's own start on, for the tenant or the charged subject |
| `BudgetAccounts.MonthlyChargeCountsIff` | internal/billing/service.go:416-443 | Under a monthly budget in force that is the usage of this year and month |
| `BudgetAccounts.BeginLocks` | internal/store/postgres/billing_repo.go:128-155 | A reserve locks exactly the budgets in force at its now that are bound to one of its subjects |
| `BudgetAccounts.ReadingMeans` | internal/store/postgres/billing_repo.go:219-259 | What it reads of each: all that is held for it, and then all charged since its window began |
| `BudgetAccounts.CommitsIff` | internal/billing/service.go:107-147 | It commits exactly when every budget was read in full, agrees in currency and has room for the bound |
| `BudgetAccounts.CommitStores` | internal/billing/service.go:119-147 | It stores what it was asked for, for exactly its subjects, and touches no other reservation |
| `BudgetAccounts.TransactionEnds` | internal/billing/service.go:85-149 | A reserve that commits or rolls back gives up its locks and no other one's; a rollback leaves nothing else |
| `BudgetAccounts.ReservationMoves` | internal/billing/service.go:157-248 | New reservations are held; settling, marking unknown and releasing each take effect on the reservation they name and on no other |
| `BudgetAccounts.OpenEndings` | internal/billing/service.go:157-248 | A reservation with a canonical row can be settled in its own currency or marked unknown exactly while held, and released exactly while held and not dispatched |
| `BudgetAccounts.SettleRecords` | internal/billing/service.go:186-205 | A settlement records charged subject, cost and time, and rewrites no other record |
| `BudgetSafety.StepKeepsInv` | internal/store/postgres/billing_repo.go:128-259 | Every step keeps what each unfinished reserve has read at least as high as what is covered, and the row locks apart |
| `BudgetSafety.CommitKeepsInv` | internal/billing/service.go:107-147 | A committing reserve fits, and no other one can be under way against the same budget |
| `BudgetSafety.OthersOnlyLower` | internal/billing/service.go:157-248 | No other step raises a budget's covered liability or lowers usage still to be read |
| `BudgetSafety.SettleMoves` | internal/billing/service.go:157-208 | A settlement takes the bound out of the holds and puts the charge in, where the budget counts each |
| `BudgetSafety.SettlementIsSeenIff` | internal/store/postgres/billing_repo.go:219-259 | Within the window a settlement replaces bound by charge exactly for the tenant and the charged subject, or when there is nothing to charge |
| `BudgetSafety.SettledExactlyWithEvidence` | internal/billing/service.go:152-208 | Over every run a usage record exists for exactly the settled reservations |
| `BudgetSafety.ReservationEndsOnce` | internal/billing/service.go:211-248 | A reservation that ended never changes again, evidence is never rewritten, and a dispatched hold is never released |
| `JobSafety.HistoryIsKept` | internal/jobs/repository.go:41-101 | Over every run fences never fall, ended jobs change only to deleted, and an attempt's outcome is final |
| `JobSafety.GrantRaisesFence` | internal/store/postgres/jobs_repo.go:340-366 | Every grant raises the fence by exactly one and hands it to the claim |
| `JobSafety.ClaimPersists` | internal/jobs/service.go:178-215 | A claim keeps its job, owner and fence for good |
| `JobSafety.SupersededClaimIsInert` | internal/store/postgres/jobs_repo.go:415-592 | Once superseded, a claim changes nothing any more, whatever its worker tries, at any later point of the run |
| `JobSafety.NoSilentRedispatch` | internal/jobs/repository.go:60-68 | Whenever a job is queued, can be granted or is dispatched again, every earlier dispatched attempt has a recorded outcome |
| `JobSafety.RetriedIff` | internal/jobs/service.go:275-280 | A retryable failure requeues exactly while one more than the attempts granted is below the maximum |
| `JobEndings.StatusTells` | internal/store/postgres/jobs_repo.go:470-613 | After every run a succeeded job was not asked to stop and its latest attempt succeeded, a cancelled one was asked to, a failed one's latest attempt failed, and an unknown one's ended unobserved |
| `JobEndings.FinishMeans` | internal/jobs/runner.go:189-210 | For a claim that holds its row: which status, delay, dispatch mark and attempt outcome each return of the handler leaves, and that nothing else changes |
| `JobEndings.GrantableIff` | internal/store/postgres/jobs_repo.go:339-366 | A job may be granted exactly when nobody asked it to stop and it waits with its delay over, or runs under a lease that ended without an open dispatch |
| `JobEndings.GrantMeans` | internal/store/postgres/jobs_repo.go:339-413 | A grant runs the job under the worker's lease, opens its attempt and closes what was left open |
| `JobEndings.PollMeans` | internal/store/postgres/jobs_repo.go:316-337 | The sweep ends exactly the running jobs whose lease ran out with their dispatch open, row and attempt together |
| `JobEndings.EnqueueMeans` | internal/store/postgres/jobs_repo.go:151-196 | A new job waits, never granted, and may be granted at once |
| `JobEndings.CancelStops` | internal/store/postgres/jobs_repo.go:596-613 | Asking to stop cancels a waiting job at once; a running one is never granted again and ends cancelled on a normal return |
| `JobEndings.DeleteStops` | internal/store/postgres/jobs_repo.go:615-629 | A deleted job stays deleted in every later run, never granted or ended again |
| `JobEndings.HeartbeatKeepsLease` | internal/store/postgres/jobs_repo.go:415-430 | A heartbeat of the holder moves the end of its lease only, and until then nobody is granted the job and no sweep ends it |
| `JobEndings.DispatchMarks` | internal/store/postgres/jobs_repo.go:457-465 | A dispatch marks row, attempt and claim, and while its outcome is open the job is not granted again |
| `JobEndings.NeverStartedPutsBack` | internal/jobs/runner.go:132-187 | Shut down before its handler was called, a holder puts its job back at once |
| `JobSafety.ReleaseAfterDispatchRepeats` | internal/jobs/runner.go:199-207 | Without the guard, a release after dispatch puts the job back with its dispatch in doubt |
| `JobSafety.StepKeepsInv` | internal/store/postgres/jobs_repo.go:312-629 | Every transaction and worker step keeps rows, attempts and claims consistent |
| `JobSafety.SweepKeeps` | internal/store/postgres/jobs_repo.go:316-337 | The sweep ends expired dispatched jobs and their attempts together |
| `JobSafety.CloseKeeps` | internal/store/postgres/jobs_repo.go:470-592 | Each closing update ends row and attempt together or not at all |
| `JobWorker.Repository.Claim` | internal/store/postgres/jobs_repo.go:312-413 | Sweeps, then leases some runnable row, and finds none only if none is runnable |
| `JobWorker.Repository.FinishAttempt` | internal/store/postgres/jobs_repo.go:488-500 | An attempt no longer open rolls the transaction back |
| `JobWorker.Repository.CompleteJob` | internal/store/postgres/jobs_repo.go:470-502 | The in-place update is the queue's step, whose status and outcome `JobEndings.FinishMeans` states; it succeeds exactly for the holder of an open attempt |
| `JobWorker.Repository.FailJob` | internal/store/postgres/jobs_repo.go:506-535 | The same for a failure, requeued or final |
| `JobWorker.Repository.ReleaseJob` | internal/store/postgres/jobs_repo.go:540-562 | The same for a release, which does not need the attempt to be open |
| `JobWorker.Repository.MarkUnknownJob` | internal/store/postgres/jobs_repo.go:566-592 | The same for an unknown outcome, which keeps the dispatch mark |
| `JobWorker.Repository.ExtendLease` | internal/store/postgres/jobs_repo.go:415-430 | Extends the lease of the holder only |
| `JobWorker.Repository.MarkDispatched` | internal/store/postgres/jobs_repo.go:457-465 | Marks the row of the holder only |
| `JobWorker.WorkerClaim.Heartbeat` | internal/jobs/service.go:217-224 | The claim's own expiry moves exactly when the row's did |
| `JobWorker.WorkerClaim.MarkDispatched` | internal/jobs/service.go:255-261 | The worker's flag is set exactly when the row was marked |
| `JobWorker.WorkerClaim.Fail` | internal/jobs/service.go:275-280 | Requeues while attempts remain, not before the clamped exponential delay |
| `JobWorker.WorkerClaim.Translate` | internal/jobs/runner.go:189-210 | For every return of the handler the closing update is the queue's Finish step |
| `RetryBackoff.RetryDelay` | internal/jobs/service.go:295-305 | For any base, base * 2^n in wrapping int64 arithmetic unless that reaches 30 seconds on the way; so base * 2^n clamped to 30 seconds for n > 0 and a base whose double fits, and the base itself for n = 0 |
| `UsageReport.FromMap` | internal/inference/usage.go:86-134 | The loop and branches compute the report of the specification, whose fields the next row states |
| `UsageReport.FieldsAreBilled` | internal/inference/usage.go:61-134 | Output comes from output_tokens or else completion_tokens, input from input_tokens or else prompt_tokens, each rounded up; as much of it is cached as both breakdowns say and the input holds; every other positive number outside the token fields is billed as its own kind |
| `UsageReport.NothingTwiceNothingFree` | internal/inference/usage.go:61-134 | Input and cached input together are exactly the reported input, no advertised number outside the token fields is dropped, and fractions round up to less than one unit more |
| `UsageReport.ReportSettlesWithinBound` | internal/inference/usage.go:104-109 | A raw report within the caller's estimate settles at or below the reserved bound, and can be charged if the bound could |
| `UsageReport.KnownIff` | internal/inference/usage.go:30-52 | Usage is known exactly when the answer holds a usage object at top level or in its response, or is a token count; the count bills its number as input and nothing besides |
| `UsageReport.OnlyObjectsAreKnown` | internal/inference/usage.go:30-34 | An answer that does not decode to an object tells nothing |
| `LineSplits.ReadsSeeTrimmedLines` | internal/inference/usage.go:179-194 | However bytes arrive, what is seen is the fold over their complete lines, of which only those longer than the cap may have lost their front |
| `LineSplits.SomeReadsSee` | internal/inference/usage.go:179-194 | Conversely every such loss comes about under some split |
| `UsageStream.SplitNeverShowsInShortLines` | internal/inference/usage.go:165-216 | With no line over one mebibyte every split of a stream gives the same terminal flag and usage bytes |
| `UsageStream.SplitNeverShowsIff` | internal/inference/usage.go:190-193 | For any stream the split does not matter exactly when losing the fronts of overlong lines does not |
| `UsageStream.OverlongLineShowsTheSplit` | internal/inference/usage.go:190-193 | A comment line one byte over the cap ends the stream under some splits and not under others |
| `UsageStream.DataLineShows` | internal/inference/usage.go:196-218 | What a data line shows, whatever its indent and line end: the end marker and the five ending events are terminal, an object with usage becomes the usage, anything else changes nothing |
| `UsageStream.OtherLineShowsNothing` | internal/inference/usage.go:196-200 | Any other line shows nothing |
| `UsageStream.LastUsageCounts` | internal/inference/usage.go:196-218 | Over all lines, terminal exactly if one is, and the usage of the last line that carries one |
| `UsageStream.AccountingStream.ObserveLine` | internal/inference/usage.go:196-218 | The fields after one line are those of the specification |
| `UsageStream.AccountingStream.Scan` | internal/inference/usage.go:179-194 | One read is the fold over the lines it completes, with the tail cut to the cap |
| `UsageStream.AccountingStream.Finalize` | internal/inference/usage.go:223-227 | The callback runs at most once, with what was seen at that moment |
| `UsageStream.AccountingStream.Read` | internal/inference/usage.go:165-175 | Scans what was read and finalizes at the end of the body |
| `UsageStream.AccountingStream.Close` | internal/inference/usage.go:230-233 | Finalizes if nothing did before |
| `ExecuteLifecycle.Attempt.Execute` | internal/inference/service.go:200-318 | For every answer of every call, also lost replies: what is returned, that the permit's slot comes back exactly once unless a stream is handed out, and the reservation's exact final state and record in each case |
| `ExecuteLifecycle.Attempt.Follow` | internal/inference/usage.go:165-233 | For every order and number of reads, ends and closes with at least one end or close, the permit comes back once, and the reservation is settled, unknown or still held exactly as the bytes up to the first end and the two store calls say; without a terminal event it is unknown, or still held if even that was not stored |
| `ExecuteLifecycle.Attempt.Finish` | internal/inference/service.go:255-266 | The stream's callback settles, marks unknown or leaves held exactly as what was seen says, and gives the permit back |
| `ExecuteLifecycle.Attempt.SettleReservation` | internal/inference/usage.go:246-267 | The reservation's exact end: settled with one record at its exact price for known usage the snapshot can charge, else unknown, else still held if that could not be stored |
| `ExecuteLifecycle.Attempt.ReleaseUndispatched` | internal/billing/service.go:232-248 | Frees only a held, never dispatched reservation |
| `ExecuteLifecycle.Attempt.Settle` | internal/billing/service.go:157-208 | Row and usage record change together, with the usage as reported and its exact price under the snapshot, or not at all: exactly when every kind is priced and the total is an int64 |
| `ExecuteLifecycle.NothingUsedCostsNothing` | internal/inference/service.go:279-294 | An error status without a report can always be settled, at nothing |
| `ExecuteLifecycle.BillingIgnoresTheSplit` | internal/inference/service.go:255-266 | Whether and what a stream settles depends on its bytes alone |
| `AdmissionQueue.PoolIsBoundedFifo` | internal/inference/admission.go:118-206 | After every run: slots in use are permits out plus grants on their way and within the limit, the queue is bounded, callers wait only while every slot is taken, and nobody waiting arrived before anybody served |
| `AdmissionQueue.TenantCounterIff` | internal/inference/admission.go:118-137 | A tenant's counter is at least its occupancy and within its limit, and equals the occupancy exactly if it never released a permit |
| `AdmissionQuota.RefusedForGoodIff` | internal/inference/admission.go:118-165 | After every run a tenant is refused whatever anybody does from then on exactly when it has a limit and the permits it holds and has given back fill it |
| `AdmissionQuota.ReleasedQuotaRefusesForever` | internal/inference/admission.go:118-137 | In particular when it gave back its limit's worth of permits |
| `AdmissionSteps.AcquireMeans` | internal/inference/admission.go:139-169 | After every run a caller is refused exactly if its tenant's quota is spent, or no slot is free and the line is full; it gets a permit at once exactly if a slot is free, and joins the end of the line otherwise |
| `AdmissionSteps.SlotIsHandedOn` | internal/inference/admission.go:117-130 | A permit given back, or a grant that is no longer wanted, goes to the first in line at once, and nobody else moves |
| `AdmissionSteps.PlaceIsVacated` | internal/inference/admission.go:173-189 | A caller that leaves the line gives up its place and nothing else |
| `AdmissionSteps.CollectMeans` | internal/inference/admission.go:171-173 | A caller whose slot arrived holds its permit |
| `AdmissionSteps.SlotsAsConfigured` | internal/inference/admission.go:92-106 | A pool has its configured limits, and at least one slot, for good |
| `AdmissionQueue.StepKeepsInv` | internal/inference/admission.go:118-206 | Acquire, wake, cancellation before or after the grant, and release each keep the pool's invariant |
| `AdmissionQueue.GrantLoopKeeps` | internal/inference/admission.go:196-206 | Handing out slots ends with no slot free or nobody waiting |
| `AdmissionPool.Gate.Acquire` | internal/inference/admission.go:143-169 | The code up to the wait is the queue's step, and what it returns |
| `AdmissionPool.Gate.Cancel` | internal/inference/admission.go:173-189 | The cancellation branch is the queue's step, also when it loses the race with a grant |
| `AdmissionPool.Gate.Release` | internal/inference/admission.go:117-130 | The release is the queue's step, and a second one does nothing |
| `AdmissionPool.Gate.GrantLocked` | internal/inference/admission.go:193-206 | The loop is the queue's |
| `WaitLine.WithoutFits` | internal/inference/admission.go:173-189 | Removing a waiter keeps everybody else, in order of arrival |
| `GateQueue.GateStaysWithinLimits` | internal/httpx/middleware.go:295-442 | After every run slots and bytes are within their limits, the bytes in use are exactly the declared lengths of the holders plus the charges of unclosed bodies, and the head of a queue does not fit |
| `GateQueue.IdleGateHasNoQueue` | internal/httpx/middleware.go:365-384 | Nobody waits at a gate without holders and open bodies |
| `GateQueue.UnclosedBodyKeepsItsBytes` | internal/httpx/middleware.go:418-442 | Whatever happens, its own call's release included, a body never closed goes on using what it was charged |
| `GateQueue.UnclosedBodyShutsOut` | internal/httpx/middleware.go:355-363 | A request that needs more than such a body leaves is not let in for as long as the gate runs |
| `GateSteps.EnterMeans` | internal/httpx/middleware.go:295-330 | After every run a request is refused exactly if it could never fit or would wait at a full line, runs at once exactly if nobody waits and slot and bytes are free, and joins the line otherwise |
| `GateSteps.EndFreesSlot` | internal/httpx/middleware.go:299-349 | A call that ends gives back slot and declared bytes, and the front of the line is granted until its head does not fit |
| `GateSteps.PlaceIsVacated` | internal/httpx/middleware.go:336-349 | A caller that leaves the line gives up its place, and those it was in the way of move up |
| `GateSteps.CloseFreesBytes` | internal/httpx/middleware.go:407-442 | A body that is closed returns what it was charged, and the line moves up; its call goes on |
| `GateSteps.BytesAreCharged` | internal/httpx/middleware.go:388-405 | Bytes are charged exactly while they fit, to their own body; wrapping and waking charge nothing |
| `GateSteps.DeclaredIs` | internal/httpx/middleware.go:355-384 | The bytes in use count the stated lengths of the calls that have a slot |
| `GateSteps.SlotsAsConfigured` | internal/httpx/middleware.go:284-289 | A gate has its configured limits, and 64 slots if none were stated, for good |
| `GateQueue.StepKeepsInv` | internal/httpx/middleware.go:295-442 | Enter, wake, cancel, release, charge and close each keep the gate's invariant |
| `RequestGate.InferenceGate.GrantLocked` | internal/httpx/middleware.go:368-384 | The loop grants from the head for as long as it fits |
| `RequestGate.InferenceGate.Enter` | internal/httpx/middleware.go:295-330 | The code up to the wait is the queue's step, and what it returns |
| `RequestGate.InferenceGate.Cancel` | internal/httpx/middleware.go:336-349 | The cancellation branch is the queue's step |
| `RequestGate.InferenceGate.Release` | internal/httpx/middleware.go:299-312 | The lease's release is the queue's step, and a second one does nothing |
| `RequestGate.InferenceGate.ChargeBody` | internal/httpx/middleware.go:388-405 | A turn charges exactly when the bytes fit, and changes nothing otherwise |
| `RequestGate.InferenceGate.CloseBody` | internal/httpx/middleware.go:407-442 | Closing returns the bytes and serves the line; a second close does nothing |
| `ChunkWindows.BacktrackToBoundary` | internal/rag/chunk.go:51-60 | The last boundary in the second half of the window, or its end |
| `ChunkWindows.ChunkText` | internal/rag/chunk.go:8-48 | Blank, short and long texts; for a long one the chunks are the trimmed windows of a walk from start to end |
| `ChunkWindows.NormalizeKeepsWords` | internal/rag/text.go:232-236 | The text that is cut up is the given one without space at its ends: the same characters in the same order with gaps in the same places, each a single space |
| `ChunkWindows.WindowsAdvance` | internal/rag/chunk.go:29-46 | Windows are never empty or longer than the size, start strictly later, leave no gap, and overlap by exactly the overlap or not at all |
| `ChunkWindows.OnlySpaceIsLost` | internal/rag/chunk.go:29-46 | Every character that is no space is inside a chunk at its place |
| `ChunkWindows.EndsNeverGoBack` | internal/rag/chunk.go:29-59 | No window ends before the one before it |
| `ChunkWindows.RepeatsItsEndIff` | internal/rag/chunk.go:29-59 | A window adds nothing exactly when the previous end is a boundary in its second half with none further in reach |
| `ChunkWindows.HalfOverlapAddsText` | internal/rag/chunk.go:29-59 | With an overlap of at most half the size every window adds text |
| `ChunkWindows.LargeOverlapMayAddNothing` | internal/rag/chunk.go:29-59 | A text and a larger overlap for which a window adds nothing |
| `MarkdownBlocks.ParseMarkdown` | internal/rag/structured.go:60-143 | On every text it ends; its blocks are those of the outline, each with the kind, level, language and text its lines say, in order and apart, and only space and heading marks lie outside them |
| `MarkdownBlocks.OutlineTiles` | internal/rag/structured.go:60-143 | The outline's blocks follow one another with only blank lines between them, and the first line of each decides its kind |
| `MarkdownBlocks.GivesUpIff` | internal/rag/structured.go:76-96 | The text is given up exactly when the walk over its lines meets a fence that no later line closes |
| `MarkdownBlocks.KindIff` | internal/rag/structured.go:76-154 | Which first characters make a line code, heading, list item or paragraph, and which end a paragraph |
| `MarkdownBlocks.ClosedIff` | internal/rag/structured.go:80-93 | A fence is closed by the first later line that begins with it, and ends with that line |
| `MarkdownBlocks.ParagraphStops` | internal/rag/structured.go:120-132 | A paragraph goes on to the first line that cannot continue it |
| `MarkdownBlocks.CloseFence` | internal/rag/structured.go:80-100 | Closed exactly when a later line begins with the fence |
| `MarkdownBlocks.HeadingBlock` | internal/rag/structured.go:101-113 | The title is found where it first occurs in its line, and the rest of the line is space and marks |
| `MarkdownBlocks.ReadParagraph` | internal/rag/structured.go:120-140 | A paragraph takes at least one line, and loses only space |
| `MarkdownBlocks.ParsedBlocksDivide` | internal/rag/service.go:715-780 | What is parsed is what the chunker accepts |
| `StructuredChunks.ChunkStructured` | internal/rag/structured.go:214-289 | The chunks are the texts, positions, indexes and header paths of the one division of the blocks, and nothing when a level is invalid |
| `StructuredChunks.DivisionIsUnique` | internal/rag/structured.go:232-289 | Blocks, size and overlap determine the division |
| `StructuredChunks.EveryBlockOnce` | internal/rag/structured.go:232-289 | Every block is fresh in exactly one chunk |
| `StructuredChunks.HeadingsOnlyFirst` | internal/rag/structured.go:232-240 | A heading stands only first in a chunk, so repeats never reach across one |
| `StructuredChunks.RepeatsFit` | internal/rag/structured.go:246-276 | Repeated blocks fit the overlap, leave room for the next block, and never precede a heading |
| `StructuredChunks.RepeatsAllThatFit` | internal/rag/structured.go:244-276 | And they are as many as fit: one more would exceed the overlap or the room left by the next block |
| `StructuredChunks.ChunksAreFull` | internal/rag/structured.go:232-244 | A chunk ends only at the end, before a heading, or where the next block would exceed the size |
| `StructuredChunks.JoinAdds` | internal/rag/structured.go:240-285 | A chunk's text is its blocks' texts with a line feed between them |
| `StructuredChunks.WithinSizeUnlessSingle` | internal/rag/structured.go:242-286 | A chunk exceeds the size only if it is one block |
| `StructuredChunks.PushHeading` | internal/rag/structured.go:237-238 | After re-slicing and appending, every slot holds the latest heading of its level, stale ones included |
| `StructuredChunks.PathsAreAncestryIff` | internal/rag/structured.go:232-239 | Header paths name true ancestors throughout exactly when no heading skips a level |
| `StructuredChunks.PathNames` | internal/rag/structured.go:232-239 | A path has one entry for each level down to the latest heading's, the text of the latest heading of that level or nothing |
| `StructuredChunks.PathText` | internal/rag/structured.go:226 | Its entries are joined by an angle between spaces |
| `SectionMerge.MergeSearchSections` | internal/rag/service.go:441-507 | Both passes, index by index, are the specification's; nothing is out of range while the slice shrinks |
| `SectionMerge.PlacePoints` | internal/rag/service.go:446-488 | The first pass extends the first section a hit adjoins, or opens one within the limit |
| `SectionMerge.JoinSections` | internal/rag/service.go:489-506 | The second pass with its fixed number of rows |
| `SectionMerge.MergedIsSound` | internal/rag/service.go:441-507 | For distinct hits every result holds exactly the contents of its chunks in index order, results share no chunk, and the limit holds |
| `SectionMerge.NothingIsLost` | internal/rag/service.go:476-505 | With no more hits than the limit every hit is in a result |
| `SectionMerge.KeptIff` | internal/rag/service.go:446-506 | For any limit, a hit is in a result exactly if at its turn there was room for another section or one it comes next to |
| `SectionRuns.ResultsStayApartIff` | internal/rag/service.go:489-506 | For distinct hits no two results adjoin exactly when, among the first pass's sections, each that belongs to a run already begun adjoins one before it |
| `SectionRuns.HitsInOrderStayApart` | internal/rag/service.go:446-506 | So they never adjoin when each document's hits come in the order of their chunks |
| `SectionMerge.AdjoiningResultsMayRemain` | internal/rag/service.go:489-506 | Five hits whose results adjoin each other |
| `ResponseBindings.GetByUpstream` | internal/store/postgres/response_bindings_repo.go:135-155 | Finds the row of a reference if there is one, deleted or not |
| `ResponseBindings.Bind` | internal/store/postgres/response_bindings_repo.go:67-108 | Stores a new row, answers with the existing one for a bound reference, and refuses exactly a blank column or a public id taken by another reference, without change |
| `ResponseBindings.ResponseRewriter.Mint` | internal/httpx/responses.go:620-648 | Stores exactly one new row of the caller's, its kind and parent as asked, before its public id is used; fails only if a column is blank or four drawn ids are in use, without change |
| `ResponseBindings.ResponseRewriter.PublicFor` | internal/httpx/responses.go:603-649 | Remembered, else stored, else minted: the public id always stands for that upstream id on that endpoint |
| `ResponseBindings.ResponseRewriter.RewriteNode` | internal/httpx/responses.go:530-588 | The answer is the value with every reference renamed and upstream state dropped; responses are named by rows without a parent, the table only gains rows of the caller's, every item row among them for an item of the value under the response around it; it fails only for want of ids |
| `ResponseBindings.ResponseRewriter.OwnId` | internal/httpx/responses.go:533-545 | The object's own id first; a response becomes the parent of what is inside |
| `ResponseBindings.FieldsStay` | internal/httpx/responses.go:546-580 | Only conversations and previous responses disappear: without them an object comes out with exactly its own keys |
| `ResponseBindings.PreviousStays` | internal/httpx/responses.go:552-567 | A previous response that was bound before stays, under its public id |
| `ResponseBindings.ResponseIff` | internal/httpx/responses.go:590-598 | An object is a response exactly when its object or event type says so |
| `ResponseBindings.KeysThatName` | internal/httpx/responses.go:546-580 | The fields each walk renames |
| `ResponseBindings.ExposesOnlyStoredIff` | internal/httpx/responses.go:530-588 | An answer names only stored public ids exactly when the values the walk passes over do |
| `ResponseBindings.CompositeIdLeaks` | internal/httpx/responses.go:547-549 | An upstream id inside an id field that is no text comes out as it went in |
| `ResponseBindings.RequestRewriter.Resolve` | internal/httpx/responses.go:331-382 | Resolves exactly a text that names an active row of the caller's, or of whom it acts for, on the pinned endpoint, and pins that endpoint |
| `ResponseBindings.RequestRewriter.RewriteInputRefs` | internal/httpx/responses.go:409-440 | Succeeds exactly when every reference resolves on one endpoint, and then restores the upstream ids |
| `ResponseBindings.RequestRewriter.RewriteRequest` | internal/httpx/responses.go:351-403 | The same for a whole request with the previous response it names |
| `ResponseBindings.RoundTripIff` | internal/httpx/responses.go:405-440 | On a table whose rows on the endpoint are the caller's, for a value whose only references are id and item_id, sending the answer back resolves and restores the original exactly when every such field was a non-empty text or null |
| `ResponseBindings.SendBack` | internal/httpx/responses.go:405-588 | The two walks one after the other: for every such value the answer's way back is accepted exactly then, and the upstream is sent its own value again |

## Left out

- ArtifactSafety.FinalArtifactsStayIntact: holds for runs that respect the four assumptions listed above; each of them is shown to be needed, and the code meets each only as far as the environment does.
- ArtifactSafety.LiveBytesAreLeftAlone: power loss is excluded there; what power loss may change is part of the machine, and final rows survive it.
- ReconcilePass.Store.Reconcile: a pass whose first query fails ends there and changes nothing, and one whose second query fails ends before its last phase; neither is modelled, nor are stray files.
- ReconcilePass.PassConverges: says nothing of the `.part` files of tombstoned rows, which no phase ever removes.
- BudgetSafety.BudgetIsNeverOverAdmitted: the budget is active whenever a reserve begins; other budgets are bounded by `BudgetSafety.LiabilityIsBounded`, with the exact case in `BudgetSafety.AlwaysWithinLimitIff`.
- JobSafety.NoSilentRedispatch: the dispatch mark is one step; a mark that was stored while its reply got lost is not modelled, and a handler's own call to a provider is outside the queue.
- ExecuteLifecycle.Attempt.Execute: starts where the permit is asked for; policy, routing and payload checks before that touch neither permit nor reservation. A reserve whose reply got lost leaves a hold that nobody releases.
- StructuredChunks.ChunkStructured: for blocks with an empty text only the invalid-level case is stated; the parser produces no such block (`MarkdownBlocks.ParsedBlocksDivide`), only a blank document falls back to one.
- UsageReport.FromMap: a number beyond int64 is kept as it is, where the conversion from floating point would depend on the machine; `ExecuteLifecycle.Attempt.Settle` refuses it.
- MarkdownBlocks.ParseMarkdown: counts code points instead of bytes and takes the text to be valid UTF-8; white space after a marker is checked on single bytes as in the source.
- AdmissionPool.Gate.Acquire: waiting itself, and the queue timeout, are the steps between the methods; a waiter chooses wake or cancellation in any order.
- RequestGate.InferenceGate.ChargeBody: the five millisecond polling is a caller that tries again; sums of byte counts stay below int64.
- ResponseBindings.ResponseRewriter.RewriteNode: a decoded object is rewritten to a new value instead of in place, its fields come in the order of the walk, and store failures other than a taken id are one refusal. Several rewriters at work on one table are not interleaved.
- ResponseBindings.RequestRewriter.RewriteRequest: the merging of input snapshots into the request is not modelled.
- JobQueue, BudgetLedger and ArtifactMachine are functions on values, one per transaction or file operation, because their results are about interleavings; in-place update of rows is in `JobWorker` and `ReconcilePass` only, and the writer object of the store is the function `ArtifactMachine.WriterStep`.
- Which row a job claim picks among the runnable ones (oldest first, skipping locked rows) and the order in which budgets are locked are left open; the results hold for every choice.
- The sorted order in which kinds, subjects and budgets are visited, and with it which of several errors is reported first.
- SHA-256 is taken to be collision free, new ids to be unused, JSON decoding to be any function, and a provider's answer to be any answer.
- Artifact path validation, directories, scratch space and stray files that are not at `<tenant>/<id>`; the state `deleting`, which no code path writes.
- Job enqueueing with its idempotency keys, progress documents, listing, and the polling loop's timing.
- Rates, prices and budgets as stored objects; pricing falls back from endpoint to model by a second reserve that is the same transaction.
- Management calls on stored responses, transport caching, and model policy.
- HTML, PDF, DOCX and CSV extraction, embeddings and the vector store.
- The server-sent-event relay of rewritten answers, query filters, HTTP headers, sessions and everything of the dashboard.
