# Verification of the RT finance backend

A Dafny model of the parts of the backend that move money or keep history, with proofs of what those parts
promise. Run `dafny verify dfyconfig.toml` in this directory.

## What is modelled

* **Payments** (`Billing`, `Payments`, and the proofs in `PaymentInvariants`, `Conservation`, `FifoOrder`,
  `FifoProgress`, `BatchPayment`, `Reservations`, `PaymentEffects`, `PaymentOutcomes`, `Refusals`). Bills,
  payments, allocations and ledger rows of one RT are one state; creating, verifying, rejecting, reversing and cancelling are steps on it. Row locks on the
  bill and the RT serialise them, so each service call is one atomic step and a refused call changes nothing. The
  theorems are about all runs of such steps. `Counterexamples` holds reachable states for the properties the code does
  not have. `PaymentStore` is the service over mutable tables, with the loops of the original, each method proved equal
  to its step.
* **Idempotency** (`Idempotency`, `GuardOutcomes`, `GuardedHandler`). Any number of requests, pooled connections,
  session locks, one table of stored responses; every interleaving of their steps, where a session may be lost, a process may crash, a
  handler may panic and a commit may fail or be applied without being reported, at any point. `GuardedHandler` is the
  handler, its recorder and its session as objects, proved to take exactly the protocol's steps when it returns.
* **Fund locations and periods** (`Ledger`, `PeriodBalance`, `FundLocation`, `FundOutcomes`, `FundStore`, `Calendar`,
  `LockOrder`). Balances are sums of signed change rows; openings of months come from the latest manual record. `LockOrder` is the
  row-lock protocol of concurrent ledger calls.
* **Bill synchronisation** (`BillSync`, `SyncOutcomes`), **occupancy history** (`Occupancy`, `Residence`,
  `RegistryStore`), **money text** (`Money`) and the **rate limiter** (`RateLimiting`).

Money is an integer number of cents, unbounded except in `Money`, where 64-bit wrap-around is written out. A row's id
is its position, because rows are never removed. A period `YYYY-MM` is the month index `12 * YYYY + MM - 1`, a date a
day number, a moment a number of seconds; the clock, the caller's role and occupancy, and the outcome of every
database call that may fail are parameters.

A specification of an operation is a function from the old tables to the new ones or to an error. What the operation
is for is proved about that function, against a definition that does not mention it: sums over payments, the order of
periods, the stored response, the roll-forward, the days somebody lives in a house. For each operation it is proved
when exactly it is accepted and what an accepted one changes (`PaymentOutcomes`, `FundOutcomes`, `GuardOutcomes`,
`SyncOutcomes`, `Residence`). The methods of the classes are proved equal to these functions.

## What the proofs found

* The cash balance of `SetOpeningBalance` and of the reconciliation report leaves out a transaction dated exactly at
  the first moment of next month when it is the latest one (`FundLocation.KasExactly`, `BoundaryTxnMissed`).
* `ReverseTransaction` accepts the row of a payment, and the payment then stays approved without its money
  (`Conservation.DirectReversalExact`). Runs are therefore assumed to reverse such rows through the payment only;
  `PaymentInvariants.Admissible` states this hypothesis.
* `ReverseTransaction` looks for an earlier reversal before it takes any lock, and no unique constraint stands behind
  the check: two overlapping calls can both post, exactly as `FundLocation.StaleReversalExactly` says.
* Staff payments ignore pending reservations, so a resident's pending payment can be stranded: it can be approved
  exactly while it fits beside the approved money (`Reservations.SingleApprovalExact`, `MultiApprovalExact`), and in
  `Counterexamples.ResidentStranded` it no longer can.
* Bills of a "full" due can be paid out of order after three kinds of late operation and no other
  (`FifoOrder.StepKeepsOrderExactly`): issuing a bill for a month before one that has money on it
  (`IssueKeepsOrderExactly`, `Counterexamples.LateIssueBreaksOrder`), making such an earlier bill payable again
  (`FlagKeepsOrderExactly`, `Counterexamples.RevivalBreaksOrder`), and reversing the payment of an earlier bill while
  a later one is paid otherwise or covered by a pending payment without it (`ReversalKeepsOrderExactly`,
  `Counterexamples.ReversalBreaksOrder`, `Counterexamples.PendingOvertakes`). Approving a pending payment does not look at
  the queue again.
* Reversing a payment of a voluntary bill gives the bill the computed status, so it comes back with
  another status exactly when the stored one was not the computed one (`PaymentEffects.ReversalUndoesApproval`, `Counterexamples.VoluntaryStatusLost`).
* A bill of amount zero is reported as "all paid", and no other payable bill is (`FifoProgress.AllPaidExactly`,
  `Counterexamples.ZeroBillIsAllPaid`).
* After an answer the key is free exactly if the unlock took effect and the session held the lock only once
  (`Idempotency.UnlockFreesExactly`). One failed unlock is enough for a later request on the same pooled session to leave
  the key locked although its own unlock succeeds (`Idempotency.StrandedRun`).
* A handler that panics still runs its deferred `Finish`, and the stored answer is the sent one exactly if it did not
  panic (`Idempotency.SentIsStoredExactly`). Before anything was written, 200 is sent and 0 is stored, and the retry
  panics on that 0 and never gives its connection back (`PanickedRun`, `LeakedHolds`). Between serving and saving, 201 is
  sent and stored for a payment that is rolled back, and every retry is told 201 (`FinishStoresUnpaidExactly`,
  `UnpaidStoredRun`); this is the only way to a stored 201 without a payment (`CreatedMeansPaid`). Between save and
  commit, 201 is sent and nothing is stored (`UnpaidCreatedRun`).
* A closed non-voluntary due takes no payment of a single bill, but multi-period requests do not look whether it is
  closed (`PaymentOutcomes.ClosedDueStillInRequests`).
* A closed location still receives opening balances and the money of reversals, and nothing else
  (`FundOutcomes.ClosedBalanceMovesExactly`, `ClosedLocationFunded`).
* The anomaly list of the report compares magnitudes only: a balance change with its sign flipped, or an altered opening
  balance, is not noticed (`FundOutcomes.AlterationNoticedExactly`).
* After a try-lock that failed without taking the lock, the release takes away a hold that the pooled session had from
  before (`GuardOutcomes.FailedLockLeavesExactly`). A commit that is done but reported failed is told as 500
  (`GuardOutcomes.LostCommitIsPaid`).
* A rate limit below one still lets the first call of each window through (`RateLimiting.LimitRespectedIffPositive`).
* `ParseMoney` accepts texts beyond 64 bits and returns a wrapped amount (`Money.FirstOverflow`).
* The comment above `SyncHouseholdOccupancyBills` says that existing bills are never touched (`DO NOTHING`); the code
  corrects the obligation flag of unpaid ones (`DO UPDATE`). The model follows the code.
* A move dated on the day the current period began is not refused by the household code but by the table's
  `CHECK (end_date > start_date)`; the model reports that as `BadDates`.

## Model

| member | source | states |
|---|---|---|
| `Billing.TwoPathsAgree` | `backend/internal/finance/repository.go:490-491` | for every list of payments, the UNION of direct payments and allocations counts each payment exactly as the bill list's LEFT JOIN does, however many bills it covers |
| `Billing.PaymentTotal` | `backend/internal/finance/repository.go:853-877` | the approved (or pending) total of a bill is the sum of the shares its payments bring to it |
| `Billing.ShareTotalSign` | `backend/internal/finance/repository.go:883-907` | totals are never negative, and a total is positive exactly when `GetApprovedPaymentCount` is |
| `Billing.QueueMembers` | `backend/internal/finance/repository.go:914-932` | the queue holds exactly the bills that are not cancelled, active, obligatory and still owing |
| `Billing.QueueRises` | `backend/internal/finance/repository.go:953-986` | with unique keys the queue is in strict period order, without repetition |
| `Billing.HeadIsOldest` | `backend/internal/finance/repository.go:914-949` | a bill heads the queue if and only if it is eligible and no eligible bill is earlier |
| `Billing.PrefixMeansClosed` | `backend/internal/finance/service.go:1932-1941` | matching the first entries of the queue is the same as skipping no earlier bill that still owes |
| `PaymentEffects.PaymentAcceptedExactly` | `backend/internal/finance/service.go:719-911` | a payment of one bill is accepted if and only if it is positive, the bill is payable by the caller, and the bill is voluntary or is the oldest one owing, paid within what remains and whole under the rule "full" |
| `PaymentEffects.QueueCheckExact` | `backend/internal/finance/service.go:1900-1941` | the queue check of a multi-period request accepts exactly the requests in which every non-voluntary bill owes and no earlier owing bill of its due is left out |
| `PaymentEffects.VerifyGuardExact` | `backend/internal/finance/service.go:1022-1073` | a decision fails before the target is looked at if and only if the payment is missing, not pending, the verifier's own, undated, or directed to a place that does not fit its method; a permitted rejection always succeeds |
| `PaymentOutcomes.BillPaymentExactly` | `backend/internal/finance/service.go:719-929` | a payment of one bill is accepted if and only if the bill is payable and voluntary, or the oldest one owing and paid within its rule; it then adds one row of the caller with the whole amount, which waits (a resident) or counts at once (staff) |
| `PaymentOutcomes.DonationExactly` | `backend/internal/finance/service.go:674-717` | a donation is accepted if and only if it is positive, its due is active, voluntary, without a set amount and not past its last day, and a resident lives somewhere; it adds one row and touches no bill |
| `PaymentOutcomes.MultiAcceptedExactly` | `backend/internal/finance/service.go:1726-1987` | a multi-period request is accepted if and only if it has 1 to 12 distinct bills matched one to one by allocations, a stated total that is positive and theirs, and every bill is there, active, obligatory, unpaid or partly paid, of one household (for a resident the own one), skips no earlier bill that owes, and is paid a positive amount that fits its rule |
| `PaymentOutcomes.MultiPaymentRecorded` | `backend/internal/finance/service.go:2000-2147` | an accepted request adds one payment of the sum of its allocations to the first bill, with all of them: pending for a resident, counted at once for staff |
| `PaymentOutcomes.SettleCounts` | `backend/internal/finance/service.go:825-863` | a payment that counts raises the approved total of every bill by its share, lowers the pending one if it was pending, gives covered bills the status of the new total and changes nothing else of any bill, and books one income of its amount, linked to it, at its location |
| `PaymentOutcomes.DecisionRecorded` | `backend/internal/finance/service.go:1039-1065` | an accepted decision marks exactly the decided payment: rejected by a rejection and by an approval that finds too little room, approved otherwise; a rejection lowers each pending total by the payment's share, changes no approved total, no non-voluntary bill and no book; an approval makes it count |
| `PaymentOutcomes.DecidedOnce` | `backend/internal/finance/service.go:1029-1031` | a decided payment cannot be decided again, by anybody, either way |
| `PaymentOutcomes.ApprovalVerdict` | `backend/internal/finance/service.go:1142-1223` | an approval turns into a rejection if and only if it is of one open non-voluntary bill with less left than the payment; a donation is approved if and only if its due exists and is voluntary |
| `PaymentOutcomes.ReversalAcceptedExactly` | `backend/internal/finance/service.go:2482-2530` | a payment is reversed if and only if it is approved and the location of its income row, if any, still holds its amount |
| `PaymentOutcomes.ReversalRecorded` | `backend/internal/finance/service.go:2531-2593` | a reversal marks exactly that payment, lowers every approved total by its share, recomputes the statuses of its bills, and takes its amount out of the cash and of the location of its income row; a second one is refused |
| `PaymentOutcomes.CancelExactly` | `backend/internal/finance/service.go:1687-1708` | a bill is cancelled if and only if it is unpaid and no approved payment covers it; nothing else changes, and no payment of it is accepted any more, alone or among others |
| `PaymentOutcomes.BillActiveExactly` | `backend/internal/finance/service.go:523-545` | deactivating a bill is refused if and only if it is paid in full (a voluntary one: marked paid, or covered by approved money); an inactive bill takes no payment, alone or among others |
| `PaymentOutcomes.IssueExactly` | `backend/internal/finance/repository.go:398-426` | issuing adds one unpaid active bill if and only if its key is new, and issuing it again changes nothing |
| `PaymentOutcomes.ObligatoryExactly` | `backend/internal/household/repository.go:773-785` | the obligation flag moves only while the bill is unpaid |
| `PaymentOutcomes.DueActiveExactly` | `backend/internal/finance/service.go:301-315` | a due is closed whenever it exists, and a voluntary one is not opened after its last day; a closed due takes no donation and, unless voluntary, no single payment of its bills |
| `PaymentOutcomes.ClosedDueStillInRequests` | `backend/internal/finance/service.go:1806-1850` | opening or closing a due changes the verdict on no multi-period request: the code does not look at it there |
| `Refusals.RefusalsAreTrue` | `backend/internal/finance/service.go:719-929` | in every reachable state every refused call of the engine names a reason that holds of the request and the tables |
| `PaymentInvariants.StepKeeps` | `backend/internal/finance/service.go:623-929` | create, verify, reject, reverse, cancel, flag changes and every ledger operation keep the joint invariant of bills, payments and ledger |
| `PaymentInvariants.ReachableInv` | `backend/internal/finance/service.go:1725-2147` | the invariant holds after every run from a state without payments |
| `PaymentInvariants.SettleKeeps` | `backend/internal/finance/service.go:825-863` | approving a payment that fits on its bills keeps totals within amounts, statuses equal to recomputed ones, and one income row per approved payment |
| `PaymentInvariants.RejectKeeps` | `backend/internal/finance/service.go:1052-1065` | turning a pending payment down changes no approved total and keeps the invariant, before and after its bills are recomputed; what it marks and frees is `PaymentOutcomes.DecisionRecorded` |
| `PaymentInvariants.ReverseKeeps` | `backend/internal/finance/service.go:2482-2593` | reversing an approved payment keeps the invariant: totals, recomputed statuses and ledger stay in agreement |
| `PaymentInvariants.ManyFits` | `backend/internal/finance/service.go:1977-1986` | an accepted multi-period request makes a well-formed payment, and from staff one that fits on every bill |
| `PaymentInvariants.MultiApprovalFits` | `backend/internal/finance/service.go:1325-1374` | the re-check before a multi-period approval guarantees room on every bill |
| `PaymentInvariants.DonationSettles` | `backend/internal/finance/service.go:1081-1106` | a donation is an approval that touches no bill |
| `Conservation.SharesAddUp` | `backend/internal/finance/service.go:2070-2078` | the shares of a payment over all bills add up to its amount: nothing is lost or counted twice |
| `Conservation.MoneyIsConserved` | `backend/internal/finance/service.go:857-863` | in every reachable state the approved totals of all bills plus the approved donations equal posted income minus expense over payment-linked transactions |
| `Conservation.ReversalFindsItsRow` | `backend/internal/finance/service.go:2496-2509` | in every reachable state an approved payment has exactly one income row, of its own amount, so its reversal can fail only for lack of money in its location |
| `Conservation.StatusesAgree` | `backend/internal/finance/service.go:931-955` | in every reachable state a non-voluntary bill is paid at most its amount and stores the status a recomputation gives; a cancelled bill of any due has no approved money |
| `Conservation.ReconcileChangesNothing` | `backend/internal/finance/service.go:1052-1060` | in every reachable state recomputing the bills of a payment on non-voluntary dues is a no-op |
| `Conservation.CancelledIsAbsorbing` | `backend/internal/finance/service.go:1159-1161` | no operation brings a cancelled bill back |
| `Conservation.CancelledForever` | `backend/internal/finance/service.go:1687-1708` | a cancelled bill stays cancelled and unpaid for the rest of any run |
| `Conservation.DirectReversalExact` | `backend/internal/finance/service.go:1589-1612` | reversing a ledger row directly keeps ledger and payments in agreement if and only if no payment owns the row; the code does not check this |
| `Conservation.DirectReversalWitness` | `backend/internal/finance/service.go:1589-1612` | in a state with one voluntary due a staff donation of any amount can have its row reversed directly, and the payment stays approved without its money |
| `PaymentEffects.ReversalUndoesApproval` | `backend/internal/finance/service.go:2541-2593` | right after any approval, single, multi-period or donation, its reversal is accepted and restores all approved totals, the ledger net, every location balance and every non-voluntary bill; any bill comes back as it was if and only if the payment did not cover it or its status was the computed one |
| `Counterexamples.VoluntaryStatusLost` | `backend/internal/finance/service.go:2569-2593` | a reachable state: staff pay a voluntary bill in part twice, which marks it paid, and reversing the second payment leaves it partly paid instead |
| `PaymentEffects.ReversalUndoesVerification` | `backend/internal/finance/service.go:1142-1296` | the same, bill by bill, for `VerifyPayment` followed by `ReverseApprovedPayment` |
| `PaymentEffects.BooksStaySound` | `backend/internal/finance/service.go:2515-2538` | after every run of payment and ledger operations no location is overdrawn, each balance is the sum of its transactions, transfers and openings, every change is labelled for its direction and for taking another back, and the report lists no anomaly |
| `FifoOrder.NeverPartlyPaid` | `backend/internal/finance/service.go:812-816` | over runs of all operations in which none comes late, a bill under the rule "full" has nothing or its whole amount approved, from at most one approved and one pending payment |
| `FifoOrder.PaidOldestFirst` | `backend/internal/finance/service.go:769-780` | over the same runs, if a bill has approved money then every earlier active obligatory bill of its household and due is paid in full or cancelled |
| `FifoOrder.IssueKeepsOrderExactly` | `backend/internal/finance/repository.go:398-426` | issuing a bill keeps the order if and only if it is not a new obligatory bill of a "full" due for a month before one that already has approved or pending money |
| `Counterexamples.LateIssueBreaksOrder` | `backend/internal/finance/repository.go:398-426` | a reachable state: once staff paid the oldest bill, issuing one for an earlier month leaves the order broken |
| `FifoOrder.RequestIsClosed` | `backend/internal/finance/service.go:1913-1941` | an accepted multi-period request contains every earlier bill that still owes |
| `FifoOrder.StepKeepsOrderExactly` | `backend/internal/finance/service.go:1981-1986` | every operation of the engine keeps the order, pending multi-bill payments included, if and only if it is not a late issue, reversal or flag change; the three conditions read only the state before it |
| `FifoOrder.OrderedMeans` | `backend/internal/finance/service.go:769-780` | the order holds if and only if payments take "full" bills whole and no such bill has approved money, or a pending payment that leaves out an earlier owing bill, while that bill owes |
| `FifoOrder.FlagKeepsOrderExactly` | `backend/internal/finance/service.go:523-545` | activating a bill or making it obligatory keeps the order if and only if the bill would not start owing behind a later one of its due that is paid or submitted without it; clearing a flag always does |
| `Counterexamples.RevivalBreaksOrder` | `backend/internal/finance/service.go:523-545` | a reachable state: the first of two bills is deactivated, staff pay the second, and activating the first breaks the order |
| `FifoOrder.ReversalKeepsOrderExactly` | `backend/internal/finance/service.go:2569-2593` | a reversal keeps the order if and only if no earlier payable bill it covers is behind a later one of its due that another payment paid, or that a pending payment covers without the earlier one |
| `FifoOrder.ReversalKeepsPaidExactly` | `backend/internal/finance/service.go:2569-2593` | in any consistent state, a later bill that another payment paid stays in order if and only if the reversed payment covers no earlier payable bill of its due |
| `Counterexamples.PendingOvertakes` | `backend/internal/finance/service.go:1142-1223` | a reachable state: staff pay the first of two bills, a resident submits the second, the first payment is reversed; the order is broken, and approving the submitted payment pays the second bill before the first |
| `Counterexamples.ReversalBreaksOrder` | `backend/internal/finance/service.go:2569-2593` | a reachable state: two bills paid by staff in order, whose first payment can be reversed, which leaves the second paid before the first |
| `FifoProgress.HeadPaymentProgress` | `backend/internal/finance/service.go:766-841` | staff can always pay the head of the queue its remaining balance, and that takes exactly the head off the queue |
| `FifoProgress.QueueDrains` | `backend/internal/finance/repository.go:914-949` | `n` such payments settle the first `n` bills of the queue in order and leave the rest waiting unchanged |
| `FifoProgress.AllSettled` | `backend/internal/finance/service.go:731-780` | as many payments as there are eligible bills settle all of them |
| `FifoProgress.AllPaidExactly` | `backend/internal/finance/service.go:771-775` | the "all paid" refusal is raised for an otherwise payable bill if and only if its amount is zero and no bill of its due is eligible |
| `Counterexamples.ZeroBillIsAllPaid` | `backend/internal/finance/service.go:771-775` | an unpaid bill of amount zero in a state without payments: any payment of it is refused as "all paid" |
| `BatchPayment.BatchEqualsSequence` | `backend/internal/finance/service.go:2080-2125` | a staff payment that settles several bills leaves the same bills, totals, ledger nets and location changes as settling them singly in any order of rising periods; only the number of rows differs |
| `BatchPayment.SinglesSettle` | `backend/internal/finance/service.go:766-879` | paying them singly in that order is never refused, and after `n` payments exactly the first `n` are settled |
| `BatchPayment.RequestSettlesFront` | `backend/internal/finance/service.go:1806-1987` | an accepted staff request that settles its bills, in period order, leaves out no earlier bill that still owes |
| `BatchPayment.NoneEarlier` | `backend/internal/finance/service.go:1900-1941` | while such bills are paid one by one, the next bill is never preceded by another one that owes |
| `Reservations.PendingNeverOverbooks` | `backend/internal/finance/service.go:899-911` | in runs without staff payments, approved plus pending money never exceeds a non-voluntary bill |
| `Reservations.ApprovalNeverOverpays` | `backend/internal/finance/service.go:1157-1223` | approving a pending payment of non-voluntary bills then never fails as already paid or overpaid and never turns into a rejection |
| `Reservations.SingleApprovalExact` | `backend/internal/finance/service.go:1142-1223` | with staff payments allowed, a permitted approval of a one-bill payment, to any fitting location, succeeds if and only if the bill is active, not cancelled and voluntary, or else obligatory with room beside the approved money |
| `Reservations.MultiApprovalExact` | `backend/internal/finance/service.go:1325-1374` | a permitted approval of a multi-period payment succeeds if and only if every covered bill is active, obligatory, neither paid nor cancelled, and has room for its part beside the approved money |
| `Reservations.StaffStrandsCovering` | `backend/internal/finance/service.go:798-841` | once staff settle a non-voluntary bill that a pending payment covers, alone or among others, no verifier can approve that payment to any location |
| `Reservations.StaffStrandsPending` | `backend/internal/finance/service.go:798-816` | whenever a resident and staff may both pay a bill in full, doing both leaves the resident's payment pending and refused as already paid |
| `Counterexamples.ResidentStranded` | `backend/internal/finance/service.go:798-816` | a reachable state: a resident submits the oldest bill, staff record it too, and the pending payment is refused as already paid |
| `PaymentStore.PaymentService.BillUpdateStatus` | `backend/internal/finance/repository.go:686-702` | writes one status if the bill exists and nothing else |
| `PaymentStore.PaymentService.ReconcileBillStatus` | `backend/internal/finance/service.go:931-955` | leaves exactly the recomputed status on one bill, and a cancelled one alone |
| `PaymentStore.PaymentService.ReconcilePayment` | `backend/internal/finance/service.go:2569-2593` | one or many reconciliations in place leave the bills the recomputation of all covered bills gives, first bill included twice or not |
| `PaymentStore.PaymentService.CreateBillPayment` | `backend/internal/finance/service.go:719-929` | refuses, inserts, updates the status and posts in place exactly as the specified step, and leaves all tables alone on refusal |
| `PaymentStore.PaymentService.CreateDonation` | `backend/internal/finance/service.go:674-717` | the same for a donation |
| `PaymentStore.ValidateRequest` | `backend/internal/finance/service.go:1726-1800` | the checks of the request, with their sets, map and running total, find the error the specification states by quantifiers |
| `PaymentStore.HasDuplicate` | `backend/internal/finance/service.go:1741-1747` | the scan finds a duplicate if and only if the ids are not pairwise distinct |
| `PaymentStore.SumAllocations` | `backend/internal/finance/service.go:1782-1790` | the running total is the sum of the allocations, unless one is negative |
| `Payments.ByBillAscends` | `backend/internal/finance/service.go:1806-1813` | bills are locked and looked up in ascending order of their ids, whatever the order of the request |
| `PaymentStore.PaymentService.LoadBills` | `backend/internal/finance/service.go:1806-1888` | locks and reads each requested bill in ascending order of ids, stopping at the first that cannot be paid, and caches what stood in the tables |
| `PaymentStore.PaymentService.CheckQueues` | `backend/internal/finance/service.go:1900-1941` | grouping by due and checking each group once gives the first error of checking every allocation |
| `PaymentStore.PaymentService.CheckAmounts` | `backend/internal/finance/service.go:1956-1987` | checks each allocation against its cached remaining balance |
| `PaymentStore.PaymentService.SettleAllocations` | `backend/internal/finance/service.go:2081-2095` | the loop over allocations, from totals cached before the insertion, settles every allocated bill and no other |
| `PaymentStore.PaymentService.CreateMultiPeriodPayment` | `backend/internal/finance/service.go:1725-2147` | the whole call is the specified step, whose acceptance and effects are `PaymentOutcomes.MultiAcceptedExactly` and `MultiPaymentRecorded` |
| `PaymentStore.PaymentService.VerifyPayment` | `backend/internal/finance/service.go:1021-1139` | the whole call is the specified step, whose effects are `PaymentOutcomes.DecisionRecorded`, and which reports whether an approval became a rejection |
| `PaymentStore.PaymentService.VerifySinglePayment` | `backend/internal/finance/service.go:1142-1296` | approves one bill, or rejects for lack of room, exactly as specified |
| `PaymentStore.PaymentService.VerifyMultiPeriodPayment` | `backend/internal/finance/service.go:1300-1446` | re-checks every bill in ascending order of ids before any change, then settles all and posts one row |
| `PaymentStore.PaymentService.ValidatePaymentLocation` | `backend/internal/finance/service.go:957-996` | finds the error of a location that is missing, closed or of the wrong kind |
| `PaymentStore.PaymentService.FindIncomeRow` | `backend/internal/finance/service.go:2496-2509` | finds the oldest income row of a payment that reverses nothing |
| `PaymentStore.PaymentService.ReverseApprovedPayment` | `backend/internal/finance/service.go:2482-2593` | posts the compensation, marks the payment and recomputes its bills exactly as specified |
| `PaymentStore.PaymentService.CancelBill` | `backend/internal/finance/service.go:1687-1708` | cancels only an unpaid bill that no approved payment reaches |
| `PaymentStore.PaymentService.UpdateBillStatus` | `backend/internal/finance/service.go:523-545` | a settled bill cannot be deactivated |
| `PaymentStore.PaymentService.BillCreate` | `backend/internal/finance/repository.go:398-426` | inserts an unpaid bill unless its key exists |
| `Idempotency.PaidAtMostOnce` | `backend/internal/finance/handler.go:1340-1389` | over all interleavings, lost sessions, crashes and failed or ambiguous commits, a key is paid at most once and never without its stored 201 |
| `Idempotency.AnswersAreStored` | `backend/internal/finance/idempotency.go:91-131` | an answer below 500 from a handler that did not panic past its save, and every replay, is the stored response of the same user, path and body if and only if the handler did not panic |
| `Idempotency.SentIsStoredExactly` | `backend/internal/finance/idempotency.go:91-131` | at the moment `Finish` sends the answer it is the stored one if and only if the handler did not panic; after a panic past the save a 201 goes out with nothing stored and nothing paid |
| `Idempotency.PanickedRun` | `backend/internal/http/panic_recovery.go:11-28` | a run: a handler panics before it wrote anything, so 200 with an error text is sent and 0 stored; the retry panics on that 0 and keeps its key locked |
| `Idempotency.UnpaidCreatedRun` | `backend/internal/finance/idempotency.go:91-131` | a run: a handler panics between save and commit, so 201 is sent and neither payment nor response is kept |
| `Idempotency.LeakedHolds` | `backend/internal/finance/idempotency.go:191-220` | a request that panicked in its replay keeps its key locked for every other connection through every step but the end of its own session or process |
| `Idempotency.SameKeySameAnswer` | `backend/internal/finance/idempotency.go:191-205` | two requests with one key that both get past the guard with an answer below 500, from handlers that did not panic, get the same answer |
| `Idempotency.PaidKeyAnswersCreated` | `backend/internal/finance/handler.go:1367-1375` | once a key is paid, every answer below 500 past the guard is the 201 |
| `Idempotency.CreatedMeansPaid` | `backend/internal/finance/handler.go:1340-1389` | over all interleavings a stored 201 means its key is paid, unless a handler of that key panicked after serving the payment and before saving its response |
| `Idempotency.ToldCreatedIsPaid` | `backend/internal/finance/idempotency.go:191-205` | so does a 201 told by a replay or by a handler that did not panic |
| `Idempotency.FinishStoresUnpaidExactly` | `backend/internal/finance/idempotency.go:91-131` | while nothing is stored for the key, `Finish` on a living session stores a 201, always without a payment, if and only if its handler panicked there and the write is done |
| `Idempotency.UnpaidStoredRun` | `backend/internal/finance/idempotency.go:91-131` | a run: a handler panics after serving and before saving, its 201 is stored with nothing paid, and the retry replays it |
| `Idempotency.OneInsidePerKey` | `backend/internal/finance/idempotency.go:154-180` | in every run no two live requests of one key are between lock and unlock, although keys may collide on a lock and pooled sessions may still hold one |
| `Idempotency.InsertNeverConflicts` | `backend/internal/finance/repository.go:2029-2039` | while a live request may still store its response, no response is stored for its key and no other live request may store one |
| `Idempotency.StoredForever` | `backend/internal/finance/idempotency.go:91-131` | a response stored at any point of a run is there, unchanged, at its end |
| `Idempotency.NextKeeps` | `backend/internal/finance/idempotency.go:136-220` | every step of every request keeps the protocol's invariant |
| `Idempotency.UndisturbedIsPaid` | `backend/internal/finance/handler.go:1263-1397` | an undisturbed request with a fresh key is paid once, answered 201, and leaves its lock free |
| `Idempotency.UnlockFreesExactly` | `backend/internal/finance/idempotency.go:125-130` | after an answer the key is free for another connection if and only if the unlock takes effect and the session held the lock once |
| `Idempotency.ReleaseFreesExactly` | `backend/internal/finance/idempotency.go:159-196` | when the guard itself gives up, after a failed try-lock, a failed read or a conflict, the key is free for another connection if and only if the unlock takes effect and the session held the lock once; a session that does not own the lock leaves all locks alone |
| `GuardOutcomes.GuardRefuses` | `backend/internal/finance/idempotency.go:154-205` | over all interleavings the guard itself answers only 408, 409 or 500, and 409 only to a request whose key is stored for another user, path or body |
| `GuardOutcomes.ConflictIsRefused` | `backend/internal/finance/idempotency.go:191-196` | a request whose key is stored for another one gets no answer below 500 but 408 or 409, unless its handler panicked past its save |
| `GuardOutcomes.ConflictLeavesLocks` | `backend/internal/finance/idempotency.go:191-196` | a whole request refused with 409, its unlock applied, leaves locks, responses and payments as it found them |
| `GuardOutcomes.FailedReadLeavesLocks` | `backend/internal/finance/idempotency.go:182-190` | so does one whose look-up fails, with 500 |
| `GuardOutcomes.FailedLockLeavesExactly` | `backend/internal/finance/idempotency.go:163-168` | one whose try-lock fails leaves the locks alone if and only if the attempt had taken the lock all the same or the session did not hold it before; else its release takes an earlier hold of the session away |
| `GuardOutcomes.BusyLeavesNoTrace` | `backend/internal/finance/idempotency.go:172-180` | an attempt on a busy key gives its connection back and leaves the world as it was; giving up answers 408 |
| `GuardOutcomes.RefusalIsTold` | `backend/internal/finance/handler.go:1279-1334` | a request refused before its transaction is told so, the refusal is stored, nothing is paid and the lock is free |
| `GuardOutcomes.FailureIsTold` | `backend/internal/finance/handler.go:1336-1343` | a transaction that cannot be opened is told as 500; nothing is stored or paid and the key can be tried again |
| `GuardOutcomes.ServiceRefusalIsTold` | `backend/internal/finance/handler.go:1346-1361` | a payment refused by the service is told and stored like any refusal |
| `GuardOutcomes.LateFailureIsTold` | `backend/internal/finance/handler.go:1363-1382` | a failed save or commit is told as 500 and keeps neither payment nor response |
| `GuardOutcomes.LostCommitIsPaid` | `backend/internal/finance/handler.go:1373-1382` | a commit that is done but reported failed is told as 500 although payment and response are kept |
| `GuardOutcomes.WithdrawnExactly` | `backend/internal/finance/idempotency.go:101-123` | an answer below 500 that is not stored yet is withdrawn if and only if storing it is reported failed, the session is gone or the key is stored; a write done but reported failed stores it all the same |
| `GuardOutcomes.StoredKeyNotSaved` | `backend/internal/finance/idempotency.go:74-89` | a response joins the payment's transaction if and only if the write is done, the session lives and the key is not stored |
| `GuardOutcomes.EndedSessionFreesExactly` | `backend/internal/finance/idempotency.go:125-130` | the end of a session, lost or crashed, frees exactly the locks it held, however often, and undoes nothing that is stored or paid |
| `GuardOutcomes.DeadSessionDoesNothing` | `backend/internal/finance/idempotency.go:67-72` | without its session a request locks, reads, begins and creates nothing, and nothing of it is paid or stored |
| `Idempotency.StrandedRun` | `backend/internal/finance/idempotency.go:125-130` | a run: one unlock fails, the retry reuses the pooled session, replays and unlocks, and the key stays locked for every other connection with no request left on the session |
| `GuardedHandler.AcquireLock` | `backend/internal/finance/idempotency.go:157-180` | the loop ends with the lock if and only if some attempt acquires it and all earlier ones found it busy, and with 408 if and only if all did |
| `GuardedHandler.ResponseRecorder.Write` | `backend/internal/finance/idempotency.go:31-36` | writing appends to the body and sets 200 only when no status was set |
| `GuardedHandler.ResponseRecorder.Flush` | `backend/internal/finance/idempotency.go:44-51` | sends status and body once |
| `GuardedHandler.IdempotencySession.Save` | `backend/internal/finance/idempotency.go:74-89` | stages the recorded response once, never after `Finish` and never for a server error |
| `GuardedHandler.IdempotencySession.Finish` | `backend/internal/finance/idempotency.go:91-131` | only the first call acts, and it does what the protocol's finishing step does |
| `GuardedHandler.StoreAndCommit` | `backend/internal/finance/handler.go:1367-1389` | record, save and commit leave what the protocol's commit step leaves, or the withdrawn 500 |
| `GuardedHandler.CreatePayment` | `backend/internal/finance/handler.go:1252-1398` | a handler that returns and its deferred `Finish` together do exactly what the protocol says and answer exactly once |
| `FundStore.FundBooks.TransactionCreate` | `backend/internal/finance/repository.go:1560-1673` | appends the row, and one signed balance change exactly when it names a location |
| `FundStore.FundBooks.CreateManualTransaction` | `backend/internal/finance/service.go:1480-1587` | refuses or posts exactly as specified; an expense never exceeds its location's balance |
| `FundStore.FundBooks.ReverseTransaction` | `backend/internal/finance/service.go:1589-1683` | posts the opposite of a row once, and never of a reversal |
| `FundStore.FundBooks.CreateTransfer` | `backend/internal/fund_location/repository.go:258-354` | refuses or appends a transfer with both balance changes exactly as specified |
| `FundStore.FundBooks.ReverseTransfer` | `backend/internal/fund_location/repository.go:434-519` | refuses or appends the opposite transfer exactly as specified |
| `FundStore.FundBooks.SetOpeningBalance` | `backend/internal/fund_location/repository.go:521-596` | follows the specified operation, whose bound by the unallocated cash is `FundOutcomes.OpeningExactly` |
| `FundStore.FundBooks.DeactivateLocation` | `backend/internal/fund_location/repository.go:201-238` | closes only a location with balance zero |
| `FundLocation.BookOpKeepsBooks` | `backend/internal/fund_location/repository.go:258-354` | every ledger operation keeps the books consistent: balances non-negative and explained by their rows, every row traced |
| `FundLocation.TransferConserves` | `backend/internal/fund_location/repository.go:333-351` | a transfer moves its amount between its two locations, changes no other and leaves the total alone |
| `FundLocation.ReversalUndoesTransfer` | `backend/internal/fund_location/repository.go:484-515` | an accepted reversal takes back exactly what the transfer did to each location |
| `FundLocation.TransferRoundTrip` | `backend/internal/fund_location/repository.go:434-519` | right after a transfer its reversal is accepted, restores both locations, and neither it nor a reversal of it can follow |
| `FundLocation.StaleReversalExactly` | `backend/internal/finance/service.go:1602-1612` | of two overlapping reversals of one row, the second, whose check came before the first one's row, is also posted and takes the money back twice if and only if the row is an expense, names no location, or its location held the amount twice; a later call is refused |
| `FundLocation.NoAnomalies` | `backend/internal/fund_location/repository.go:679-715` | in consistent books the report's anomaly list is empty |
| `FundLocation.TotalIsSumOfBalances` | `backend/internal/fund_location/repository.go:627-640` | the total over all changes is the sum of the location balances |
| `FundLocation.KasExactly` | `backend/internal/fund_location/repository.go:537-562` | without manual period records the cash balance is the overall net except for what happened at the very first moment of next month when that is the latest |
| `FundLocation.BoundaryTxnMissed` | `backend/internal/fund_location/repository.go:608-620` | an income at exactly that moment is missing from the cash balance |
| `FundLocation.UnallocatedExplained` | `backend/internal/fund_location/repository.go:641-645` | away from that boundary, cash minus allocated money is the net of unlocated transactions less opening balances |
| `FundLocation.ReportVerdict` | `backend/internal/fund_location/repository.go:641-651` | the report flags a discrepancy if and only if unlocated spending exceeds what was left beside the openings, and notes unallocated cash if and only if some is left |
| `FundOutcomes.ManualExactly` | `backend/internal/finance/service.go:1480-1587` | a manual transaction is accepted if and only if it is positive and names an open location that holds an expense, or none where none is required; it posts exactly that row and moves the cash and that balance by it |
| `FundOutcomes.ReversalExactly` | `backend/internal/finance/service.go:1589-1683` | a row is reversed if and only if it is there, reverses nothing, has no reversal, and an income is still at its location; the opposite row takes its effect back, and neither can be reversed again |
| `FundOutcomes.TransferExactly` | `backend/internal/fund_location/repository.go:258-354` | a transfer is accepted if and only if it goes between two different open locations with a positive amount that the first holds; exactly the two balances move |
| `FundOutcomes.TransferReversalExactly` | `backend/internal/fund_location/repository.go:434-519` | a transfer is taken back if and only if it is there, is no reversal, has none, and its receiver still holds the amount; then neither can follow again |
| `FundOutcomes.OpeningExactly` | `backend/internal/fund_location/repository.go:521-596` | an opening balance is accepted if and only if it is positive, its location exists, and the cash is not negative and covers it together with all that lies in locations; then no more lies in locations than there is cash, the location holds the amount more, and no other balance changes |
| `FundOutcomes.AddedLocationIsEmpty` | `backend/internal/fund_location/repository.go:26-52` | a new location is open and empty and changes no other |
| `FundOutcomes.DeactivationExactly` | `backend/internal/fund_location/repository.go:201-238` | a location is closed if and only if it exists and holds nothing |
| `FundOutcomes.ClosedBalanceMovesExactly` | `backend/internal/fund_location/repository.go:528-536` | the balance of a closed location moves if and only if an opening balance there, or the reversal of a transaction or transfer that touched it, is accepted: these do not look whether it is open |
| `FundOutcomes.ClosedLocationFunded` | `backend/internal/fund_location/repository.go:528-536` | books with cash of 100 and one closed location: an opening balance of 60 is accepted there, and a second one refused |
| `FundOutcomes.ReportExactly` | `backend/internal/fund_location/repository.go:627-651` | the report is given if and only if the cash is not negative, shows the cash, the sum of all balances and their difference, and calls it a discrepancy if and only if more is allocated than there is |
| `FundOutcomes.AlterationNoticedExactly` | `backend/internal/fund_location/repository.go:684-707` | of one altered change in consistent books the report notices a different magnitude of a transaction's or transfer's change and nothing else: a flipped sign and an altered opening balance pass |
| `FundOutcomes.LossNoticed` | `backend/internal/fund_location/repository.go:679-683` | the report names every transaction whose balance change is lost |
| `FundOutcomes.BookRefusalsTrue` | `backend/internal/fund_location/repository.go:258-354` | every refused operation on consistent books changes nothing and names a reason that holds |
| `PeriodBalance.PeriodRefinesRollForward` | `backend/internal/finance/repository.go:2854-2972` | for every month the anchored opening and closing equal the month-by-month roll-forward with manual corrections; income, expense and count are `PostingMovesSummary` |
| `PeriodBalance.PostingMovesSummary` | `backend/internal/finance/repository.go:2942-2972` | one more transaction dated inside the span raises exactly the total of its own direction by its amount and the count by one, one outside none of the three; it moves the opening if and only if it lies before the month with no manual opening in between; net is income less expense, closing is opening plus net |
| `PeriodBalance.EmptyMonthIsZero` | `backend/internal/finance/repository.go:2942-2972` | without transactions income, expense, net and count are zero, and the month opens with the latest manual amount or zero |
| `PeriodBalance.OpeningIsRollForward` | `backend/internal/finance/repository.go:2882-2941` | the opening from the latest manual month plus one range sum is the opening of the recursion |
| `PeriodBalance.ClosingIsNetBalance` | `backend/internal/finance/repository.go:1941-1975` | without manual records and with an end past the last transaction, closing is `CalculateBalance`'s net |
| `PeriodBalance.CorrectionIsLocal` | `backend/internal/finance/repository.go:2975-3028` | a correction is refused if and only if it is negative; otherwise it changes only the stored opening, reports the one it replaces, and shifts the openings from its month up to the next manual month by one amount and no other opening |
| `PeriodBalance.ReportedShift` | `backend/internal/finance/repository.go:2854-2972` | the reported openings and closings shift together, by that amount |
| `FundStore.FundBooks.SetPeriodOpeningBalance` | `backend/internal/finance/repository.go:2975-3028` | writes the month's row and reports as replaced the opening of the roll-forward |
| `LockOrder.LockPlan` | `backend/internal/fund_location/repository.go:268-276` | transfers and their reversals take their two locks in ascending id |
| `LockOrder.EventEffect` | `backend/internal/fund_location/repository.go:268-290` | an advancing call takes exactly its next lock or ends holding nothing, an aborted one holds nothing, a new one begins without locks; no other call changes |
| `LockOrder.NoWaitCycle` | `backend/internal/fund_location/repository.go:457-465` | with any number of concurrent calls, no reachable state has a cycle of calls waiting for each other |
| `LockOrder.DeadlockFree` | `backend/internal/finance/service.go:1524-1528` | while a call is unfinished, some call can take its next lock or end |
| `LockOrder.CanFinish` | `backend/internal/fund_location/repository.go:529` | every reachable state can be driven to completion |
| `LockOrder.UnorderedTransfersDeadlock` | `backend/internal/fund_location/repository.go:268-276` | with the locks in request order two opposite transfers deadlock |
| `BillSync.SyncIsIdempotent` | `backend/internal/finance/sync_bills.go:205-240` | one pass reaches the fixpoint: a second one changes no row at all |
| `SyncOutcomes.SyncedKeysExactly` | `backend/internal/finance/sync_bills.go:30-201` | after a pass a household has a bill of a due for a month if and only if it had one or the code should issue it: for a current stay of an active household, an active non-voluntary due, and a month of a multi-month due's year with the household in by December, or a period already billed of a regular due |
| `SyncOutcomes.NewBillsExactly` | `backend/internal/finance/sync_bills.go:101-141` | every new bill is one of these, with the due's amount, the tenth day of its month or the issued date, unpaid, active, and obligatory if and only if the household lives there that month; none repeats an old key |
| `BillSync.YearIsBilled` | `backend/internal/finance/sync_bills.go:83-141` | after a pass every open occupancy has all twelve bills of each overlapping active multi-month due, each with the right obligation flag while unpaid |
| `BillSync.IssuedPeriodsAreBilled` | `backend/internal/finance/sync_bills.go:142-197` | after a pass every open occupancy has a bill, with the right flag while unpaid, for every period issued of each active regular due |
| `BillSync.ServedFlagsAreRight` | `backend/internal/finance/sync_bills.go:111-135` | whatever the flags were before, after a pass an unpaid bill that the pass serves is obligatory if and only if the household lives in the house some day of its month |
| `BillSync.FlagRightExactly` | `backend/internal/finance/sync_bills.go:111-135` | after a pass the flag of an unpaid bill follows the rule if and only if it did before or the pass serves the bill |
| `BillSync.OneRule` | `backend/internal/finance/repository.go:404-413` | the formulas of `BillCreate`, of `HouseholdUpdate` and of the sync give one flag: whether the stay has begun by the end of the month and not ended before it |
| `BillSync.SyncPreserves` | `backend/internal/finance/sync_bills.go:126-135` | no amount, due date or status of an existing bill changes, only flags of unpaid ones, and no key is duplicated |
| `BillSync.FlagsKeepAgreeing` | `backend/internal/finance/sync_bills.go:126-135` | if all unpaid bills' flags follow the rule before a pass they all do afterwards, new bills included |
| `BillSync.RecalculationAgrees` | `backend/internal/household/repository.go:773-785` | recomputing a moved stay's flags brings them in line with the sync's rule, and is a no-op if and only if they already were |
| `BillSync.UpsertIsStep` | `backend/internal/finance/sync_bills.go:126-135` | each upsert is a bill creation or a flag change of the payment engine, with the flag that `BillCreate` or a recomputation gives, so the sync keeps its invariants |
| `BillSync.BillTable.UpsertBill` | `backend/internal/finance/sync_bills.go:111-141` | inserts, corrects or leaves alone, and reports exactly the insertions |
| `BillSync.BillTable.CalendarYear` | `backend/internal/finance/sync_bills.go:101-110` | the loop over months yields January to December, each due on the tenth |
| `BillSync.BillTable.SyncHouseholdOccupancyBills` | `backend/internal/finance/sync_bills.go:22-201` | the nested loops compute the specified pass for one occupancy, and the count is the growth of the table |
| `BillSync.BillTable.SyncBillsForRT` | `backend/internal/finance/sync_bills.go:205-240` | the same for all open occupancies |
| `Occupancy.StepKeeps` | `backend/internal/household/repository.go:232-398` | every operation keeps histories chained, houses exclusive, and current residencies in current stays |
| `Occupancy.OneCurrentStay` | `backend/internal/household/repository.go:939-1094` | a house and a household each have at most one current occupancy, after any run |
| `Occupancy.OneCurrentResidency` | `backend/internal/household/repository.go:1857-1933` | a resident has at most one current residency, after any run |
| `Occupancy.ResidentsLiveInCurrentStays` | `backend/internal/household/repository.go:1097-1148` | a current residency belongs to an active resident and lies in a current occupancy |
| `Occupancy.StaysAreContiguous` | `backend/internal/household/repository.go:1022-1045` | of two neighbouring occupancies of a household the later begins the day the earlier ends |
| `Occupancy.ResidenciesAreContiguous` | `backend/internal/household/repository.go:1907-1930` | the same for the residencies of a resident |
| `Occupancy.OneHouseholdPerDay` | `backend/migrations/008_temporal_household_model.up.sql:85-90` | on any day at most one household lives in a house |
| `Occupancy.MoveTakesEveryone` | `backend/internal/household/repository.go:1047-1089` | a move takes along exactly the household's current residents |
| `Residence.ResidentMoveExactly` | `backend/internal/household/repository.go:1857-1933` | a resident is moved if and only if the resident lives somewhere since before the date and the household has a current stay |
| `Residence.ResidentArrives` | `backend/internal/household/repository.go:1907-1930` | from the date on the moved resident lives in the target household's current stay and nowhere else; every earlier day, and everybody else, is as before |
| `Residence.HouseholdMoveExactly` | `backend/internal/household/repository.go:939-1045` | a household is moved if and only if the house is named and free from the date on, and the household and everyone in it have been there since before the date |
| `Residence.HouseholdArrives` | `backend/internal/household/repository.go:1022-1045` | from the date on the moved household has the new house and no other; every earlier day, and every other household, is as before |
| `Residence.PeopleArrive` | `backend/internal/household/repository.go:1047-1089` | from the date on everyone living with it lives in its new stay; every earlier day, and everybody else, is as before |
| `Residence.ResidentDeactivation` | `backend/internal/household/repository.go:1936-1969` | a resident is deactivated if and only if active; the current residency ends today or a day after its start, no other row changes, and the resident can be moved no more |
| `Residence.ResidentLeaves` | `backend/internal/household/repository.go:1936-1969` | day by day: from that end on the resident lives nowhere, and nothing else changes |
| `Residence.HouseholdDeactivation` | `backend/internal/household/repository.go:1097-1148` | a household is deactivated if and only if active; its current stay and the current residencies in it end today or a day after their start, and no other row changes |
| `Residence.HouseholdLeaves` | `backend/internal/household/repository.go:1097-1148` | day by day: from that end on the household has no house, and nothing else changes |
| `Residence.NothingLeft` | `backend/internal/household/repository.go:1097-1148` | a deactivated household has no current stay and no current resident, and can neither move nor be joined |
| `Residence.HouseholdBegins` | `backend/internal/household/repository.go:232-398` | a household is created if and only if the house is named, the period has a day, and nobody has the house now or for any day of the period; the four rows are exactly these |
| `Residence.ResidentBegins` | `backend/internal/household/repository.go:1153-1268` | a resident is created without a household, or if and only if the household lives somewhere and the period has a day; the new resident lives in its current stay for that period, and everybody else as before |
| `Residence.RegistryRefusalsTrue` | `backend/internal/household/repository.go:939-1094` | in every reachable state every refusal of the registry names a reason that holds |
| `RegistryStore.HouseholdRepository.HouseholdCreate` | `backend/internal/household/repository.go:232-398` | refuses or inserts household, occupancy, head resident and residency exactly as specified |
| `RegistryStore.HouseholdRepository.HouseholdMove` | `backend/internal/household/repository.go:939-1094` | closes and opens the periods in place as specified; a constraint that fails late rolls everything back |
| `RegistryStore.HouseholdRepository.MoveResidencies` | `backend/internal/household/repository.go:1047-1089` | the loop over collected periods moves exactly the current residents, or fails if and only if one of them came on or after the date |
| `RegistryStore.HouseholdRepository.HouseholdDeactivate` | `backend/internal/household/repository.go:1097-1148` | ends the household's current residencies and occupancies, a day after their start at the earliest |
| `RegistryStore.HouseholdRepository.ResidentCreate` | `backend/internal/household/repository.go:1153-1268` | refuses or inserts the resident, with a residency unless there is no household |
| `RegistryStore.HouseholdRepository.ResidentMove` | `backend/internal/household/repository.go:1857-1933` | refuses or closes the current residency and opens the next exactly as specified |
| `RegistryStore.HouseholdRepository.ResidentDeactivate` | `backend/internal/household/repository.go:1936-1969` | ends the resident's current residency and nobody else's |
| `RateLimiting.RateLimiter.Allow` | `backend/internal/auth/rate_limiter.go:44-63` | one call under the mutex decides and updates its key's entry, and no other entry |
| `RateLimiting.SlidingIntervalBound` | `backend/internal/auth/rate_limiter.go:44-63` | for every run in time order, any interval no longer than the window contains at most twice the cap of allowed calls of a key |
| `RateLimiting.CountingWindowBound` | `backend/internal/auth/rate_limiter.go:56-61` | the calls allowed in one counting window are exactly what its entry counted, so at most the cap |
| `RateLimiting.LimitRespectedIffPositive` | `backend/internal/auth/rate_limiter.go:50-56` | the configured limit holds for all runs if and only if it is at least one: the first call of a window is always allowed |
| `RateLimiting.AllowedExactly` | `backend/internal/auth/rate_limiter.go:44-63` | in every run a call is let through if and only if no window of its key is open or the open one has let fewer calls through than the limit |
| `RateLimiting.BelowLimitAllowed` | `backend/internal/auth/rate_limiter.go:44-63` | a call with fewer than the limit let through on its key over the last window length is always let through |
| `RateLimiting.KeysAreIndependent` | `backend/internal/auth/rate_limiter.go:44-63` | a call on one key leaves the entry of every other key alone |
| `Money.MoneyRoundTrip` | `backend/internal/finance/money.go:20-62` | every amount from 0 below 2^63 cents survives printing and parsing, and so does its text |
| `Money.PatternMeansShape` | `backend/internal/finance/money.go:14` | the accepted texts are exactly those of the pattern: digits, optionally a dot and one or two digits |
| `Money.ShapeIsRead` | `backend/internal/finance/money.go:28-52` | text of that shape is accepted if and only if its whole part fits in 64 bits, as that many units and hundredths, one decimal digit standing for tenths, and its canonical text has two decimals and no leading zeros |
| `Money.OtherTextRefused` | `backend/internal/finance/money.go:21-27` | any other text is refused as malformed |
| `Money.TrimExactly` | `backend/internal/finance/money.go:21` | trimming removes the white space at both ends, all of it, and nothing else |
| `Money.NegativeText` | `backend/internal/finance/money.go:57-60` | a negative amount prints as its opposite behind a minus sign |
| `Money.SmallestText` | `backend/internal/finance/money.go:57-60` | the smallest 64-bit amount, whose opposite wraps around, prints with two minus signs and another one behind the point |
| `Money.NegativeTextRefused` | `backend/internal/finance/money.go:14` | no printed negative amount can be parsed |
| `Money.CanonicalTextExact` | `backend/internal/finance/money.go:20-53` | for accepted text, cents and canonical text are those of the value it denotes if and only if that value fits in 64 bits |
| `Money.SafeWholePart` | `backend/internal/finance/money.go:34-52` | with a whole part of at most 92233720368547757 no step overflows and the canonical text re-parses to itself |
| `Money.FirstOverflow` | `backend/internal/finance/money.go:34-52` | at the next whole part and eight cents the parsed amount wraps around to a negative number |

## Left out

- Several RTs: the model has one, so the cross-tenant anomaly of the report and the `rt_id` conditions of the queries do not appear.
- Payment and ledger arithmetic beyond 64 bits: amounts there are unbounded integers; only `Money` models the wrap-around, and the columns hold fewer than 16 digits.
- Error texts: refusals are one constructor per reason.
- `PaymentStore.PaymentService.CreateMultiPeriodPayment`: when the groups of several dues fail the queue check for different reasons, the source reports the one its map iteration reaches first, which it leaves open; the model reports the first in request order.
- The lookup of a resident's occupancy, proof files, categories, payment numbers, notes, notifications and audit rows.
- `UpdateDue` changing `is_voluntary` or `payment_rule`: both are fixed for each due, because the statements about non-voluntary and "full" dues depend on them.
- Ledger calls interleaved with each other: each is one atomic step of the runs. Location locks and, for reversals of transfers, a unique constraint justify this, except for overlapping reversals of one transaction, which runs are assumed not to contain and `FundLocation.StaleReversalExactly` describes.
- `ReverseTransaction` on rows that belong to a payment: excluded from runs by the hypothesis `PaymentInvariants.Admissible`, since the code does not refuse it.
- `UpdateDuePeriodStatus`, which sets the active flag of all bills of a due's month at once: runs set it bill by bill.
- `DeactivateDue` refusing a due that is closed already: closing is modelled as `UpdateDue` does it.
- Allocations as a table of their own: they are part of their payment's row, which is how they are written and never changed.
- The order of rows that SQL leaves open: `SELECT DISTINCT` in the sync is read in order of first appearance, and two bills of one due never share a period by the unique key.
- The implicit key-share locks of foreign keys, the advisory lock around opening balances, and bill locks: `LockOrder` covers the location rows only.
- Balances over date ranges, years or the empty period: the period theorems are about single months of years 0 to 9999 as month indices.
- The report's breakdown by category and the dashboard.
- The handlers that store their response outside the business transaction: the crash-tolerant claims are about `CreatePayment`.
- `GuardedHandler.CreatePayment`: covers handlers that return; panics are steps of the protocol in `Idempotency`, where it is assumed of the standard library that a status below 100 cannot be written and that a second status is ignored.
- Requests without an `Idempotency-Key` are not guarded, so they are not part of the protocol.
- `HouseholdUpdate` in the occupancy model, imports, relationship data, and the deactivation of physical houses: they rewrite history outside the modelled operations. Only the obligation flags it recomputes are modelled, in `BillSync`.
- Users, authentication, roles beyond resident and staff, HTTP parsing, JSON and storage.
