# KLIK: netting, settlement and standing orders, verified

KLIK clears payments between banks.  This project models the parts of it in which money, time and
retries have to agree, and proves what they promise for all inputs and all runs:

* **Netting and settlement** (`Netting`, `LargestRemaining`, `Optimality`, `Forest`, `Ledger`,
  `LedgerLaws`, `Settlement`, `PartialFailure`, `Pairs`, `Balance`, `LedgerService`): obligations are
  folded into net positions, the positions are settled by a greedy matching of two sorted pools, and a
  session takes ledger entries through OPEN, NETTING, SETTLING to COMPLETED or FAILED.
* **Standing orders** (`Calendar`, `Schedule`, `Recurring`, `MockBank`, `Aliases`, `RecurringSystem`,
  `MandateLife`, `RunLife`, `MoneyLife`, `Guarantees`, `Slots`, `Regularity`, `Timeouts`, `Endings`,
  `Replay`, `Operations`, `Requests`, `RecurringService`): mandates run in slots anchored in their start
  date; each run is claimed, looked up, sent to the paying bank over an unreliable network, retried and
  finalised.
* **Fees** (`Fees`, and booking in `Ledger`): fee agreements over time, the split of a gross amount,
  and the entries that a completed payment produces.

## How it is built

What the code changes in place is a class whose fields are the tables (`LedgerService`,
`RecurringService`, `MockBankProcess`, `AliasRegistry`, `AgreementTable`), or an array (the two pools of
the matching). Every method is proved equal to a function on the state, and the properties are proved
about these functions. What each operation does is also stated outright, case by case and without these
functions: in `Operations` for standing orders, in `LedgerLaws` for booking and for the gateway's
results, and in the contracts of the methods. Two step systems compose them: `Settlement.Step` with 8
kinds of steps on the ledger, and `RecurringSystem.Step` with 21 on KLIK, the banks and the messages
between them. `Run` folds a step over an arbitrary list of labels; a label that is not enabled leaves
the state alone. A state is reachable when some list of labels leads to it. So every result about
reachable states covers every interleaving of dispatch ticks, claims, lookups, sends, lost, late and
repeated messages, retries, pauses, resumptions and cancellations.

The main results are `Netting.NettingPreservesNet`, `Netting.NettingIsEconomical`,
`Optimality.GreedyIsOptimal`, `LargestRemaining.LargestPaysLargestIff`,
`Settlement.CompletedSessionsConserveMoney`, `Settlement.SessionsAreNettedOnce`,
`Balance.FailureBalancesIff`, `Balance.SessionBalancesIff`, `Schedule.NextSlotIsLeast`,
`Schedule.EstimateCountsSlots`, `Guarantees.EachRunIsPaidAtMostOnce`, `Guarantees.NothingIsUndone`,
`Requests.RunsStayWithinRequest`, `Operations.BankIsFair`, `Operations.RefusalDecides`,
`Operations.NoRunAfterCancellation`, `Timeouts.LateChargeIff`, `Endings.NothingAfterTheEnd`,
`Slots.EverySlotIsRunOrSkipped` and `Guarantees.RunsAreBilledOnce`.

## Modelling assumptions

* Amounts are whole cents, and percentages whole hundredths of a percent, so decimal arithmetic is
  exact.  The balances of the bank, floats rounded to cents in the source, are whole cents too.
* Rows are named by their position in a table, in place of UUIDs; no row is ever deleted.
* An instant is a number of microseconds since a fixed day; the calendar is the proleptic Gregorian
  one, without an upper end.  Adding months means the same day clamped to the end of the month, and
  the difference in months is taken as the library defines it; both are then characterised.
* `now` is read inside the atomic step.  The code reads it just before taking the row lock.
* Creating a session is one atomic step, although the code takes no lock for it.
* Each execution has one live chain of task calls, because the finalisers do not look at the status
  of the execution again.
* The execution hour and the failure threshold (at least 1) are constants of unspecified value.
* Idempotency keys of payments are distinct over all agents: the ledger recognises a payment by the
  bare key.
* The gateway answers for exactly the transfers of the session (`Settlement.Covers`);
  `Settlement.OutcomeOfResults` says what happens otherwise.
* The dictionaries of all bank processes are joined, since execution ids are unique; clients are told
  apart by their bank.  As in the mock bank, a revocation is lifted only by a resumption, of which the
  bank may take note at any later moment, or never.  `BankDeclines` stands for banks that refuse for
  reasons of their own.
* What other systems answer is a parameter: RTGS results, alias registrations, movements on the bank
  accounts of the clients other than standing orders.

## Where the code and its comments disagree

The model follows the code.

* Entries left open by a FAILED session "go to the next session" (ledger_service.py, lines 510-511
  and 525-526).  They do not, ever: `Settlement.FailedSessionsStrandTheirEntries`.
* A transfer "settles" the entries between its two banks (lines 506-511).  In a session that fails in
  part this need not agree with the money moved: `PartialFailure.FailedSessionsSettleByPair` says
  exactly which entries are settled, `PartialFailure.FailedSessionsNeedNotBalance` gives a run in
  which ten cents are settled for five cents moved.  COMPLETED sessions do balance; one that fails
  does if and only if each transfer that was carried out is the sum of the entries between its two
  banks (`Balance.FailureBalancesIff`).  Before the transfers are sent one can tell whether a session
  will balance whatever becomes of them: if and only if there is at most one, or each is such a sum
  (`Balance.SessionBalancesIff`).
* "In each iteration the largest debtor pays the largest creditor" (netting.py, lines 20-22).  The
  pools are sorted once, so this is true of the original positions
  (`Netting.GreedyServesLargestFirst`) and need not be of what remains
  (`LargestRemaining.PoolsAreNotSortedAgain`).  It is, if and only if no party of the sorted pools that
  is served in part is left with less than the next one has (`LargestRemaining.LargestPaysLargestIff`).
* A run that ends FAILED with NETWORK_TIMEOUT may have been paid:
  `Guarantees.GivingUpMayStillCharge` and `Guarantees.FailedRunsCanBeCharged`.  No other failure can
  (`Guarantees.OutcomesAgree`).  `Timeouts.LateChargeIff` says exactly when such a run is or may yet be
  charged; a run that ends this way without ever being sent, for want of a webhook, never is
  (`Timeouts.WithoutWebhookNeverCharged`).
* Creating a mandate again with its key is said to return it for good (views.py, lines 143-145).  The
  dates are checked before the key, so the very same request is refused once the start date has
  passed: `Guarantees.ReplayReturnsTheMandate` and `Replay.ReplayEndsWithTheStart` have the exact
  conditions, `Replay.ReplayIsRefusedNextDay` an example.
* SCHEDULED executions "are SKIPPED" after a pause (views.py, lines 351-352).  Neither state is ever
  visible: `Guarantees.NothingIsEverSkipped`.
* A merchant's share can be rounded down to zero; off-us, such a payment cannot be booked at all.
  `Ledger.PaymentIsBookedInFull` has the exact condition, `Ledger.OneCentCannotBeBooked` a case,
  `Fees.MerchantNetVanishesOnlyBelowOneCent` when it can arise.

## Model

| member | source | states |
|---|---|---|
| Netting.CalculateNetPositions | backend/ledger/services/netting.py:72-107 | the dictionary loop computes the fold `NetPositions` |
| Netting.NetPositionsCorrect | backend/ledger/services/netting.py:87-93 | exactly the banks that occur have a position, and it is received minus paid, self-obligations included |
| Netting.PositionsBalance | backend/ledger/services/netting.py:95-107 | positions total zero for any obligations, so the sanity check never fails |
| Netting.NetSumsToZero | backend/ledger/services/netting.py:95-107 | double entry: over any duplicate-free list of banks that contains all parties, net effects cancel |
| Netting.PoolsOfPositions | backend/ledger/services/netting.py:128-145 | debtors are exactly the banks below zero, creditors those above, no bank twice, all amounts positive |
| Netting.LargestFirstSorts | backend/ledger/services/netting.py:128-145 | the order of both pools: descending, a permutation, and stable (equal amounts keep their order) |
| Netting.Reduce | backend/ledger/services/netting.py:147-170 | one side of an iteration, in place: the head shrinks by the amount, and is passed exactly at zero |
| Netting.GreedyMatch | backend/ledger/services/netting.py:110-172 | the two-index loop over the arrays terminates and emits the matching of the sorted pools |
| Netting.MatchPays | backend/ledger/services/netting.py:147-170 | on any two pools the smaller one is used up: each of its members pays or gets its amount exactly; the volume is the smaller sum |
| Netting.GreedySettlesIffBalanced | backend/ledger/services/netting.py:110-172 | the transfers reproduce all positions if and only if the positions total zero |
| Netting.GreedyPaysExactly | backend/ledger/services/netting.py:128-170 | on balanced positions each debtor pays its debt and gets nothing, each creditor the reverse, a balanced bank takes no part |
| Netting.GreedyIsSmallAndWellFormed | backend/ledger/services/netting.py:24 | at most N-1 transfers for N unbalanced banks, all positive, none to oneself, no pair of banks twice |
| Netting.MatchShape | backend/ledger/models.py:236-245 | the constraints of the transfer table hold of every matching of pools without a common bank |
| Netting.GreedyServesLargestFirst | backend/ledger/services/netting.py:20-22 | earlier transfers come from debtors at least as large and go to creditors at least as large, by original position |
| LargestRemaining.PoolsAreNotSortedAgain | backend/ledger/services/netting.py:20-22 | three obligations for which the second transfer comes from a bank that still owes one cent, while another still owes two |
| LargestRemaining.AlwaysLargestIff | backend/ledger/services/netting.py:147-170 | in every round of the loop both heads are maxima of what remains, if and only if no party served in part is left with less than the next one; for any pools with sorted tails |
| LargestRemaining.RoundsAreTransfers | backend/ledger/services/netting.py:147-170 | the heads of a round are maxima exactly if its transfer is between two banks with most still open, before it |
| LargestRemaining.LargestPaysLargestIff | backend/ledger/services/netting.py:20-22 | the largest remaining debtor always pays the largest remaining creditor, if and only if a condition on the prefix sums of the two sorted pools holds; for all positions |
| Netting.GreedyIsTwoApproximation | backend/ledger/services/netting.py:26-28 | any settlement of the positions needs a transfer per debtor and one per creditor; greedy has fewer than twice as many as any other |
| Optimality.GreedyIsOptimal | backend/ledger/services/netting.py:24-28 | if no smaller group of unbalanced banks could settle among itself, every way to settle takes N-1 transfers or more, so none is shorter than greedy |
| Netting.GreedyMovesLeast | backend/ledger/services/netting.py:147-170 | the volume is the sum of the debts, and no list with the same net effect moves less |
| Netting.NetObligations | backend/ledger/services/netting.py:175-206 | fold and matching composed, with the shortcut for no obligations |
| Netting.SelfPaymentsAreNeutral | backend/ledger/services/ledger_service.py:421-424 | leaving out a bank's obligations to itself changes no net effect |
| Netting.NettingPreservesNet | backend/ledger/services/netting.py:175-206 | every bank's net effect is the same before and after netting, whatever the amounts, and the result is well formed |
| Netting.NettingIsEconomical | backend/ledger/services/netting.py:175-206 | never more volume than the non-self obligations or any list with the same effect, and fewer than twice the transfers |
| Fees.RoundsHalfUp | backend/agents/services/agent_service.py:63-65 | the rounded amount is the only whole number of cents within half a cent, ties going up |
| Fees.SplitIsFair | backend/agents/services/agent_service.py:49-60 | for percentages below 100 together: shares add up to gross, none is negative, each fee is its exact amount rounded half up |
| Fees.MerchantNetVanishesOnlyBelowOneCent | backend/agents/services/agent_service.py:51-53 | a merchant's share of zero means that its exact share was at most a cent; one cent at 50 % and 49.99 % is such a case |
| Fees.OverlapIsSharedInstant | backend/agents/models.py:153-170 | two agreements overlap if and only if some instant is active in both; overlap is symmetric |
| Fees.AgreementTable.Save | backend/agents/models.py:129-151 | which of the four outcomes a save has, exactly; it is accepted if and only if the fees are in range, the period is not empty, and no other agreement of the same agent is in force at a shared instant; the table changes only then, and stays consistent |
| Fees.SavedInPlainTerms | backend/agents/models.py:129-170 | the checks on the bounds of the periods amount to there being no shared instant with another agreement of that agent |
| Fees.SaveKeepsConsistent | backend/agents/models.py:133-151 | an accepted save leaves the agreements of each agent disjoint at every instant |
| Fees.SavesStayConsistent | backend/agents/models.py:133-151 | so does any sequence of saves, updates and rejected ones included |
| Fees.ActiveAgreementIsThere | backend/agents/services/agent_service.py:14-39 | the lookup finds an active agreement of the agent if and only if one exists |
| Fees.ActiveAgreementIsUnique | backend/agents/services/agent_service.py:14-39 | in a consistent table it returns the agreement that is active, whichever row it is |
| Fees.EverySplitIsFair | backend/agents/services/agent_service.py:41-60 | a split exists if and only if an agreement is active, and is then fair: each fee is what that agreement says, rounded half up, for every consistent table and positive amount |
| Ledger.PaymentIsBookedInFull | backend/ledger/services/ledger_service.py:84-155 | booked entries are all owed by the sender and add up to gross (off-us) or to the fees (on-us); booking fails exactly when an off-us share is zero; booking again changes nothing |
| LedgerLaws.EachBankGetsItsShare | backend/ledger/services/ledger_service.py:104-147 | for every bank the net effect of the booked entries is the merchant's share for the merchant's bank (off-us), the agent's fee for the agent's, KLIK's fee for the operator's (the sender where there is none), less all of it for the sender; banks may coincide |
| LedgerLaws.PaymentIsBookedRight | backend/ledger/services/ledger_service.py:84-147 | and each beneficiary occurs at most once, with its own amount and its own bank |
| LedgerLaws.WhenBookingFails | backend/ledger/services/ledger_service.py:74-92 | each refusal in the order of the checks, known keys, and failure exactly for an off-us share of zero or less |
| Ledger.OneCentCannotBeBooked | backend/ledger/models.py:124-127 | one cent off-us, under fees of 50 % and 49.99 %, is refused |
| LedgerService.LedgerService.RecordC2bTransaction | backend/ledger/services/ledger_service.py:57-155 | the four guards; the added entries are all owed by the sender, give each beneficiary its own amount at its own bank, and have for every bank exactly the net effect it is due; entries recorded before are returned instead |
| LedgerService.LedgerService.CreateSession | backend/ledger/services/ledger_service.py:318-340 | refused exactly when a session of the zone is OPEN, NETTING or SETTLING, else one OPEN session is added, started now and empty |
| LedgerService.LedgerService.AssignPendingEntriesToSession | backend/ledger/services/ledger_service.py:342-388 | links exactly the pending entries of the zone, and counts them |
| LedgerService.LedgerService.RunNetting | backend/ledger/services/ledger_service.py:390-459 | adds the netted transfers as PENDING rows and returns their ids in order |
| LedgerService.LedgerService.MarkSettled | backend/ledger/services/ledger_service.py:461-546 | the loop over the results is the fold, then the session closes |
| LedgerLaws.EveryRowIsMarked | backend/ledger/services/ledger_service.py:476-537 | for any results with distinct ids, what becomes of every row: the session COMPLETED exactly if all succeeded, each transfer by its own result, an entry settled now if it was open and either all succeeded or a transfer between its banks was carried out; nothing else changes |
| LedgerService.LedgerService.RunSettlementSession | backend/ledger/tasks.py:72-253 | from any sound state, and by steps of the ledger: skipped exactly if the zone is busy; else the session ends closed, holds every pending entry of the zone and no other, and is COMPLETED exactly if nothing was to be transferred or the RTGS carried out every transfer |
| LedgerService.LedgerService.DispatchAndSettle | backend/ledger/tasks.py:159-232 | one result per transfer, all refused if the RTGS is unavailable; COMPLETED if and only if all were carried out |
| Settlement.LinkingCounts | backend/ledger/services/ledger_service.py:355-380 | the recorded count and volume are those of the entries that the session really holds |
| Settlement.NettingKeepsValid | backend/ledger/services/ledger_service.py:390-459 | the planned transfers have, bank by bank, the net effect of the session's entries |
| Settlement.FinishingKeepsValid | backend/ledger/services/ledger_service.py:487-537 | applying the results and closing keeps every invariant, for any outcome of every transfer |
| Settlement.CompletingKeepsValid | backend/ledger/tasks.py:116-157 | so do the two shortcuts without transfers |
| Settlement.RunKeepsValid | backend/ledger/tasks.py:72-253 | the invariant of the ledger holds after any sequence of steps |
| Settlement.CompletedSessionConserves | backend/ledger/services/ledger_service.py:487-537 | in every sound state, money moved for a COMPLETED session equals its settled entries bank by bank, and no entry of it is open |
| Settlement.CompletedSessionsConserveMoney | backend/ledger/services/ledger_service.py:487-537 | so in every reachable state |
| Settlement.ReachableStatesAreSound | backend/ledger/services/ledger_service.py:318-388 | at most one active session per zone, entries only in sessions of their zone, FAILED only with a refused transfer, table constraints |
| Settlement.RunIsLater | backend/ledger/services/ledger_service.py:342-546 | over any run sessions only move on, no entry changes its session or joins one past OPEN, no transfer joins a netted one, settlement is never undone, closed sessions and answered transfers are final |
| Settlement.SessionsAreNettedOnce | backend/ledger/services/ledger_service.py:412-451 | after netting, over any run, a session is never in the state that netting asks for, and its entries and planned transfers never change |
| Settlement.FailedSessionsStrandTheirEntries | backend/ledger/services/ledger_service.py:355-359 | an entry left open by a FAILED session is never pending again and never settled |
| Settlement.OutcomeOfResults | backend/ledger/services/ledger_service.py:487-530 | for arbitrary results: COMPLETED if and only if every result is a success for a transfer of the session; a transfer without a result is untouched |
| PartialFailure.SettledByPair | backend/ledger/services/ledger_service.py:487-522 | an entry is settled by the loop if and only if some successful result is for the same two banks in its session |
| PartialFailure.FailedSessionsSettleByPair | backend/ledger/services/ledger_service.py:506-530 | in a session that ends FAILED, an entry is settled if and only if a transfer between its two banks was carried out |
| PartialFailure.FailedSessionsNeedNotBalance | backend/ledger/services/ledger_service.py:506-511 | a reachable FAILED session that moved five cents for a bank and settled ten, and left another entry open |
| Forest.NettedIsForest | backend/ledger/services/netting.py:147-170 | the transfers of any netting form a forest: a bank only pays or is only paid, and of each transfer one party takes no part in the later ones |
| Forest.NoFlowWithoutEffect | backend/ledger/services/netting.py:147-170 | in a forest, amounts that change no bank's position are all zero |
| Pairs.MatchingSumsBalance | backend/ledger/services/ledger_service.py:506-517 | if each transfer is the sum of the payments between its two banks, the payments between these banks have the net effect of the transfers |
| Balance.FailureSettlesBetween | backend/ledger/services/ledger_service.py:487-530 | what a failing session settles is the part of its entries between the banks of the transfers that moved |
| Balance.FailureBalancesIff | backend/ledger/services/ledger_service.py:506-530 | a session that fails has moved what it has settled, if and only if each transfer carried out is the sum of the entries between its two banks |
| Balance.SessionBalancesIff | backend/ledger/services/ledger_service.py:506-537 | a session about to be sent balances for every outcome, if and only if it has at most one transfer or each is the sum of the entries between its two banks |
| Calendar.MonthsAreAdjacent | backend/recurring/schedule.py:10-12 | from the leap-year rule: months follow each other without gap |
| Calendar.OrdinalsOrderDates | backend/recurring/schedule.py:61-68 | day numbers order dates as the calendar does, and determine them |
| Calendar.AddMonths | backend/recurring/schedule.py:39-41 | the same day n months later, clamped to the last day of that month |
| Calendar.MonthsBetweenIsLargest | backend/recurring/schedule.py:66-68 | the difference in months is the largest m with start + m months not after the date |
| Schedule.ComputeNextRunAt | backend/recurring/schedule.py:49-75 | the search loop from the closed-form guess ends after at most one round with `NextSlot` |
| Schedule.SlotsIncrease | backend/recurring/schedule.py:29-41 | slots strictly increase with their number, clamped months included |
| Schedule.SlotZero | backend/recurring/schedule.py:44-46 | the first run is slot 0 |
| Schedule.SlotsFollowTheCycle | backend/recurring/schedule.py:29-41 | slots are 1 or 7 days apart, or on the same day of each month, clamped to its end; all at the configured hour |
| Schedule.LastSlotBrackets | backend/recurring/schedule.py:61-68 | the closed form is exact for all cycles: its slot is not after the date, the following one is |
| Schedule.GuessIsTight | backend/recurring/schedule.py:57-75 | the guess never skips a slot, and the slot after it is always late enough |
| Schedule.NextSlotIsLeast | backend/recurring/schedule.py:49-75 | the computed run is the least slot strictly after the given instant, for every start, cycle and instant |
| Schedule.EstimateCountsSlots | backend/recurring/schedule.py:78-96 | slot n lies on or before the end date if and only if n is below the estimate |
| Schedule.SkippingNeverGoesBack | backend/recurring/views.py:413-418 | skipping missed slots on resumption never moves the next run back |
| RecurringService.RecurringService.CreateMandate | backend/recurring/views.py:132-239 | errors in the order of the checks, replay by key; for a positive amount, acceptable dates, a new key and a known alias exactly one row is added: ACTIVE, with all terms of the request, its next run the first slot, and no failures; otherwise none |
| RecurringService.RecurringService.PauseMandate | backend/recurring/views.py:355-371 | each refusal by the first check that fails; otherwise the mandate is PAUSED as of now and nothing else changes |
| RecurringService.RecurringService.ResumeMandate | backend/recurring/views.py:399-429 | each refusal by the first check that fails; otherwise the mandate is ACTIVE without failures, its next run is the least slot after now, and nothing else changes |
| RecurringService.RecurringService.CancelMandate | backend/recurring/views.py:465-482 | each refusal by the first check that fails, and then no change; otherwise the mandate is CANCELLED as of now, with exactly one notice, and no other is touched |
| RecurringService.RecurringService.DispatchDueRecurringTransfers | backend/recurring/tasks.py:54-83 | queues only ACTIVE mandates whose next run has come, none twice, at most 1000, and all of them if there are fewer |
| RecurringService.RecurringService.ClaimExecution | backend/recurring/tasks.py:133-199 | the four branches of a claim: not active, not due, past the end, or a new execution and the following slot |
| RecurringService.RecurringService.LookupRecipient | backend/recurring/tasks.py:202-242 | a hit is billed once and stored, a miss fails the run and costs nothing |
| RecurringService.RecurringService.CallBankAndFinalize | backend/recurring/tasks.py:245-324 | retry below the limit, failure at it, else the bank's answer decides |
| RecurringService.RecurringService.FinalizeSuccess | backend/recurring/tasks.py:327-376 | the new execution, mandate and notices |
| RecurringService.RecurringService.FinalizeFailure | backend/recurring/tasks.py:379-447 | the new execution, mandate and notices: cancelled, paused or counted, by reason and threshold |
| RecurringService.RecurringService.ExecuteRecurringRun | backend/recurring/tasks.py:91-130 | first calls and retries composed; a first call that claims bills one lookup, a retry none, and a finished run is left alone; the invariant of the mandates is kept |
| Operations.PausingPauses | backend/recurring/views.py:355-371 | in any state, pausing takes effect exactly if the asking bank owns the mandate and it is ACTIVE; otherwise nothing changes |
| Operations.ResumingResumes | backend/recurring/views.py:399-429 | resuming takes effect exactly for the owner of a PAUSED mandate; the next run is the least slot after now |
| Operations.CancellingCancels | backend/recurring/views.py:465-482 | cancelling takes effect exactly for the owner of an ACTIVE or PAUSED mandate: CANCELLED as of now, one notice, all else unchanged |
| Operations.NoRunAfterCancellation | backend/recurring/views.py:465-482 | after an accepted cancellation no run of any length adds an execution of the mandate, and it stays CANCELLED |
| Operations.CreatingNothing | backend/recurring/views.py:192-223 | which refusal a request gets, and when the mandate of its key is returned instead |
| Operations.CreatingCreates | backend/recurring/views.py:141-178 | a request that is in order, has a new key and a known alias adds exactly one fresh mandate with all its terms; any other adds none |
| Operations.ClaimsTakeDueSlots | backend/recurring/tasks.py:156-195 | a queued ACTIVE mandate that is due is completed with a notice if its slot lies past the end date, else gets an execution for that slot and the least later slot as its next run; nothing else is ever claimed |
| Operations.LookupKeepsRecipient | backend/recurring/tasks.py:202-242 | a lookup stores exactly the bank and account of the alias; without an alias the run fails for that reason |
| Operations.CallsAskForTheMandate | backend/recurring/tasks.py:266-279 | every call of an open run asks for the payer and amount of the mandate and the recipient looked up |
| Operations.NoWebhookFails | backend/recurring/tasks.py:256-264 | without a webhook the run fails at once |
| Operations.SilenceIsRetried | backend/recurring/tasks.py:285-307 | three unanswered attempts are followed by another one, the fourth fails the run |
| Operations.ExecutionSucceeds | backend/recurring/tasks.py:327-369 | an executed run is a success; the failures are forgotten, and the mandate is completed, with a notice, if and only if it is ACTIVE and its next slot lies past the end date |
| Operations.RefusalFails | backend/recurring/tasks.py:309-439 | the full effect of a refusal: the recorded reason (OTHER for anything unknown), one more failure, the new status and its notice; nothing else changes |
| Operations.RefusalDecides | backend/recurring/tasks.py:46-46 | an ACTIVE mandate is CANCELLED if and only if the client has revoked it or closed his account; else PAUSED if and only if the bank has blocked it or the failures in a row reach the threshold; else it stays ACTIVE; any other keeps its status |
| Requests.MandatesAreAsRequested | backend/recurring/views.py:165-178 | in every reachable state each mandate has all the terms of the accepted request that created it |
| Requests.RunsStayWithinRequest | backend/recurring/schedule.py:78-96 | a client who asked for an end date never gets a run after it, nor more runs than estimated for his request |
| Requests.BanksAreAskedAsRequested | backend/recurring/tasks.py:266-279 | every call ever sent names the payer and the amount of the request that created the mandate |
| Aliases.AliasRegistry.RegisterAlias | backend/aliases/services/alias_service.py:65-129 | a number is registered once; otherwise no change |
| Aliases.AliasRegistry.UnregisterAlias | backend/aliases/services/alias_service.py:178-201 | only by its owner; otherwise no change |
| Aliases.AliasRegistry.LookupForBank | backend/aliases/services/alias_service.py:135-172 | a hit adds one to both counters of the asking bank and to no other, a miss nothing |
| Operations.AliasesAreKept | backend/aliases/services/alias_service.py:65-201 | a registered number keeps its bank and account through every step, but for its own bank unregistering it |
| MockBank.MockBankProcess.WebhookRecurringExecute | bank_IO/backend/main.py:438-501 | a known execution gets its old answer and changes nothing; a new one is EXECUTED if and only if the mandate is not revoked, the client exists and has at least the amount, and then exactly that client pays exactly the amount; each refusal has its own reason; the answer is kept, and no answer is ever replaced |
| MockBank.ExecuteIsFair | bank_IO/backend/main.py:446-482 | the same of the bank in the system of steps, for every new request |
| Operations.BankIsFair | bank_IO/backend/main.py:446-482 | in every reachable state a request asks for the amount and the payer of its mandate; it gets the old answer or is judged as above, and the answer is sent |
| MandateLife.StepKeepsMandates | backend/recurring/tasks.py:133-447 | every step of the system keeps the invariant of every mandate |
| RunLife.StepKeepsRuns | backend/recurring/tasks.py:133-324 | every step keeps the invariant of executions, tasks and messages |
| MoneyLife.StepKeepsMoney | bank_IO/backend/main.py:446-486 | every step keeps balances equal to other movements minus the debits of executed runs |
| MoneyLife.StepKeepsBilling | backend/aliases/services/alias_service.py:153-172 | every step keeps both lookup counters equal to the lookups made, and run lookups equal to snapshots |
| MoneyLife.RunKeepsInvariant | backend/recurring/tasks.py:54-447 | all of it holds after any sequence of steps |
| Guarantees.EachRunIsPaidAtMostOnce | bank_IO/backend/main.py:446-486 | in every reachable state standing orders have cost an account exactly amount times the number of executions answered EXECUTED, mandate by mandate |
| Guarantees.NoSlotIsRunTwice | backend/recurring/tasks.py:175-195 | two executions of a mandate are for different slots, in increasing order |
| Guarantees.OutcomesAgree | backend/recurring/tasks.py:245-324 | SUCCESS implies that the bank executed; FAILED for any reason but a timeout that it did not; without an alias it was never asked |
| Guarantees.GivingUpMayStillCharge | backend/recurring/tasks.py:285-294 | if the last attempt is given up before the bank handles a request it can pay, the run is FAILED and charged |
| Guarantees.FailedRunsCanBeCharged | backend/recurring/tasks.py:285-294 | such a state is reachable |
| Timeouts.RunKeepsSettled | bank_IO/backend/main.py:446-482 | once nothing under way for a finished run can be paid, no run of the system ever executes it |
| Timeouts.LateChargeIff | backend/recurring/tasks.py:285-294 | a run FAILED with a timeout is or may yet be charged, if and only if the bank has executed it, or has not decided while a request is under way that names one of its clients, whose mandate is not revoked or may yet be resumed |
| Endings.NothingAfterTheEnd | backend/recurring/tasks.py:156-174 | after a mandate is CANCELLED or COMPLETED it gets no further execution over any run, and charges at most those still open or timed out at that moment |
| Timeouts.WithoutWebhookNeverCharged | backend/recurring/tasks.py:256-264 | a run that was never sent, for want of a webhook, fails with a timeout and is never charged |
| Guarantees.RunsStayWithinEstimate | backend/recurring/schedule.py:78-96 | a mandate with an end date never has more executions than estimated, and none after the end date |
| Guarantees.NextRunIsFresh | backend/recurring/tasks.py:186-195 | the next run is a slot, every slot before it has come, and it is later than every execution so far |
| Guarantees.MandatesKeepTheirBooks | backend/recurring/tasks.py:347-439 | the failure count is exact and below the threshold while ACTIVE; an end is announced exactly once, in its own way, and never otherwise; COMPLETED only past the end date |
| Guarantees.ReplayReturnsTheMandate | backend/recurring/views.py:141-152 | creating with the key of an existing mandate returns it and changes nothing, if and only if the dates of the request are acceptable that day; else it is refused for its dates |
| Replay.ReplayEndsWithTheStart | backend/recurring/views.py:208-223 | the request that created a mandate returns it until its start date has passed, and is refused from then on |
| Replay.ReplayIsRefusedNextDay | backend/recurring/views.py:208-212 | a reachable state in which the very same request is refused, a day after the first run |
| Guarantees.NothingIsEverSkipped | backend/recurring/tasks.py:156-184 | no reachable state has a SCHEDULED or SKIPPED execution |
| Guarantees.NothingIsUndone | backend/recurring/models.py:58-62 | over any run CANCELLED and COMPLETED are final, finished executions and bank answers never change, the next run never moves back |
| Guarantees.RunsAreBilledOnce | backend/recurring/tasks.py:202-242 | a bank's counters equal its paid lookups, and its standing orders have paid exactly for the executions with a recipient |
| Regularity.RunsFollowTheCalendar | backend/recurring/tasks.py:188-195 | without a resumption the k-th execution of a mandate is for slot k, and the next run is the slot after the last one: no drift however late the clock |
| Regularity.EverySlotIsRun | backend/recurring/tasks.py:188-195 | and every slot before the next run has its execution |
| Slots.ResumedIsAccounted | backend/recurring/views.py:413-418 | a resumption skips exactly the slots from the run that was next up to its own moment |
| Slots.EverySlotIsRunOrSkipped | backend/recurring/views.py:395-396 | for every mandate, every slot before the next run has an execution or was skipped by a resumption, and never both |

## Left out

- Formats, certificates and health checks of the RTGS gateways, and their mock: the answer is a set of
  transfers carried out, or none.  The RTGS reference and failure text of a transfer are not stored.
- HTTP, serialisation, authentication, permissions, administration, migrations, task queue mechanics.
- The idempotency decorator, which repeats an answer for 24 hours; the lookup by key in the table, which
  comes after the checks of the request, is modelled.
- Phone, zone, currency and account checks, and the text of errors: each is one branch.  An unknown
  cycle or zone cannot be expressed.
- Currency, entry type and similar labels that no rule of these parts reads.
- Dates after the year 9999, where the libraries raise an error.
- Failures of the counter store and the expiry of its daily keys; crashes between two steps, of KLIK
  or of a bank (a bank that restarts forgets its answers).
- Retry delays, logging, and the delivery of notices once queued.
- The display fields that the mock bank keeps per mandate, its history and its other webhooks.
- Daily accrual of lookup fees, one-time codes and their confirmation, cheques: small status checks.
- Frontends.
- RecurringService.RecurringService.DispatchDueRecurringTransfers: takes due rows in table order and does
  not skip rows that another worker has locked; the step `Dispatch` of the system takes any due rows.
- RecurringService.RecurringService.CreateMandate: leaves out the checks of phone, cycle, zone and
  currency, which do not depend on the tables.
- Aliases.AliasRegistry.RegisterAlias: leaves out the checks of zone and account format.
- Aliases.AliasRegistry.LookupForBank: does not model a counter store that fails, in which case the code
  answers without counting.
- LedgerService.LedgerService.RunSettlementSession: runs alone; that other steps may come between its
  stages is covered by the results about `Settlement.Run`.
