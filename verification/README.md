# The money core, verified

A Dafny model of the part of this backend that moves money: the append-only double-entry ledger,
per-minute billing of video calls with its taximeter, gifts, the life of a call, recharges, payouts
with their lease protocol, and the commission arithmetic behind them. `dafny verify dfyconfig.toml`
checks everything.

## How the model is built

Money is whole cents (`int`), rates and thresholds are exact decimals (`real`), time is milliseconds.
The tables are one value, `Tables.DB`. What each transaction or single update writes is one function
in `Writes`, shared by both granularities below.

**Statement steps** (`TaximeterSteps`, `GiftSteps`, `CallSteps`, `RechargeSteps`, `PayoutSteps`,
`Machine`). Every operation is a program of statements whose local variables are kept in its program
point. Any number of workers interleave statement by statement; each may fail, crash or be spawned at
any time, the clock may advance at any time, and the single guarded updates that the code makes
without a lock (reject, hangup, panic, endCall, ring timeout, expiry sweep) may happen at any time.
Reads see the latest committed rows (READ COMMITTED). The writes of a transaction become visible, and
its advisory locks are released, in the one step that commits it. `Invariant` holds what every
committed state satisfies (`DbInv`) and what every step promises the other workers, given the keys it
holds (`Guarantee`); each program point carries what its worker knows, and that knowledge is proved
stable under everybody else's promises. `Theorems`, `Recharges`, `Earnings`, `Rates`, `Lease`,
`Progress` and `Traces` speak about this granularity. `Placement` adds who a ledger row may belong to.
Some lease theorems hold in runs without takeovers, in which no worker claims a payout that a live
worker is still settling; runs in which no worker settles a payout for longer than the stuck limit are
of this kind. The others say, for any run, exactly which step breaks the lease or overwrites an outcome.

**Atomic transactions** (`Atomic`, `AtomicRuns`, `CatchUps`, `Settlement`, `Services`). `AtomicRuns` is
the step relation in which each transaction, and each single update outside one, is one step.
`Services.Database` is the imperative form: its methods update the tables in place, one transaction at a
time, are proved against the write functions and their meaning, and its operations are shown to be runs
of `AtomicRuns`. Refused transactions write nothing and are no steps there. Charges that throw,
providers that throw although money moved, updates that are committed and still report an error, and
workers that die are parameters of its methods. `Simulation` connects the two, in both directions: for
every listing and every set of charges that throw there is a run of a lone taximeter worker that does
what the atomic round does, and every run of a lone worker ends in what some atomic round does.
`Refinement` does the same for every operation: what a lone worker does is a run of atomic transactions
whose checks have passed, and what a transaction can do some lone worker does.

Contracts and lemmas whose names end in `InWords`, and the contracts of `Services`, state rows, answers and
amounts outright, in the columns of the tables, in milliseconds and in cents.

`LockOrder` is the advisory-lock discipline on its own, for any number of transactions and keys.

Assumptions, all of them things the code relies on without checking:

- prices are not negative, rates lie in [0, 1], minimum amounts are not negative, the stuck limit is
  positive, and the database starts empty;
- two different lock keys never share a `hashtext` value; new row ids are fresh, and a new recharge's
  id is known only to its creator until its charge is stored (the model writes this as a key);
- a payout's account is always `model:<user id>`, as the payout controller builds it;
- writing PAID does not throw (the `try` in `settle` also covers that update); a crash is a worker
  that stops;
- only the taximeter's loop calls `chargeMinute`, with the next minute or one already charged (at
  statement steps this is proved, at transaction granularity it is the guard of the step `Charge`);
- `endCall` is not given the reasons TIMEOUT or REJECTED (nothing calls it at this commit);
- the clock does not run backwards, and all workers read the same clock.

`DB.reopened` is a history that the code does not store: the calls that `accept` set ACTIVE although
their row was no longer REQUESTED. `DB.sent` is the payment provider's side: payouts whose money moved.

## What the code does and a reader may not expect

- `accept` re-reads the status under the client's lock, but `hangup`, `reject` and `panic` take no
  lock, and its update (src/calls/call.service.ts:106-109) names the row by id only. A call that ended
  in between comes back to ACTIVE and keeps its end reason (`Theorems.EndedIsLeftExactlyByReopening`:
  this update is the only way out of ENDED). Its model can then get a second open call in two ways, and
  in no other (`Theorems.SecondOpenCallExactly`): the update comes while she has another open call, or a
  start that has already looked at her calls inserts its own beside the reopened one.
  `Traces.SecondOpenCallOfOneModel` and `Traces.StartOvertakenByReopening` build the two runs. One open
  call per client survives.
- A worker that needs longer than the stuck limit can give back a payout that another worker has sent,
  and overwrite PAID with FAILED (src/payout/payout.processor.ts:58-72), even with an idempotent
  provider: `Traces.SlowWorkerReversesASentPayout`. A payout gets two workers exactly by a takeover, a
  recovery claim over a live worker whose claim is older than the cutoff (`Lease.OneWorkerIffNoTakeover`);
  an outcome is overwritten exactly when a worker writes PAID over FAILED or reverses and writes FAILED
  over PAID (`Lease.OutcomeOverwrittenExactly`). Under the timing assumption none of it can happen.
- The comment at src/ranking/ranking.ts:41-42 says that capping every target rate by the global rate
  makes climbing a tier never cost more. The cap alone does not: `Ranking.CapSufficesIffTargetsFall`
  gives the exact condition and `Ranking.ClimbingCanCost` an environment in which it fails.
- Reversed payouts count as earnings (src/ranking/ranking.service.ts:20): gross earnings are a model's
  shares plus the amounts of her reversed payouts, and equal her shares exactly when none of a positive
  amount was reversed (`Earnings.SharesPlusReturns`, `Earnings.EarningsAreSharesIff`). A payout that
  fails can so move her to a higher tier and lower her rate without any sale:
  `Earnings.RefundedModelClimbs` builds the run, `Earnings.ReversalCanLowerRateIff` gives the exact
  condition on the tier table and the minimum payout, and the default tiers meet it.
- A sale charges the tier that the model had when the transaction read it. A sale or reversal that
  commits in between makes it stale, and a stale tier only overcharges (`Rates.StaleTierOnlyOvercharges`).
- The comment at src/wallet/wallet.service.ts:84-86 says that a recharge whose charge could not be stored
  stays FAILED and is never credited. When the update is committed and still reports an error, the
  webhook can find the charge and credit the recharge, and `createRecharge` then writes FAILED over PAID
  (line 87): `Traces.PaidOverwrittenIsReachable`. It happens exactly then
  (`Recharges.OutcomeOverwrittenExactly`, `Recharges.PaidIffCreditedIff`). The ledger stays right.
- Posting an empty batch succeeds every time; only non-empty groups are protected against replay.

## Model

| member | source | states |
|---|---|---|
| Theorems.NoAccountIsOverdrawn | src/billing/billing.service.ts:26-112 | Statement steps. In every reachable state of every interleaving of charges, gifts, starts, accepts, recharges and payouts, no client and no model has a negative balance |
| Theorems.ReadBalanceIsLowerBound | src/billing/billing.service.ts:51-52 | Statement steps. A balance read under its advisory lock stays a lower bound of the real balance until that worker's transaction commits |
| Theorems.MinutesAreContiguous | src/billing/billing.service.ts:41-73 | Statement steps. With any number of taximeter workers, the minutes of a call on the ledger are exactly 1..billedMinutes |
| Theorems.ClientPaysBilledMinutes | src/billing/billing.service.ts:50-73 | Statement steps. The client's debits for a call total billedMinutes times the price snapshot, and if any minute is billed, at least 60 000 ms for each one before the last have passed since the start |
| Theorems.PostedMinuteIsTheNext | src/scheduler/taximeter.service.ts:34-37 | Statement steps. A worker about to post a minute always posts the one after the cursor, never past its due minute, and that minute has begun, counted in units of 60 000 ms from the start |
| Theorems.RowsAreUnique | prisma/schema.prisma:16 | Statement steps. No two stored rows ever share the text of the unique column |
| Theorems.NoDuplicateInsideTransaction | src/ledger/ledger.service.ts:36-43 | Statement steps. Charges, gifts and payout requests never meet a duplicate inside their own transaction; a confirmation meets one only if its recharge is no longer PENDING, and then it posts nothing |
| Theorems.CallMoneyIsConserved | src/billing/billing.service.ts:64-72 | Statement steps. What a call's minutes gave to its model and the platform is billedMinutes times the price, and they moved nothing on any account but the client's, the model's and the platform's |
| Theorems.EveryGroupBalances | src/ledger/ledger.service.ts:15-21 | Statement steps. In every reachable state the rows of each transaction group add up to zero |
| Theorems.SaleIsSplit | src/billing/billing.service.ts:63-72 | Statement steps. A minute or a gift moves exactly the price out of the client, to the platform the whole number of cents nearest to price times rate with ties going up, and the rest to the model, with 0 <= gain <= price, and moves no other account |
| Rates.SaleRateWasRead | src/billing/billing.service.ts:60-63 | Statement steps, whole runs. If the model had a rate of her own when this transaction read her profile, the sale charges exactly that; if not, exactly the rate of her tier as it stood when it read her earnings |
| Rates.StaleTierOnlyOvercharges | src/billing/billing.service.ts:60-63 | Statement steps, whole runs. Without a rate of her own and with falling rates, the rate of a sale is never below the rate of the tier that the model has at the commit |
| Theorems.OneOpenCallPerClient | src/calls/call.service.ts:31-38 | Statement steps. No client ever has two calls that are not ENDED |
| Theorems.AcceptNeverConflicts | src/calls/call.service.ts:96-101 | Statement steps. The test for another active call in accept never succeeds |
| Theorems.SecondOpenCallExactly | src/calls/call.service.ts:106-109 | Statement steps. A model with at most one open call gets a second one if and only if, while she has an open call, accept's update hits an ENDED call of hers, or a start of hers that passed its checks and can pay inserts |
| Theorems.OneOpenCallPerModelIff | src/calls/call.service.ts:46-51 | Statement steps, whole runs. From the empty database, a model never has two open calls at any point of a run if and only if no step of the run is one of those two |
| Theorems.OneOpenCallPerModelUnlessReopened | src/calls/call.service.ts:46-51 | Statement steps. An open call has an end reason if and only if accept brought it back, and of two open calls of one model at least one has an end reason |
| Theorems.EndedIsLeftExactlyByReopening | src/calls/call.service.ts:106-109 | Statement steps. A step takes a call out of ENDED if and only if it is accept's unguarded update on that call; no step changes an ended call's end reason or time |
| Theorems.LateWritesSpareOthers | src/calls/call.service.ts:120-132 | Statement steps. What accept writes after its transaction ends a call still REQUESTED with the right reason and time, never touches one started or ended meanwhile, nor any other call, and times out only calls past the ringing time that never started |
| Theorems.UpdatesInWords | src/calls/call.service.ts:139-196 | Statement steps. The updates outside transactions, column by column: who is ended, with which reason and time, which recharge expires, and that all else stays |
| Theorems.AnswersInWords | src/billing/billing.service.ts:81-88 | Statement steps. Refusals by the environment end a gift or a start without a write, lead a creation to FAILED, and lead a payout to its reversal; a payout the provider accepts goes on to PAID |
| Theorems.StartedByItsModel | src/calls/call.service.ts:86-109 | Statement steps. A call becomes ACTIVE only by an accept of its own model that re-read it ringing, while the client's balance covers the first minute, and only if it never started |
| Theorems.StartedCallsEndForGood | src/calls/call.service.ts:139-196 | Statement steps. A started call never becomes REQUESTED, keeps its start, and once ENDED stays ENDED |
| Theorems.EndReasons | src/calls/call.service.ts:139-196 | Statement steps. Unless reopened, a call has an end reason exactly when ENDED, and TIMEOUT and REJECTED only if it never started and was never billed; TIMEOUT only after the ringing time |
| Theorems.LedgerOnlyGrows | src/ledger/ledger.service.ts:32-34 | Statement steps, whole runs. The ledger before is a prefix of the ledger after, and the platform's balance never decreases |
| Theorems.CommissionNeverRises | src/ranking/ranking.service.ts:16-28 | Statement steps, whole runs. A model's gross earnings never fall, and with rates that fall from tier to tier neither her tier's rate nor the commission on a price ever rises |
| Earnings.SharesPlusReturns | src/ranking/ranking.service.ts:16-23 | Statement steps. In every reachable state a model's gross earnings are her shares of minutes and gifts plus the amounts of her payout rows whose reversal is posted |
| Earnings.EarningsAreSharesIff | src/ranking/ranking.service.ts:20 | Statement steps. They are never below her shares, and equal them if and only if no payout of hers of a positive amount was reversed |
| Earnings.ReversalRaisesEarnings | src/payout/payout.processor.ts:63-71 | Statement steps. A reversal leaves every share as it was, raises exactly its model's earnings by its amount, and that amount lies between the minimum payout and what she had earned |
| Earnings.RefundedModelClimbs | src/payout/payout.processor.ts:67 | From every start whose tiers allow it, a reachable state in which a reversal alone moves the model to a higher tier and lowers the rate her next sale pays |
| Earnings.ReversalCanLowerRateIff | src/ranking/ranking.service.ts:20 | Under a configuration some reachable reversal lowers a tier rate if and only if some earnings can be lifted into a tier with a lower rate by a payout out of them, from the minimum payout up |
| Earnings.CrossingLifts | src/ranking/ranking.ts:49-54 | With sorted thresholds and falling rates, any threshold between two different rates that such a payout lifts the earnings over meets that condition |
| Earnings.DefaultsLift | src/ranking/ranking.ts:20-22 | The default tiers and minimum payout meet it under a global rate of 30 percent: 300.00 earned, 200.00 given back, and the rate falls to 25 percent |
| Theorems.Solvency | src/ledger/ledger.service.ts:15-21 | Statement steps. All balances add up to zero; clients, models and platform together hold what recharges credited minus the payouts whose reversal is not posted |
| Theorems.ExpiredWereOverdue | src/wallet/wallet.service.ts:92-98 | Statement steps. In every reachable state an EXPIRED recharge has an expiry time that has passed |
| Theorems.TierRateInWords | src/ranking/ranking.service.ts:25-28 | Earnings in cents against thresholds in whole units: the rate of the last row reached, or of the first |
| Theorems.RechargeCreditedExactlyOnce | src/wallet/wallet.service.ts:21-53 | Statement steps, with updates that are committed and still report an error. If its group is posted, a recharge gave its user exactly the stored amount, the outside account the opposite, and nobody else anything; if not, it moved nothing. PAID ones are posted; posted ones have a charge and are PAID, or FAILED |
| Recharges.OutcomeOverwrittenExactly | src/wallet/wallet.service.ts:36-98 | Statement steps, any step from any reachable state. Owner and amount never change; PAID, EXPIRED or FAILED changes if and only if a creation whose charge was stored with an error writes FAILED over something else |
| Recharges.StatusLiesExactly | src/wallet/wallet.service.ts:82-88 | Statement steps, any step. Once PAID agrees with the credit it stops agreeing if and only if such a creation writes FAILED over PAID |
| Recharges.PaidIffCreditedIff | src/wallet/wallet.service.ts:21-98 | Statement steps, whole runs. From the empty database, a recharge is PAID exactly when credited at every moment of a run if and only if no step of the run writes FAILED over its PAID |
| Traces.PaidOverwrittenIsReachable | src/wallet/wallet.service.ts:68-88 | From every start of the server, for any user and amount from the minimum up, a reachable state in which the user is credited and the recharge is FAILED |
| Theorems.PayoutNetEffect | src/payout/payout.service.ts:37-59 | Statement steps, no timing assumption. Every payout has its debit and at most one reversal: its net effect is -amount on its account and the opposite outside, or 0 once reversed, and nothing on any other account |
| Theorems.PayoutsAreApproved | src/payout/payout.service.ts:30-32 | Statement steps. Every payout belongs to an approved account although approval is read outside the transaction |
| Machine.StepKeeps | src/billing/billing.service.ts:26-112 | Statement steps. Every step keeps the database invariant, every worker's knowledge and mutual exclusion on keys |
| Invariant.PostMinuteKeeps | src/billing/billing.service.ts:50-73 | Committing the next, affordable, started minute with a commission within the price keeps the whole database invariant and touches only what the client's lock covers |
| Invariant.ReverseKeeps | src/payout/payout.processor.ts:63-73 | Posting a reversal that is not posted yet, together with FAILED, keeps the whole database invariant |
| Lease.OneWorkerPerPayout | src/payout/payout.processor.ts:18-52 | Statement steps, runs without takeovers, late or not. At most one live worker is settling a payout |
| Lease.FailedIffReversed | src/payout/payout.processor.ts:54-74 | Statement steps, runs without takeovers, late or not. A payout is FAILED exactly when its reversal is posted |
| Lease.NeverSentAndReversed | src/payout/payout.processor.ts:54-74 | Statement steps, runs without takeovers, idempotent provider. No payout is both sent and reversed, and PAID means sent |
| Lease.TimelyWorkers | src/payout/payout.processor.ts:18-75 | Statement steps, workers that finish a payout within the stuck limit of their claim or die. At most one worker per payout, FAILED exactly when reversed, PAID and FAILED final, and with an idempotent provider never both sent and reversed |
| Lease.OutcomesAreFinal | src/payout/payout.processor.ts:58-72 | Statement steps, runs without takeovers, late or not. PAID and FAILED are never left, although the updates are unguarded |
| Lease.StampsAreFarApart | src/payout/payout.processor.ts:41-48 | Statement steps, no timing assumption. Successive claim stamps of one payout differ by more than the stuck limit |
| Lease.TakenOverIffStale | src/payout/payout.processor.ts:31-49 | Statement steps, in any state reached without takeovers, late or not. When a worker claims a payout another live worker is settling, both settle it afterwards if and only if the other's claim is older than the claimer's cutoff |
| Lease.OneWorkerIffNoTakeover | src/payout/payout.processor.ts:18-52 | Statement steps, any run, no timing assumption. Every payout has at most one live worker throughout a run if and only if no step of the run is a takeover |
| Lease.OutcomeOverwrittenExactly | src/payout/payout.processor.ts:58-72 | Statement steps, any step, no timing assumption. The status of a PAID or FAILED payout changes if and only if a worker writes PAID while it is FAILED, or reverses it while it is PAID |
| Lease.StatusLiesExactly | src/payout/payout.processor.ts:58-72 | Statement steps, any step. Once FAILED agrees with the reversal it stops agreeing if and only if a worker writes PAID on a reversed payout |
| Lease.SentAndReversedExactly | src/payout/payout.processor.ts:54-74 | Statement steps, any step and any provider, idempotent or not. A payout becomes both sent and given back if and only if a worker reverses it after its money moved, or its money moves after it was reversed |
| Traces.SecondOpenCallOfOneModel | src/calls/call.service.ts:106-109 | From any state without held locks in which two clients can afford the same free model, a run leads to two open calls of that model, one of them with an end reason |
| Traces.StartOvertakenByReopening | src/calls/call.service.ts:46-69 | From the same states, a run in which accept reopens a call after a start has looked at the model's calls, and the start inserts beside it |
| Traces.TwoOpenCallsAreReachable | src/calls/call.service.ts:106-109 | From every start of the server, for any two clients, model and price, a reachable state has two open calls of one model |
| Traces.SlowWorkerReversesASentPayout | src/payout/payout.processor.ts:54-74 | From any state without held locks with a PENDING payout that is neither sent nor reversed, whatever else is in the tables, an idempotent provider and a worker slower than the stuck limit lead to that payout being sent, reversed and FAILED |
| Traces.SentAndReversedIsReachable | src/payout/payout.processor.ts:54-74 | From every start of the server, for any client, model and amount from the minima up, such a payout is reachable with an idempotent provider |
| Traces.TakeoverIsReachable | src/payout/payout.processor.ts:31-49 | From every start of the server a state is reached in which every payout has at most one worker and the next step gives one a second |
| Traces.NoPayoutIsStranded | src/payout/payout.processor.ts:18-52 | From every reachable state without held locks, a payout that is neither PAID nor FAILED, whoever claimed it and died, can still be sent and become PAID |
| Progress.SomebodyCanStep | src/calls/call.service.ts:247-251 | Statement steps. In every reachable state with an unfinished worker, some worker can take a step |
| LockOrder.NoDeadlock | src/calls/call.service.ts:247-251 | For any transactions over any keys, taken in sorted order and held to the end: while one is unfinished, one can take its next key or finish |
| LockOrder.OppositeOrdersDeadlock | src/calls/call.service.ts:248 | Without the sorting, two transactions that take two keys in opposite orders can block each other for good |
| LockOrder.ClientSortsBeforeModel | src/calls/call.service.ts:31 | A start always locks its client before its model, in whichever order the keys are given, and client, model and payout keys never share a text |
| LockOrder.SortKeysSorts | src/calls/call.service.ts:248 | The keys are locked in ascending text order, each as often as it was given |
| Simulation.UndisturbedRunIsAtomic | src/scheduler/taximeter.service.ts:25-47 | For every order of the listing and every set of charges that throw, some run of a lone worker, statement by statement, gives what the atomic round gives |
| Simulation.EveryLoneRunIsAtomic | src/scheduler/taximeter.service.ts:25-47 | Every run in which a worker is spawned, then only its own statements and errors happen, and it finishes, ends in exactly the database of the atomic round for the order in which it listed the calls and the charges that threw |
| Simulation.MinuteUndisturbed | src/billing/billing.service.ts:26-76 | Some undisturbed pass through the statements of chargeMinute has the effect and the outcome of the atomic charge |
| Simulation.EveryLoneMinuteIsAtomic | src/billing/billing.service.ts:26-76 | Every lone pass through the statements of chargeMinute, from the loop head to the next return to it, has the effect of the atomic charge, and the loop goes on as its outcome says |
| Refinement.EveryLoneOperationIsAtomic | src/calls/call.service.ts:29-140 | From every reachable state, whatever a lone worker of any kind does, as far as it gets, is a run of atomic transactions, each with its checks passed |
| Refinement.EveryTransactionHasALoneRun | src/payout/payout.service.ts:25-60 | From every reachable state without held locks, whatever a gift, start, accept, payout request, creation, confirmation or claim may do as a transaction, some run of a lone worker does statement by statement |
| CatchUps.CatchUpMeaning | src/scheduler/taximeter.service.ts:34-45 | Atomic. An uninterrupted catch-up charges k minutes, the client pays k prices, the cursor moves by k and not past the due minute, the call ends with NO_CREDITS exactly when k falls short of what was due, and no other call changes |
| CatchUps.AffordableIsLargest | src/billing/billing.service.ts:50-58 | The k above is the largest number of minutes that is due and covered by the balance |
| CatchUps.RoundMeaning | src/scheduler/taximeter.service.ts:34-45 | Atomic, in milliseconds and cents. No minute is charged before it has begun or after a charge that throws; a listed call still ACTIVE has been charged for every minute begun up to such a charge; one that ends had a begun minute left that its client could not pay; the client paid exactly the minutes |
| CatchUps.CatchUpClosedForm | src/scheduler/taximeter.service.ts:34-45 | Atomic. The nested charges equal one update: the rows of k minutes, each at the rate of its moment, and the final call row |
| CatchUps.OrderDoesNotMatter | src/scheduler/taximeter.service.ts:26-46 | Atomic. If no two active calls share a model, the call rows, the multiset of ledger rows, and hence every balance after a round do not depend on the order in which active calls are listed, whichever charges throw |
| CatchUps.RowsDoNotDependOnOrder | src/scheduler/taximeter.service.ts:26-46 | Atomic. The call rows after a round do not depend on the order even when active calls share a model |
| CatchUps.SecondRunChangesNothing | src/scheduler/taximeter.service.ts:25-47 | Atomic. A second round with the same time, in which the same charges throw, changes nothing, whether active calls share a model or not |
| Atomic.ChargeKeeps | src/billing/billing.service.ts:26-76 | Atomic. Charging a due minute keeps the database invariant, whatever the outcome |
| Services.Database.ChargeMinute | src/billing/billing.service.ts:26-76 | The exact answer in the order of the checks; the three rows of a charged minute outright, with the platform's gain the nearest whole number of cents at the model's own rate or her tier's; the row of the call; exactly the atomic charge |
| Services.Database.RunDueCharges | src/scheduler/taximeter.service.ts:25-47 | The nested loops charge exactly the ACTIVE calls, each for exactly the begun and covered minutes in units of 60 000 ms up to a charge that throws, end exactly those that could not pay, leave all other calls, and equal the folded catch-ups |
| Services.Database.CatchUpCall | src/scheduler/taximeter.service.ts:35-45 | The inner loop with both its breaks equals the recursive catch-up up to the last minute before the first charge that throws, and leaves every other call as it was |
| Services.Database.SendGift | src/billing/billing.service.ts:78-112 | The exact answer in the order of the checks; the gift and its three rows outright, with the platform's gain the nearest whole number of cents at the model's own rate or her tier's; a refused one changes nothing |
| Services.Database.Initiate | src/calls/call.service.ts:29-71 | The exact answer, in the order of the checks; a row is created exactly when the call rings |
| Services.Database.Accept | src/calls/call.service.ts:73-137 | When each answer is given: unknown, not hers, ringing for more than 30 000 ms, not ringing, first minute not covered, accepted; and the exact row written for each; the conflict with another active call does not occur |
| Services.Database.Reject | src/calls/call.service.ts:139-155 | The exact answer in the order of the checks; only the model's own ringing call ends, as REJECTED |
| Services.Database.Hangup | src/calls/call.service.ts:157-174 | The exact answer; a participant's open call ends with the reason that names who hung up, an ended one stays as it is |
| Services.Database.PanicEnd | src/calls/call.service.ts:176-189 | The exact answer; the model's open call ends as PANIC, an ended one stays as it is |
| Services.Database.End | src/calls/call.service.ts:191-196 | The guarded update ends exactly a call in one of the given states, with the given reason, and leaves an ended one untouched |
| Services.Database.GetForParticipant | src/calls/call.service.ts:220-245 | The exact answer; a ringing call that rang too long ends as TIMEOUT before it is shown, and no call is shown ringing past its time |
| AtomicRuns.CallsOnlyMoveForward | src/calls/call.service.ts:29-196 | Atomic, whole runs. REQUESTED becomes ACTIVE or ENDED, ACTIVE only ENDED; an end reason and its time, once set, never change; neither do price, participants and start |
| AtomicRuns.StatusChangesExactly | src/calls/call.service.ts:73-196 | Atomic, any step. A call becomes ACTIVE if and only if it is accepted, by its own model, ringing for at most 30 000 ms and covered; it becomes ENDED if and only if a guarded update finds it in its states or a charge finds it unpaid |
| AtomicRuns.NothingTooEarly | src/scheduler/taximeter.service.ts:34 | Atomic, every reachable database. No minute is billed before it has begun, and only overdue recharges are EXPIRED |
| AtomicRuns.OneOpenCallEach | src/calls/call.service.ts:29-71 | Atomic, every reachable database. No client and no model has two open calls |
| AtomicRuns.EndReasonsOfRuns | src/calls/call.service.ts:139-196 | Atomic, every reachable database. End reason exactly on ended calls; TIMEOUT and REJECTED only on calls never started nor billed, TIMEOUT only after the ringing time |
| Services.Database.ConfirmRecharge | src/wallet/wallet.service.ts:21-53 | The exact answer; the stored amount is credited by two rows given outright exactly when the recharge is PENDING and the amounts agree, and nothing else changes |
| Services.Database.CreateRecharge | src/wallet/wallet.service.ts:55-90 | Too small: nothing; charge stored: a PENDING row with it; provider or update failed: a FAILED row, with its charge only if the update was committed and reported an error |
| Services.Database.ExpireStaleRecharges | src/wallet/wallet.service.ts:92-98 | A recharge becomes EXPIRED if and only if it was PENDING with an expiry time before now, every other row is unchanged, those are counted, and none is left |
| Services.Database.RequestPayout | src/payout/payout.service.ts:25-60 | The exact answer in the order of the checks; an opened payout is PENDING, with its two rows given outright, takes exactly its amount and leaves the balance at or above zero |
| Services.Database.ProcessPending | src/payout/payout.processor.ts:18-29 | Whatever the provider does and wherever the worker dies: settled payouts are PAID, or FAILED with their amount back with their model; an abandoned one is PROCESSING with its stamp; every other row and balance is unchanged; exactly the payouts it did not get to are left PENDING |
| Services.Database.RecoverStuck | src/payout/payout.processor.ts:31-52 | The same for exactly the payouts whose claim is older than the stuck limit |
| Settlement.OneMorePaid | src/payout/payout.processor.ts:54-74 | Settling one more payout raises its model's balance by its amount if the provider threw and no other balance, so the refunds add up payout by payout |
| Settlement.AbandonedIsSettled | src/payout/payout.processor.ts:18-52 | Two rounds: what a dead worker left behind is settled by a later full recovery round if and only if that one begins more than the stuck limit after the first, as PAID, or FAILED and given back; else it is untouched |
| Ledger.LedgerService.PostTransaction | src/ledger/ledger.service.ts:10-59 | Self-managed branch: unbalanced, replayed and new batches told apart exactly; rows are appended only for new ones; uniqueness and the zero sum are kept |
| Ledger.LedgerService.GetBalance | src/ledger/ledger.service.ts:61-71 | The same number for every order of the stored rows, and zero for an account without rows |
| Ledger.CollidesIffPosted | src/ledger/ledger.service.ts:23-34 | Over a ledger with unique references, a non-empty batch violates the unique column exactly when its group has rows |
| Ledger.ReplayStoresNothing | src/ledger/ledger.service.ts:45-58 | Posting a group again stores nothing, even with different entries |
| Ledger.PostKeepsUnique | src/ledger/ledger.service.ts:23-34 | A new group keeps all references unique and becomes posted, and no other group does |
| Ledger.PostKeepsZeroSum | src/ledger/ledger.service.ts:15-21 | A stored batch leaves the sum of all amounts as it was |
| Ledger.SumOfPermutation | src/ledger/ledger.service.ts:61-71 | A balance does not depend on the order of the rows |
| Ledger.EarningsNeverShrink | src/ranking/ranking.service.ts:16-23 | Gross earnings never fall as rows are added |
| Ledger.BalanceRowByRow | src/ledger/ledger.service.ts:61-71 | A balance starts at zero and each row of the account adds its amount; gross earnings likewise from a model's positive rows only |
| Keys.ReferenceInjective | src/ledger/ledger.service.ts:28 | Group text and position can be read back from the reference, for all texts |
| Keys.GroupTextInjective | src/billing/billing.service.ts:41 | The texts of call-minute, gift, recharge, payout and reversal groups never coincide, within or across families, for all identifiers |
| Keys.TextsInWords | src/ledger/ledger.service.ts:27-28 | The stored texts of the five group families and of a reference, spelled out |
| Keys.DigitsAreDecimal | src/billing/billing.service.ts:41 | Minute numbers and positions are written as decimal numbers without leading zeros |
| TakeRate.CommissionIsHalfUp | src/billing/take-rate.ts:10-17 | The commission is n if and only if n is the whole number of cents nearest to price times rate, ties away from zero for both signs, and the share is the rest |
| TakeRate.TieGoesToThePlatform | src/billing/take-rate.ts:14 | 30 percent of 1.25: the platform gets 0.38 and the model 0.87 |
| TakeRate.CommissionWithinPrice | src/billing/take-rate.ts:10-17 | For prices from 0 up and rates in [0, 1], commission and share lie between 0 and the price |
| TakeRate.CommissionMonotone | src/billing/take-rate.ts:14 | The commission rises with price and with rate |
| TakeRate.MinutewiseError | src/billing/take-rate.ts:14 | k commissions charged one by one differ from k times price times rate by at most k/2 cents |
| Ranking.LoadTierTable | src/ranking/ranking.ts:31-47 | Whatever the environment lists hold, there are four rows and no rate exceeds the global rate |
| Ranking.TableInWords | src/ranking/ranking.ts:18-47 | The four rows column by column: tiers in order, thresholds as configured or by default, the global rate for the first and the smaller of target and global rate for the others |
| Ranking.TierForEarnings | src/ranking/ranking.ts:49-63 | The scan reports the last row whose threshold is reached, or the first, with its tier and rate, and the next row's tier, threshold and what is missing for it, or none |
| Ranking.ScanFindsTheBand | src/ranking/ranking.ts:49-54 | On sorted thresholds the scan returns a row if and only if its band contains the earnings |
| Ranking.RemainingReachesNext | src/ranking/ranking.ts:55-62 | Earning exactly the remaining amount gives exactly the next tier |
| Ranking.RemainingPositive | src/ranking/ranking.ts:61 | The remaining amount is always positive |
| Ranking.TierIndexMonotone | src/ranking/ranking.ts:50-53 | Earning more never lowers the tier, whatever the thresholds are |
| Ranking.CapSufficesIffTargetsFall | src/ranking/ranking.ts:40-46 | For any environment lists, sorted or not, climbing never costs more if and only if the targets fall between any two attainable tiers above the first, or the earlier one is at or above the global rate |
| Ranking.ClimbingCanCost | src/ranking/ranking.ts:41-42 | An environment in which a model that climbs pays more |

## Left out

- Everything under web/, controllers, guards, modules, DTO checks, health check: interface and routing.
- LiveKit, Google, payment and KYC providers and their signature checks: only the outcomes they can return are modelled.
- Redis presence: being online at the start of a call is an arbitrary boolean.
- Development-only steps and seed scripts: they create money outside the protocol.
- Discovery, favorites, profiles, reports, administration, JWT and refresh tokens: small queries and state changes without money.
- `RankingService.top`, `myRanking` formatting, gift catalog, lists of payouts and incoming calls: queries that change nothing.
- Progress in time (for example that every ringing call ends): timeouts fire only when somebody reads or accepts the call.
- Precision of decimal.js and of Postgres numerics; `requestPayout` does not check decimal places, so whole cents are required there.
- Parsing of environment texts into numbers: a part of a list is a number or it is not.
- Columns that no property depends on: room names, pix keys, QR texts, paid, processed and creation times, metadata. Typed accounts and groups stand for their texts; the injectivity lemmas justify that for groups.
- Claim stamps that are missing on a PROCESSING row: the claim treats them as stale, as the code does, but no step of the model creates one.
- The interleaved system is a step relation on values, because interleaving at every statement is its point; `Services` is the imperative form.
- Theorems.CommissionNeverRises: models with a rate of their own are not included, because that rate is set by hand and may rise.
