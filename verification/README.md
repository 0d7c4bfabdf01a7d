# Payment service: a verified model

A payment service takes card payments through interchangeable gateways and refunds them. It was first written in Java
and rewritten in Go over PostgreSQL; both share one schema. This project models the parts whose correctness depends on
how concurrent calls, row locks, a unique index and rollback work together, and proves what they guarantee in every
run.

## What is modelled

**The protocol.** `Protocol` is a transition system. A state holds the committed tables, the row locks, the
idempotency keys held by uncommitted inserts, the calls made to gateways, and for every call a program counter with
its local variables and its uncommitted writes. A step is one store call, one gateway call, or the local code between
two. Any store call may fail, a commit may succeed and its reply be lost, a call may vanish at any point (its
transaction is then rolled back), and a gateway may answer anything. Transactions run at READ COMMITTED. UUIDs are
fresh, the clock strictly increases. A log records the point at which each call takes effect.

**The meaning.** `Domain` defines each procedure as one atomic operation on the tables (`AtomicCharge`,
`AtomicRefund`, `AtomicStatus`), and `Replay` runs a log of them. `Refinement`, `Steps` and `Runs` prove by rely and
guarantee that the committed tables of any reachable state are the replay of its log, in commit order. `Ledger` proves
the money invariants once, on the atomic operations; `Theorems` carries them to every reachable state. `Serial`,
`SerialRefunds`, `Idempotency` and `Progress` add what needs callers not to overlap, replays by key, and freedom from
deadlock with termination. `Balance` gives the exact ledger balance under status updates. `Effects` says which gateway
effects have a committed row and how the others were left without one, `Charges` how often one key is charged,
`Payouts` how much the gateways pay back. `Limits` shows where the guarantees end: for each one its exact condition,
with runs of the protocol, built in `Scenarios`, in which it fails without it. A `Config` says what callers do:
whether they call UpdatePaymentStatus and how carefully, which of their calls overlap, and whether their keys and ids
are trimmed.

**What a request means.** `Records` says what the rows of a charge or refund hold field by field, and what each error
says of the tables, without the procedures. `Requests` carries this to every run: which gateway was asked and for
what, what is stored of a request, why one is refused, which row is found. `Handler` goes from the body and headers of
a request to its row, and `Numerals` says what amount every text denotes.

**The procedures.** `Service.dfy` holds the same two services as imperative code: a `Store` that commits or rolls
back, rows read in loops, decimal arithmetic in the refund fold, fields set between store writes. Each method is
proved to be its atomic operation or to leave the committed tables as they were; a failure it reports may hide the
operation only if the reply to a commit was lost. `JavaRefund` does this for the Java refund procedure, on Java's own
values, and runs both procedures side by side on any sequence of refund requests: they stay in step.

**The rest.** `Money` covers decimal amounts against integers of 10^-4 and how they are printed, `Numerals` how they
are read, `MinorUnits` the truncation to the gateway's minor units, `Handler` the validation in front of the services,
`Routing` the gateway router, and `RateLimiter` the per-IP limiter with its evicting janitor: it lets through exactly
the requests that the rate and the burst allow.

## Where the guarantees end

- The lookups by order and by correlation id are made outside any lock and no index backs them. One live payment per
  order holds in every run exactly when payment calls of one order do not overlap and status updates, if there are
  any, write neither COMPLETED nor REFUND_PENDING (`Limits.OneLiveIffSerialAndSettled`): overlapping calls can both be
  charged (`Limits.OverlapChargesTwice`), and a payment that is set to FAILED, charged again and set back to COMPLETED
  breaks it without any overlap (`Limits.ReviveChargesTwice`). One refund per correlation id holds exactly when refund
  calls of one id do not overlap and ids equal their own trim (`Limits.OneRefundIffSerialAndTrimmed`); calls of
  different orders or ids may overlap freely. The notes in
  docs/issues/2026-06-18-copilot-pr23-review-findings.md:40-43 name the order lookup among what closes the
  double-charge risk of requests without a key; in the code it does so only under that condition.
- The serial order of `Theorems.Serializable` is one of atomic payments without the order lookup, because in
  overlapping calls that lookup is out of date when the charge commits. The lookup holds at the commit in every run
  under exactly the same condition (`Limits.PermittedIffSerialAndSettled`).
- Idempotency keys and correlation ids are stored trimmed but looked up as given, so a replay is recognised exactly
  when the text equals its own trim (`Theorems.LookupFindsIffTrimmed`, `JavaRefund.ReplayFoundIffTrimmed`). Java
  stores correlation ids as given; there the two procedures differ.
- `UpdatePaymentStatus`, which no handler calls, can write any status. The refund cap and the audit rows survive it.
  The balance of a payment is what its charge took minus what was refunded, and is negative exactly when the charge
  took nothing and a refund completed (`Balance.NetFormula`). This never happens exactly when updates write COMPLETED
  and REFUND_PENDING only to payments with a successful CHARGE row, or not at all (`Limits.SolventIffCareful`).
- A gateway effect can exist without a committed row. Of calls that have ended, those effects lack one whose call met
  a failure of the store, vanished, or found its key committed by another payment when it inserted its own
  (`Effects.CommittedIffUnbroken`); a lost reply leaves the row in place. In the last case nothing fails: the loser of
  two overlapping calls with one key is charged and no row says so (`Limits.RaceChargesInVain`), and so is a failed
  payment with an untrimmed key that is sent again (`Limits.ResentChargesInVain`). From outside, a call has its row
  exactly when it answered that it paid or refunded, or lost the reply to its commit (`Effects.CommittedIffAnswered`).
  Every committed row has its gateway call (`Theorems.CommitsHaveGatewayCalls`).
- Gateways are asked to charge one idempotency key again only after a call that was broken off, in every run, exactly
  when payment calls of one key do not overlap and keys equal their own trim (`Limits.OneChargeIffSerialAndTrimmed`);
  after a call that was broken off they always can be (`Limits.RetryChargesTwice`). A gateway may recognise the key
  itself.
- The refund cap is one of rows. At the gateways it holds for the calls that were not broken off after asking
  (`Payouts.PaidBackCap`); a refund that was broken off can be made again, and paid back twice
  (`Limits.RetryRefundsTwice`).
- Java takes amounts of any number of places and lets the columns round them. The cap survives, but an amount that is
  rounded up to all that remained leaves the payment COMPLETED with everything refunded, and nothing else does
  (`JavaRefund.RefundedIffCovered`). Go's handlers refuse such amounts.
- The parser of amounts also reads texts whose sign stands behind the point, and counts the sign as a place: `".+5"` is
  read as 0.05 (`Numerals.ReadsNumeral`). Every other text that is read means what its digits say.
- Eviction by the janitor is unobservable exactly when a bucket fills within ten minutes
  (`RateLimiter.UnobservableIffBurstFits`); the default of 10 requests a second with a burst of 20 does.

## Model

| member | source | states |
|---|---|---|
| `Theorems.Serializable` | go/internal/payment/refund.go:65-167 | In every reachable state the committed tables are the atomic payments, refunds and status updates run one after the other in commit order; every answer is the one its operation gives at a point of that order after the call began; no call takes effect twice, even if the reply to its commit was lost |
| `Theorems.RealTimeOrder` | go/internal/payment/service.go:106-123 | A call that returned before another began comes before it in that order |
| `Theorems.RefundCap` | go/internal/payment/refund.go:66-87 | Under any overlap, and whatever statuses are written, the COMPLETED refunds of a payment sum to between 0 and its amount |
| `Theorems.LedgerComplete` | go/internal/payment/refund.go:114-130 | Every committed payment has exactly one CHARGE row and every committed refund exactly one REFUND row, of equal amount and outcome, and there are no other rows |
| `Theorems.LedgerConserves` | go/internal/payment/service.go:184-214 | Whatever statuses are written, what the audit rows show for a payment lies between minus its amount and its amount; it is negative exactly when something was refunded that was never charged, and zero exactly when the refunds equal the charge; without outside status updates it is never negative, and zero exactly for FAILED and REFUNDED payments |
| `Balance.NetFormula` | go/internal/payment/service.go:147-163 | In every reachable state, whatever statuses are written, the balance of a payment is the sum of its successful CHARGE rows minus its COMPLETED refunds; that sum is all of the amount or nothing; the balance is negative exactly when the charge took nothing and a refund completed |
| `Balance.CarefulBalance` | go/internal/payment/service.go:147-163 | While updates write COMPLETED or REFUND_PENDING only to payments that were charged, or not at all, every balance stays between 0 and the amount |
| `Ledger.ReplayBalances` | go/internal/payment/refund.go:114-155 | The formula for the balance holds after every history |
| `Ledger.ReplayEarned` | go/internal/payment/service.go:152-161 | After a history whose updates obey, payments that were not charged are not refundable and have nothing refunded |
| `Theorems.StatusMeansTotals` | go/internal/payment/refund.go:132-148 | Without outside status updates, committed statuses are COMPLETED, FAILED, REFUNDED or REFUND_FAILED; REFUNDED exactly when the refunds equal the amount, COMPLETED and REFUND_FAILED only below it, REFUND_FAILED exactly with one failed refund |
| `Theorems.FinalForever` | go/internal/payment/refund.go:70-72 | Over any stretch of a run rows are never deleted, refund and audit rows never change, payment rows change only their status, and without outside status updates FAILED, REFUNDED and REFUND_FAILED payments not at all |
| `Theorems.BoundedHistory` | go/internal/payment/refund.go:78-87 | Without outside status updates, a payment of n units of 10^-4 never has more than n refund rows, and at most one FAILED |
| `Theorems.NothingAfterFailedRefund` | go/internal/payment/refund.go:143-148 | Without outside status updates, a refund that failed is the last one its payment ever gets |
| `Theorems.CommitsHaveGatewayCalls` | go/internal/payment/service.go:97-110 | Nothing is committed without a gateway call by the same call, for the same amount, with the recorded result |
| `Theorems.PaymentsAreCharged` | go/internal/payment/service.go:60-73 | Every payment row goes back to one charge event, and still names the gateway, the gateway transaction and the currency of that charge |
| `Theorems.RefundedWhereCharged` | go/internal/payment/refund.go:35-63 | Whatever happened between the unlocked read and the lock, a committed refund went to the very gateway that took the charge, against that charge, in its currency |
| `Requests.AskedRightly` | go/internal/payment/service.go:48-97 | In every reachable state every gateway call, also one that left no row, went to the right gateway: a charge to the enabled gateway registered under the lower-cased name its request asks for, or under the default's if that is blank, for the request's amount and trimmed, upper-cased currency; a refund to the one registered under its payment's gateway name, against its charge, for the amount of its request |
| `Requests.ChargedAsNamed` | go/internal/gateway/gateway.go:53-58 | By name: the gateway that was charged is called, up to case, what the request asked for, or is the default's if the request's name was blank |
| `Requests.ChargesAreStored` | go/internal/payment/service.go:60-73 | In every reachable state the payment and CHARGE rows of a committed charge carry, field by field, its request (order, customer, amount, currency, correlation id, key), the gateway it asked for and what that answered; only the status may have moved on |
| `Requests.RefundsAreStored` | go/internal/payment/refund.go:50-63 | The same for the refund and REFUND rows of a committed refund: payment, amount, reason, initiator, correlation id, the payment's currency and the gateway's answer |
| `Requests.StatusesAreSet` | go/internal/payment/service.go:147-163 | A committed status update gives its payment the status asked for and changes nothing else |
| `Requests.RefusalsHaveReasons` | go/internal/payment/refund.go:35-87 | Every refusal a finished call answered, other than a failure of the store, has its reason in the committed tables of one moment after the call began: an unknown payment is not found, a payment in another status not refundable, the gateway not registered or not enabled, the amount more than what remains, the key taken |
| `Requests.FoundAnswersAreThere` | go/internal/payment/service.go:32-46 | Every row answered as found was, at one moment after the call began, the newest holder of the key asked with, or the newest payment of the order and COMPLETED; a refund found, the newest with the correlation id |
| `Theorems.KeysNeverShared` | src/main/resources/db/migration/V1__init_schema.sql:35 | In no reachable state do two committed payments share an idempotency key |
| `Theorems.LookupFindsIffTrimmed` | go/internal/payment/service.go:165-171 | Once the key of a request is taken, the lookup finds the single row holding it if and only if the key equals its own trim |
| `Theorems.LoserGetsWinner` | go/internal/payment/service.go:116-121 | A call that lost the insert race for a trimmed key answers with the winner's committed row |
| `Idempotency.KeyReplay` | go/internal/payment/service.go:32-38 | A payment call that starts after its trimmed key was committed answers with the row holding the key (or a store failure), makes no gateway call and changes nothing, in every continuation of the run |
| `Idempotency.RefundReplay` | go/internal/payment/refund.go:27-33 | A refund call that starts after its trimmed correlation id was committed answers with a refund carrying it, makes no gateway call and changes nothing |
| `Serial.OneLivePerOrder` | go/internal/payment/service.go:40-46 | When payment calls of one order do not overlap, refunds overlapping freely, and status updates write no refundable status, at most one payment of an order is COMPLETED, and it is the newest |
| `Serial.ChargesArePermitted` | go/internal/payment/service.go:32-46 | When payment calls of one order do not overlap and status updates write no refundable status, every charge takes effect at a moment when the lookups by key and by order would let it pass: the serial order is one of whole procedures |
| `Serial.PermittedIsEnough` | go/internal/payment/service.go:40-46 | A history in which every charge finds its order without a COMPLETED payment, and updates write no refundable status, leaves at most one per order |
| `SerialRefunds.RefundsArePermitted` | go/internal/payment/refund.go:27-45 | When refund calls of one correlation id do not overlap, every refund takes effect at a moment when its lookup and all its checks would let it pass |
| `SerialRefunds.OneRefundPerCorrelation` | go/internal/payment/store.go:362-373 | When refund calls of one correlation id do not overlap, calls of other ids overlapping freely, and ids are trimmed, no two refunds share one, across all payments and whatever statuses are written from outside |
| `Limits.OverlapChargesTwice` | go/internal/payment/service.go:40-46 | Two overlapping calls for one order can both be charged and committed COMPLETED: a complete run that does it, without any failure |
| `Limits.ReviveChargesTwice` | go/internal/payment/service.go:147-163 | A complete run without overlap or failure, in which a charged payment is set to FAILED from outside, its order is charged again, and the first is set back to COMPLETED before the second commits: two COMPLETED payments, the second charge not permitted when it takes effect |
| `Limits.OneLiveIffSerialAndSettled` | go/internal/payment/store.go:212-224 | For all callers: an order keeps at most one COMPLETED payment in every run if and only if payment calls of an order do not overlap and status updates are not made or write no refundable status |
| `Limits.PermittedIffSerialAndSettled` | go/internal/payment/service.go:40-46 | For all callers: every charge in every run takes effect while its order has no COMPLETED payment under exactly the same condition |
| `Limits.OverlapRefundsTwice` | go/internal/payment/refund.go:27-33 | A complete run in which two overlapping calls with one trimmed correlation id both commit a refund |
| `Limits.UntrimmedRefundsTwice` | go/internal/payment/refund.go:61-61 | A complete run in which two calls, one after the other, with one correlation id that is not trimmed both commit a refund |
| `Limits.OneRefundIffSerialAndTrimmed` | go/internal/payment/refund.go:27-33 | No two refunds share a correlation id in any run if and only if refund calls of one id do not overlap and ids are trimmed |
| `Limits.StatusUpdateBreaksLedger` | go/internal/payment/service.go:147-163 | A complete run in which a payment whose charge failed is set to COMPLETED from outside and refunded: its balance is minus its amount |
| `Limits.SolventIffCareful` | go/internal/payment/service.go:147-163 | No balance is negative in any run if and only if updates are not made, or write COMPLETED and REFUND_PENDING only to payments with a successful CHARGE row, or not at all |
| `Limits.FaultChargesInVain` | go/internal/payment/service.go:97-115 | A complete run in which a charge succeeds at the gateway, its transaction cannot begin, and nothing is committed for it |
| `Limits.RaceChargesInVain` | go/internal/payment/service.go:97-124 | A complete run without failure: two overlapping calls with one trimmed key, for different orders, are both charged, and no row records the charge of the one that finds the key committed |
| `Limits.ResentChargesInVain` | go/internal/payment/service.go:165-171 | A complete run without failure or overlap: a declined payment with an untrimmed key is sent again and charged, and no row records that charge |
| `Limits.OneChargeIffSerialAndTrimmed` | go/internal/payment/service.go:32-38 | In every run all charges under one key but the last are of calls that were broken off, if and only if payment calls of one key do not overlap and keys are trimmed |
| `Limits.RetryChargesTwice` | go/internal/payment/service.go:97-124 | Whatever callers keep to, a run in which a call is broken off after its charge and a second call with the same trimmed key is charged again and commits |
| `Limits.RetryRefundsTwice` | go/internal/payment/refund.go:104-157 | A run in which the commit of a full refund fails after the gateway paid back, and a second full refund is paid back and committed |
| `Effects.CommittedIffAnswered` | go/internal/payment/service.go:106-124 | A gateway call has a committed event if and only if its call ended by answering the payment or refund it made, or lost the reply to its commit |
| `Effects.CommittedIffUnbroken` | go/internal/payment/service.go:97-124 | Once a call has returned or vanished, its gateway call has a committed event if and only if no step of the call was a failure of the store, a crash, or an insert that found its key committed; before that it has none |
| `Charges.OneChargePerKey` | go/internal/payment/service.go:32-38 | When payment calls of one key do not overlap and keys are trimmed, of any two charges under one key the earlier was of a call that was broken off, and no row records it |
| `Payouts.PaidBackIsTotal` | go/internal/payment/refund.go:104-157 | In every reachable state the successful refund calls with a committed event paid back, for each payment, exactly what its COMPLETED refunds sum to |
| `Payouts.PaidBackCap` | go/internal/payment/refund.go:66-112 | Under any overlap the successful refund calls of a payment made by calls that were not broken off pay back at most its amount, and exactly what its rows say once all calls have ended; all refund calls together exceed the amount at most by what calls that were broken off paid back |
| `Progress.WaiterHoldsNothing` | go/internal/payment/store.go:199-210 | A call waiting for a row lock or a key holds no lock and no key |
| `Progress.NoDeadlock` | go/internal/payment/store.go:55-77 | While any call is unfinished, some unfinished call can take a step that is not a failure |
| `Progress.RunsAreBounded` | go/internal/payment/refund.go:65-157 | Every step uses up part of a finite budget fixed by the calls started |
| `Progress.MaximalRunsReturn` | go/internal/payment/service.go:173-220 | From every reachable state only boundedly many steps remain, and when none is left every call has returned or vanished |
| `Runs.RunKeeps` | go/internal/payment/store.go:55-77 | The shared invariant, each call's knowledge and the guarantee hold in every reachable state |
| `Steps.PayLookupOk` | go/internal/payment/service.go:32-38 | The lookup by key keeps the shared invariant, the promise to other calls and the call's own knowledge |
| `Steps.PayOrderOk` | go/internal/payment/service.go:40-73 | So does the lookup by order with the choice of gateway and the building of the row |
| `Steps.PayGatewayOk` | go/internal/payment/service.go:97-97 | So does the charge at the gateway, before anything is written |
| `Steps.PayInsertOk` | go/internal/payment/store.go:79-126 | So does the insert: it waits for a key held by another transaction, fails on a committed one, and otherwise holds it |
| `Steps.PayMarkOk` | go/internal/payment/service.go:178-182 | So does marking the uncommitted row PROCESSING |
| `Steps.PayAuditOk` | go/internal/payment/service.go:184-199 | So does the uncommitted CHARGE row |
| `Steps.PayFinishOk` | go/internal/payment/service.go:201-218 | So does writing the outcome into the uncommitted row |
| `Steps.PayCommitOk` | go/internal/payment/store.go:70-76 | The commit publishes exactly the atomic charge and releases the key, fails, or loses its reply |
| `Steps.PayRollbackOk` | go/internal/payment/service.go:116-118 | A rollback leaves the tables alone, and on a unique violation with a key goes on to the recovery |
| `Steps.PayRecoverOk` | go/internal/payment/service.go:117-122 | The recovery answers with the key's holder, or with the violation |
| `Steps.RefundLookupOk` | go/internal/payment/refund.go:27-33 | The lookup by correlation id keeps the shared invariant, the promise and the call's knowledge |
| `Steps.RefundReadOk` | go/internal/payment/refund.go:35-63 | So does the unlocked read: what it takes from the row stays true until the commit |
| `Steps.RefundLockOk` | go/internal/payment/refund.go:66-72 | The row lock is taken only when free; the locked row is refused, or known to be refundable from then on |
| `Steps.RefundFoldOk` | go/internal/payment/refund.go:74-87 | The fold under the lock yields what remains, and that stays true while the lock is held |
| `Steps.RefundCreateOk` | go/internal/payment/refund.go:89-91 | The uncommitted refund row is invisible to others |
| `Steps.RefundMarkOk` | go/internal/payment/refund.go:93-96 | The uncommitted REFUND_PENDING is invisible to others |
| `Steps.RefundProcessOk` | go/internal/payment/refund.go:98-102 | So is the uncommitted PROCESSING |
| `Steps.RefundGatewayOk` | go/internal/payment/refund.go:104-112 | The refund is sent to the gateway of the locked row, against its charge |
| `Steps.RefundAuditOk` | go/internal/payment/refund.go:114-130 | The uncommitted REFUND row carries the gateway's result |
| `Steps.RefundFinishOk` | go/internal/payment/refund.go:132-152 | The new payment status follows from the result and from what remained |
| `Steps.RefundStoreOk` | go/internal/payment/refund.go:153-155 | The refund row is settled in the transaction |
| `Steps.RefundCommitOk` | go/internal/payment/store.go:70-76 | The commit publishes exactly the atomic refund and releases the lock, fails, or loses its reply |
| `Steps.RefundRollbackOk` | go/internal/payment/store.go:70-75 | A rollback leaves the tables alone and releases the lock |
| `Runs.StatusReadOk` | go/internal/payment/service.go:147-152 | The read before a status update keeps the invariant, the promise and the call's knowledge |
| `Runs.StatusWriteOk` | go/internal/payment/store.go:128-185 | Rewriting every column from a stale copy waits for the row lock and changes nothing but the status |
| `Ledger.EventKeeps` | go/internal/payment/service.go:173-220 | Every atomic operation keeps: rows well formed, keys unique, refunds capped, audit complete; and without outside status updates, statuses that agree with totals and balance |
| `Ledger.ReplayKeeps` | go/internal/payment/refund.go:65-157 | So does every history |
| `Ledger.EventExtends` | go/internal/payment/store.go:308-349 | No operation deletes a row, changes a refund or audit row, or changes more of a payment row than its status |
| `Ledger.FailedRefundIsLast` | go/internal/payment/refund.go:143-148 | In a history without outside status updates no refund of a payment follows one that failed |
| `Records.ChargeWrites` | go/internal/payment/service.go:173-220 | The atomic charge adds two rows, says what each field of them holds, and changes nothing else |
| `Records.RefundWrites` | go/internal/payment/refund.go:89-155 | The atomic refund adds two rows, says what each field of them holds, moves the payment to REFUND_FAILED, REFUNDED or COMPLETED by result and remaining amount, and changes nothing else |
| `Records.RefusedIffBecause` | go/internal/payment/refund.go:35-87 | The checks of a refund refuse with an error if and only if the tables and the router give that reason: not found exactly if the id is absent, not allowed exactly in a status other than COMPLETED and REFUND_PENDING, a gateway error exactly if the gateway of a refundable payment is missing or disabled, and too much only if none of these holds |
| `Records.AcceptedIff` | go/internal/payment/refund.go:35-87 | They pass if and only if the payment exists, is COMPLETED or REFUND_PENDING, its gateway is registered and enabled, and the amount is at most what remains |
| `Sums.SumRemove` | go/internal/payment/refund.go:78-83 | The sum over refund rows does not depend on their order |
| `Lookups.KeyLookupAnswers` | go/internal/payment/store.go:226-238 | The newest-first lookup by key has an answer on any table |
| `Lookups.OrderLookupAnswers` | go/internal/payment/store.go:212-224 | So has the one by order |
| `Lookups.CorrelationLookupAnswers` | go/internal/payment/store.go:362-373 | So has the one by correlation id |
| `Rows.Select` | go/internal/payment/store.go:375-401 | The rows of a payment are returned each once, newest first, and none is missing |
| `Rows.RowsTotal` | go/internal/payment/refund.go:78-83 | Folding over the returned rows gives the sum over the table |
| `Rows.FoldCompleted` | go/internal/payment/refund.go:191-197 | The accumulating decimal loop computes exactly the sum of the COMPLETED rows in units of 10^-4 |
| `Stores.Store.Commit` | go/internal/payment/store.go:76-76 | A commit publishes the transaction's tables, or nothing; if it fails because its reply was lost, it has published them |
| `Stores.Store.Rollback` | go/internal/payment/store.go:70-75 | A rollback leaves the committed tables, even if the rollback call itself fails |
| `Stores.Store.CreatePayment` | go/internal/payment/store.go:79-126 | An insert fails on a used id, a used key or an amount outside NUMERIC(19,4), and else adds exactly that row; outside a transaction also when its reply is lost |
| `Stores.Store.UpdatePayment` | go/internal/payment/store.go:128-185 | An update replaces exactly that row, and fails when there is none; outside a transaction it may take effect and its reply be lost |
| `Stores.Store.GetPaymentByIdempotencyKey` | go/internal/payment/store.go:226-238 | The newest row with the key, or none exactly when no row has it |
| `Stores.Store.GetPaymentByOrderID` | go/internal/payment/store.go:212-224 | The newest row of the order, or none exactly when there is none |
| `Stores.Store.GetRefundByCorrelationID` | go/internal/payment/store.go:362-373 | The newest row with the correlation id, or none exactly when there is none |
| `Services.RefundService.Recheck` | go/internal/payment/refund.go:66-87 | Under the lock: accepts exactly a refundable payment with enough remaining, computed by the decimal fold, and says which check refuses |
| `Services.RefundService.Settle` | go/internal/payment/refund.go:132-148 | Field by field the refund and payment become what the gateway's answer and the remaining amount call for |
| `Services.RefundService.Persist` | go/internal/payment/refund.go:65-157 | Inside the transaction: the tables become exactly the atomic refund's, or the refusal is the one its checks give |
| `Services.RefundService.RunInTx` | go/internal/payment/store.go:55-77 | The closure's writes are committed together or not at all; after a failure they are committed only if the reply to the commit was lost |
| `Services.RefundService.ProcessRefund` | go/internal/payment/refund.go:26-169 | The whole procedure answers and writes exactly as the atomic refund does on the committed tables, sending one gateway call if it refunds and none if it refuses or replays. A refusal gives the reason that the tables before the call call for and changes nothing; a refund is made only when no reason holds, and its rows are given field by field. It reports a store failure only if a store call failed, and then it changed nothing, or sent one refund, committed the atomic refund and lost the reply |
| `Services.RefundService.GetTotalRefunded` | go/internal/payment/refund.go:183-198 | The total reported is the sum that the refund cap bounds |
| `Services.PaymentService.Persist` | go/internal/payment/service.go:173-220 | Inside the transaction: the tables become exactly the atomic charge's, or the key was taken |
| `Services.PaymentService.Recover` | go/internal/payment/service.go:116-122 | After a unique violation the answer is the key's holder; the violation itself is returned only if a store call failed or the lookup finds nothing |
| `Services.PaymentService.ProcessPayment` | go/internal/payment/service.go:31-125 | The whole procedure answers and writes exactly as the atomic charge does; a store failure it reports hides the atomic charge only if the reply to the commit was lost. It sends one charge or none, one if it wrote, and one only when no row holds the key and the newest payment of the order is not COMPLETED; the charge goes to the enabled gateway asked for by name, or to the default if the name is blank, for the amount and currency of the request. The rows of a payment made are given field by field; a payment found is the key's holder or, if there is none, the live payment of the order; a refusal gives its reason |
| `Services.ReplaySendsNone` | go/internal/payment/service.go:32-51 | Hence a call whose trimmed key is held, whose order is live or whose gateway is missing sends no charge |
| `Services.PaymentService.UpdatePaymentStatus` | go/internal/payment/service.go:147-163 | The row gets exactly the status given and nothing else changes, or it reports, exactly if it is so, that there is no such payment; if it fails it wrote nothing, or exactly that and lost the reply |
| `Services.RefundKeepsLedger` | go/internal/payment/refund.go:26-169 | Whatever the refund procedure answers, also after a lost reply, the tables it leaves keep the cap, the audit, unique keys and well-formed rows |
| `Services.PayKeepsLedger` | go/internal/payment/service.go:31-125 | The same for the payment procedure |
| `Services.Assembled` | go/internal/payment/refund.go:89-155 | The successive writes of an accepted refund amount to the atomic refund |
| `Services.ChargeAssembled` | go/internal/payment/service.go:173-219 | The successive writes of a payment amount to the atomic charge |
| `JavaRefund.StreamIsLoop` | src/main/java/com/shoppingcart/payment/service/RefundService.java:167-172 | The filter, map and reduce over the rows computes the same total as Go's loop |
| `JavaRefund.RefundService.Check` | src/main/java/com/shoppingcart/payment/service/RefundService.java:51-66 | The checks before the first save pass or refuse for the first reason that holds, in Java's order, with the total computed by the stream |
| `JavaRefund.RefundService.Write` | src/main/java/com/shoppingcart/payment/service/RefundService.java:68-147 | All the saves together leave exactly the final rows, unless the gateway is unknown or disabled |
| `JavaRefund.RefundService.Settle` | src/main/java/com/shoppingcart/payment/service/RefundService.java:120-145 | Comparing the new total with the amount leads to the same statuses as comparing the amount, unrounded, with what remained |
| `JavaRefund.RefundService.ProcessRefund` | src/main/java/com/shoppingcart/payment/service/RefundService.java:38-148 | For all amounts, however many places they have, all texts, null or not, trimmed or not, and any gateway name: finds an earlier refund, refuses for the first reason in Java's order, which holds of the tables before the call, or leaves exactly the final rows, with the amount as the columns round it; an exception undoes every save |
| `JavaRefund.RoundingKeepsCap` | src/main/java/com/shoppingcart/payment/entity/Refund.java:35 | For an amount of any number of places, what the columns keep of an accepted refund does not exceed what remained |
| `JavaRefund.RefundedIffCovered` | src/main/java/com/shoppingcart/payment/service/RefundService.java:120-145 | After a successful refund the status is REFUNDED exactly when the stored refunds add up to the payment, if and only if the amount was not rounded up to all that remained |
| `JavaRefund.RoundsUpBeyondFourPlaces` | src/main/java/com/shoppingcart/payment/entity/Refund.java:35 | 9.99996 of 10 is rounded up to all that remained; no amount of at most four places ever is |
| `JavaRefund.RunAll` | docs/issues/2026-06-18-copilot-pr23-review-findings.md:36-38 | Both services, run side by side on any sequence of refund requests with trimmed texts, registered gateways and equal gateway answers, give the same answers and the same reasons, except that of two reasons Go names the disabled gateway and Java the amount, and stay on equal tables |
| `JavaRefund.GoRefinesJava` | docs/issues/2026-06-18-copilot-pr23-review-findings.md:36-38 | Any two histories that satisfy the contracts of the two procedures, over the same attempts, go through the same tables and give the same answers, except where the amount is too much and the gateway disabled |
| `JavaRefund.RegisterGateways` | src/main/java/com/shoppingcart/payment/gateway/PaymentGatewayRouter.java:28-34 | Each exact name leads to the last gateway registered under it, and no other name is known |
| `JavaRefund.RoutersAgree` | src/main/java/com/shoppingcart/payment/gateway/PaymentGatewayRouter.java:45-54 | When the registered names differ by more than case, Go and Java find the same gateway under each of them |
| `JavaRefund.StepAgrees` | src/main/java/com/shoppingcart/payment/service/RefundService.java:38-148 | On the same tables the contracts of the two procedures leave the same tables and give the same answer; they differ only in the reason, and only where the amount exceeds what remains and the gateway is disabled |
| `JavaRefund.FoundAlike` | src/main/java/com/shoppingcart/payment/service/RefundService.java:43-49 | Under a trimmed id, or none, Java's lookup finds nothing exactly when Go's does |
| `JavaRefund.RefusedAlike` | src/main/java/com/shoppingcart/payment/service/RefundService.java:54-91 | For registered gateways Java's checks pass exactly when Go's do, and refuse for the same reason unless both the amount and the gateway stand against it: then Go names the gateway, Java the amount |
| `JavaRefund.MadeAlike` | src/main/java/com/shoppingcart/payment/service/RefundService.java:68-147 | A refund that Go makes leaves exactly the rows that Java saves |
| `JavaRefund.StepKeepsUnique` | src/main/java/com/shoppingcart/payment/service/RefundService.java:43-49 | A serial refund with a trimmed correlation id keeps correlation ids unique |
| `JavaRefund.ReplayFoundIffTrimmed` | go/internal/payment/refund.go:61-61 | After a refund its correlation id is found again by Go's lookup if and only if it equals its own trim |
| `Routing.NewRouter` | go/internal/gateway/gateway.go:24-36 | Each lower-cased name leads to the last gateway of that name which is not nil, and no other name is known |
| `Routing.FindsByName` | go/internal/gateway/gateway.go:38-51 | The lookup finds exactly the enabled gateway registered under the lower-cased name, and says whether it is missing or disabled |
| `Routing.ChoosesAsked` | go/internal/gateway/gateway.go:38-58 | The choice finds the gateway registered under the lower-cased name asked for, or under the default's if that is blank, exactly when it is there and enabled, and says which of the two fails; what is found bears that name up to case |
| `Routing.ResolvesBack` | go/internal/gateway/gateway.go:38-58 | The name a chosen gateway reports leads back to that very gateway, whatever name or default chose it |
| `Text.TrimIsSlice` | go/internal/payment/service.go:166-166 | Trimming drops white space at both ends and nothing else |
| `Text.StoredOrNull` | go/internal/payment/service.go:165-171 | A text is stored as NULL exactly when it is blank; otherwise a slice of it is stored and only white space around it is lost |
| `Text.LowersCapitals` | go/internal/gateway/gateway.go:33-33 | Lower-casing maps each capital letter to the small one in the same place of the alphabet and leaves every other character alone |
| `Text.RaisesSmall` | go/internal/payment/service.go:59-59 | Upper-casing maps the other way and leaves every other character alone |
| `Text.BytesOfAscii` | go/internal/payment/handler.go:207-207 | The length in bytes is between once and four times the number of characters, and equal to it exactly for plain ASCII |
| `Money.Exact` | go/internal/payment/refund.go:78-87 | Adding, subtracting and comparing decimals is exact: for all coefficients and exponents it agrees with the integers of any common unit |
| `Money.RoundKeeps` | go/internal/payment/money.go:14-16 | Rounding to four places leaves an accepted amount as it is |
| `Money.RoundBrackets` | src/main/java/com/shoppingcart/payment/entity/Refund.java:35 | Rounding to the column's four places never carries an amount, of any number of places, across a value the column can hold |
| `Money.RoundSymmetric` | go/internal/payment/money.go:14-16 | Rounding treats positive and negative amounts alike |
| `Money.RoundsNearest` | go/internal/payment/money.go:14-16 | An amount of more than four places is rounded to the nearest multiple of 10^-4, up halfway between two |
| `Money.PrintsJsonNumber` | go/internal/payment/money.go:14-16 | Every amount prints as an unquoted number (section 6 of RFC 8259) with exactly four fraction digits |
| `Numerals.ReadsNumeral` | go/internal/payment/money.go:18-25 | Whatever digits, sign, point and exponent it is written with, a numeral is read as the integer that all its digits denote, with its sign, to the exponent less the number of digits behind the point; it is refused exactly when an exponent does not fit 32 bits |
| `Numerals.ReadsExactly` | go/internal/payment/money.go:18-25 | A text is read as an amount if and only if it is such a numeral and denotes that amount; the only unusual form read has its sign behind the point |
| `Numerals.RequestAmount` | go/internal/payment/money.go:18-25 | In JSON a numeral means the same bare and in quotes, whatever white space surrounds it |
| `Numerals.NullIsZero` | go/internal/payment/money.go:18-25 | null is read as zero |
| `Numerals.OnlyAmounts` | go/internal/payment/money.go:18-25 | Apart from null nothing else is read: within the white space stands a numeral, bare or in quotes, and the amount is what it denotes |
| `Numerals.ReadsWhole` | go/internal/payment/dto.go:14-14 | A run of digits is the integer it denotes: 100 is a hundred |
| `Numerals.PlaceValue` | go/internal/payment/money.go:18-25 | Digits in front of others count ten times as much for each of them |
| `Numerals.PrintThenParse` | go/internal/payment/money.go:14-25 | Parsing what was printed gives back the amount rounded to four places, which is the amount itself if the handlers accept it |
| `MinorUnits.FitsNineteenDigits` | src/main/resources/db/migration/V1__init_schema.sql:10-10 | The column takes an amount if and only if its value in units of 10^-4 has at most nineteen digits |
| `MinorUnits.ConversionIsSafe` | src/main/java/com/shoppingcart/payment/gateway/stripe/StripeGateway.java:68-68 | An amount within NUMERIC(19,4) converts to whole minor units, rounded down, inside the signed 64-bit range |
| `MinorUnits.MinorUnitsAreSafe` | src/main/java/com/shoppingcart/payment/gateway/stripe/StripeGateway.java:142-142 | In every reachable state the minor units refunded never exceed those charged, and a payment refunded in full by k refunds falls short by at most k - 1 |
| `Handler.AcceptedPayment` | go/internal/payment/handler.go:197-212 | A payment request passes validation if and only if order and customer are not blank, the amount is positive with at most four places and the trimmed currency is three bytes long; then it can start a call |
| `Handler.PaymentToldFirst` | go/internal/payment/handler.go:197-212 | A refused payment request is told the first thing wrong with it, in the order blank order, blank customer, amount not positive, too many places, currency |
| `Handler.KeyChosen` | go/internal/payment/handler.go:43-49 | The key is the first of X-Idempotency-Key, Idempotency-Key and the body's that is not blank |
| `Handler.PaymentBodyStored` | go/internal/payment/handler.go:32-51 | From the body to the row: if a body passes validation and its call commits, then in every later state the row has the body's order, customer and units, its currency trimmed and upper-cased, the gateway it names or the default, the correlation header, and the chosen key, each blank text as NULL |
| `Handler.AcceptedRefund` | go/internal/payment/handler.go:214-222 | A refund request passes validation if and only if its amount is positive with at most four places, and then can start a call |
| `Handler.RefundToldFirst` | go/internal/payment/handler.go:214-222 | A refused refund request is told that its amount is not positive, or else that it has too many places |
| `Handler.RefundBodyStored` | go/internal/payment/handler.go:169-177 | The same for a refund: the payment of the path, the units and the reason of the body, X-User-ID as its initiator, the correlation header |
| `Handler.AcceptedAmount` | go/internal/payment/service.go:230-232 | The sign check on the decimal is the sign of its units |
| `RateLimiter.Limiter.GetLimiter` | go/internal/httpx/middleware.go:85-95 | A known IP keeps its bucket and an unknown one gets a full one; both are marked as seen |
| `RateLimiter.Limiter.Serve` | go/internal/httpx/middleware.go:67-83 | Decides by the IP's bucket alone and changes no other entry; disabled or actuator requests pass untouched |
| `RateLimiter.Limiter.Sweep` | go/internal/httpx/middleware.go:97-110 | The loop that deletes while iterating removes exactly the stale entries and keeps the others unchanged |
| `RateLimiter.EvictionUnobservable` | go/internal/httpx/middleware.go:67-110 | For every trace over any IPs and sweeps, each decision is that of a bucket that saw all requests of its IP, was never forgotten, and knows nothing of other IPs |
| `RateLimiter.EvictionObservable` | go/internal/httpx/middleware.go:40-40 | If the burst takes longer than the time to live to fill, some trace tells the two apart |
| `RateLimiter.UnobservableIffBurstFits` | go/internal/config/config.go:95-96 | Eviction is unobservable if and only if the burst fills within ten minutes |
| `RateLimiter.RateBound` | go/internal/httpx/middleware.go:57-95 | Across any sweeps and re-creations an IP gets at most burst + limit * T requests in a window of length T |
| `RateLimiter.PassesIffDue` | go/internal/httpx/middleware.go:67-95 | A request is let through if and only if it is due: if with it no window that ends now exceeds burst + limit * T; so a denied request costs an IP nothing |
| `RateLimiter.EntriesAreRecent` | go/internal/httpx/middleware.go:39-42 | While sweeps are at most a minute apart, every entry was seen within the last eleven minutes |

## Left out

- Services.PaymentService.ProcessPayment: column lengths (a key over 50 characters, say) are not checked; they are
  among the store failures.
- Stores.Store.Rollback: runs of a panic through the recover handler are those of a call that vanishes.
- RateLimiter.Limiter.Serve: fetching the bucket and asking it are one step, and the bucket follows the documented
  contract of golang.org/x/time/rate in exact arithmetic.
- JavaRefund.RefundService.ProcessRefund: the object returned still carries an amount that the columns round; the
  model returns the row.
- JavaRefund.RunAll: store failures, which would make the two services diverge by themselves, and amounts of more than
  four places, which Go's handlers refuse.
- Theorems.Serializable: the atomic payment does not make the order lookup, which is out of date in overlapping calls;
  `Limits.PermittedIffSerialAndSettled` says when it holds. A refusal for a missing gateway is given where the order
  lookup holds, but the key may have been taken since it was looked up.
- Limits.OneChargeIffSerialAndTrimmed: a gateway that recognises an idempotency key (the Stripe client passes it on)
  may answer a second request with the first charge; the model leaves every answer open.
- Payment, refund and transaction objects are values in local variables: each belongs to one call, so nothing is lost
  about sharing between calls, but aliasing is not modelled.
- The interface check for a store without transactions: the production store always has them.
- Timestamps other than the creation times that order the lookups; card, billing, payment method and metadata fields;
  the gateway's raw response. They are copied through.
- Column lengths, and NUMERIC rounding in the Go services, whose handlers refuse amounts of more than four places.
- Lower and upper case of letters outside ASCII.
- HTTP routing, JSON binding apart from amounts, error mapping, logging, health, metrics: settled by reading one
  branch.
- SQL text, row scanning and the driver: tables are maps, with the contract of row locks and of the unique index.
- The Stripe and PayPal calls and the mock gateway: the gateway's answer is arbitrary.
- Encryption, token storage, payment methods, the Java payment service and controller, security and configuration
  loading.
