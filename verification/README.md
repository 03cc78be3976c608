# VanillaPay: verified model of the payment and subscription core

VanillaPay collects money through static QR codes. A payment is recognised only by merchant, channel and exact
cents, so what keeps money and entitlements right is a set of transactions over shared tables. This project
models those transactions in Dafny 4.11 and proves what they promise, for every reachable state and every
interleaving of calls. `dafny verify dfyconfig.toml` checks all of it.

## How it is built

| file | what it holds |
|---|---|
| `Base.dfy` | options, results, error codes, instants (whole microseconds), sums over tables |
| `Batches.dfy` | the scan a batch starts with |
| `Allocation.dfy` | the nudge that makes a price unique among live orders |
| `Money.dfy` | amounts read from and written as text |
| `Payment.dfy` | orders, amount reservations, receipts, refunds: row updates and the invariant over the tables |
| `Entitlement.dfy` | what a chain of grants entitles to: the fold over its rows and the fold's closed form |
| `Ledger.dfy` | plans, purchases, quota counters, grants, the cached subscription row |
| `System.dfy` | every service call as a function from the state of all tables to a result |
| `Steps.dfy` | each call keeps the invariant across all tables |
| `Runs.dfy` | calls interleaved in any order under a clock that never goes back; reachable states |
| `Effects.dfy` | what each call does, on the rows of the tables: when it goes through, what it writes, and that nothing else changes |
| `Guarantees.dfy` | the main theorems about reachable states and runs |
| `Witnesses.dfy` | reachable states, built call by call, in which a promise fails |
| `Database.dfy` | the same tables as fields of a class, updated statement by statement, with commit and rollback |
| `Callback.dfy` | the callback machine: attempts, back-off, reclaiming, generations, replays |
| `Devices.dfy` | heartbeats, silences and offline alerts |
| `Locks.dfy` | transaction retries, the in-place lock order, freedom from deadlock |
| `Portal.dfy` | order listing, signed cursors, and the walk through the pages |

A returned error rolls the transaction back. Each call of `System` is one transaction and reads the clock once;
batch loops scan first and then run one transaction per item, with the calls of others in between, which the
batch methods of `Database` and `Devices` take as a parameter (`rivals`). The imperative
methods are proved equal to the functions, and the theorems are about the functions and the runs made of them. What a
function does is in turn stated on the rows of the tables, without the functions it is made of (`Effects`, and the
`...Effect` lemmas of `Callback` and `Devices`).
The unique indexes of `internal/db/migrations` are modelled as insert errors where a call can meet them.

Where the code and its own promises differ, the code is modelled:

- A resent unmatched receipt answers with the stored reason, which is always `no_matching_order`, although the
  first answer may have said `merchant_banned` or `expired` (internal/device/ingest.go:96 against 120-123).
  `Guarantees.ResentReceipt` says exactly when, by the guards of the first call: the event is new, and its merchant
  is banned, or nothing matches and an overdue pending order asks for the amount. `Witnesses.BanIsForgotten` builds
  a state where it happens.
- Refunding a purchase does not always take its own time back: later grants keep their own start. A refund on the
  active chain moves the end exactly when no live grant comes after the refunded one, and then to the end of the live
  grant before it, or to now; it takes back exactly the plan's duration exactly when, besides, the live grant before
  it ends where it starts, whatever was refunded earlier (`Guarantees.RefundingMovesEnd`, over reachable states;
  `Entitlement.RefundTakesBack`, over chains). In the reachable state of `Witnesses.RefundsMismatch` the first of two
  refunds takes back nothing and the second both months.
- A confirmed callback is final over every run exactly when none of its attempts still waits for a result
  (`Callback.ConfirmedForGood`). A worker that hangs past the two minutes leaves such an attempt, and its late failure
  overwrites the success (`Callback.HungWorker`; `Callback.LateFailureUndoesSuccess` for one call). In runs whose
  attempts finish in time a success is final (`Callback.SuccessIsFinal`).
- After the cancelling branch (internal/payment/callback.go:85-88) and the exhausted branch (98-101) of
  `ProcessCallback` the code goes on with the event id set and no order id. Whatever happens then changes no
  row, so the model ends the call there.
- `FormatMoney` and the callback's own `formatMoney` agree exactly on the amounts whose remainder is not
  negative (`Money.WritersAgree`).

## Model

| member | source | states |
|---|---|---|
| `Guarantees.CacheIsLedger` | internal/subscription/service.go:687-759 | in every reachable state a merchant's cached row has the expiry of the fold over the unvoided grants of its active chain in (effective_at, id) order and the snapshot of its last live grant, or is cleared when none of them is live |
| `Guarantees.PaidTimeIsHad` | internal/subscription/service.go:510-543 | the entitlement ends exactly where the last live grant of the active chain on its own would, no earlier than any live grant's start plus all live time from it on, and exactly at the chain's start plus the time bought when nothing was refunded |
| `Guarantees.PayingExtends` | internal/subscription/service.go:477-549 | paying a purchase bought as a renewal before the entitlement ends keeps the chain and moves its end by exactly the plan's days; any other starts a chain no grant or row has, from the instant of payment; no other merchant is touched |
| `Effects.FulfilmentWrites` | internal/subscription/service.go:503-545 | the rest of what a payment writes to the books: the purchase as paid, its grant as the last row with chain, start and duration, and on a switch the end of every unvoided grant of the chain replaced |
| `Guarantees.RefundingNeverExtends` | internal/subscription/service.go:551-596 | a refund marks purchase and grant refunded, changes no entitlement except through the active chain, gives no quota back, and never moves an end past the larger of the old end and now; `RefundingMovesEnd` gives the new end itself |
| `Guarantees.RefundingMovesEnd` | internal/subscription/service.go:551-596 | in every reachable state, the exact end after refunding a grant of the active chain: unchanged when a live grant comes after it, else the end of the live grant before it, or now; and it falls by the grant's own duration if and only if no live grant comes after and the live one before ends where it starts |
| `Witnesses.RefundsMismatch` | internal/subscription/service.go:551-596 | a reachable state in which refunding the first of two months takes back nothing and refunding the second then takes back both |
| `Guarantees.PurchaseOrderGrantAgree` | internal/subscription/service.go:477-596 | a purchase is paid or refunded exactly when its order is; the order asks for the price of the plan as it was bought, on channels of that plan; an ever-paid purchase has exactly one grant, any other none |
| `Effects.BuyingGuards` | internal/subscription/service.go:244-381 | under a new key a purchase goes through if and only if the plan is as quoted, the subscription as expected, a switch confirmed, no purchase of the buyer waiting, quota left, and the billing merchant entitled, online, with a channel and in bounds |
| `Effects.BuyingWrites` | internal/subscription/service.go:353-408 | it then stores the plan's price, days and channels as they are, as renewal, switch or first purchase according to the buyer's entitlement at that instant, and an order of the billing merchant over the plan's price, on channels both have, payable for the site's time |
| `Effects.BuyingAgain` | internal/subscription/service.go:279-305 | a purchase submitted again as it was answers without changing anything; another request under its key is refused |
| `Effects.StaleQuoteIsRefused` | internal/subscription/service.go:322-324 | once a plan was edited or deleted, no purchase that quotes its earlier revision ever goes through again, over any run |
| `Effects.PlanEffect` | internal/subscription/service.go:48-91 | a valid plan is added at revision one; one edited as it was quoted moves on to the next revision |
| `Guarantees.NeverFulfilledTwice` | internal/payment/service.go:394-454 | paying again changes nothing, and an order whose purchase is cancelled, expired or past its deadline cannot be paid, by hand or not |
| `Guarantees.QuotaCounts` | internal/subscription/service.go:368-408 | reserved_count is the number of pending purchases and paid_count the number ever paid, for every merchant and plan |
| `Guarantees.QuotaStep` | internal/subscription/service.go:372-381 | one call adds at most one use, and only while the plan's limit leaves some |
| `Guarantees.QuotaIsNeverExceeded` | internal/subscription/service.go:372-381 | while a plan's limit stays at or under a bound, no merchant's uses pass it over any run |
| `Guarantees.NoAmbiguousPayment` | internal/device/ingest.go:103-110 | two live orders of a merchant never share channel and cents, so an order that a receipt fits, by its columns, is the only one and the one found |
| `Effects.ReceiptIsMatched` | internal/device/ingest.go:53-118 | a report is answered as the payment of an order, subscription or not, if and only if it is authorised, new and of a valid amount, its merchant not banned, and the order pending, for the same merchant, channel and cents, locked before and not overdue at the time of payment, neither then nor when it was seen |
| `Effects.ReceiptPays` | internal/device/ingest.go:94-118 | such a report pays that order and stores the receipt with it |
| `Effects.ReceiptIsUnmatched` | internal/device/ingest.go:91-124 | one that no order fits, or of a banned merchant, is stored unmatched with its reason, and nothing else changes |
| `Effects.LateMatchIsRefused` | internal/device/ingest.go:94-118 | one whose order ran out between being seen and being paid is refused |
| `Guarantees.ReceiptsAndPaymentsBiject` | internal/device/ingest.go:94-118 | matched receipts and automatically paid orders correspond one to one with equal merchant, channel, cents and times inside the lock; both sums of cents agree per merchant |
| `Guarantees.ResentReceipt` | internal/device/ingest.go:61-81 | resending an event after any run changes nothing and returns the same receipt, match and order; the reason differs if and only if the first call found no stored event and the merchant banned, or no match and an overdue pending order of that amount |
| `Witnesses.BanIsForgotten` | internal/device/ingest.go:91-124 | a reachable state in which a banned merchant's receipt is answered with the ban, and with `no_matching_order` when resent |
| `Guarantees.OrderLife` | internal/payment/service.go:394-454 | over any run: pending to paid or expired, expired to paid only by hand, paid to refunded; terms once set never change |
| `Guarantees.OrderTerms` | internal/payment/service.go:618-810 | channel and amount set together, allowed, within 999 cents; at most one pending refund, only while paid, and one completed refund, only when refunded |
| `Guarantees.Quarantine` | internal/payment/service.go:926-961 | after an order with a locked amount expired, no other order of the merchant locks that amount before a day past its deadline, unless the order was paid by hand |
| `Guarantees.LockingStep` | internal/payment/service.go:253-289 | the step that locks an amount finds each earlier holder paid, or expired a day past its deadline |
| `Guarantees.BannedOwnNothingPending` | internal/merchant/service.go:128-196 | a banned merchant owns no pending order in any reachable state |
| `Guarantees.BannedAreNotPaid` | internal/device/ingest.go:91-104 | no step pays an order of a banned merchant |
| `Effects.PaymentGuards` | internal/payment/service.go:394-438 | when an unpaid order can be paid: by a receipt while pending and not overdue, by hand also when expired, on the channel it was priced for, and for a subscription while its purchase waits |
| `Effects.PaymentWrites` | internal/payment/service.go:394-454 | paying writes one order row, for the locked amount or else the price, releases its amount, and touches no other payment row |
| `Effects.SupplementPays` | internal/payment/service.go:489-533 | vouching without a key pays exactly the unpaid orders of the merchant on an allowed channel, and is refused otherwise |
| `Effects.SupplementKeyed` | internal/payment/service.go:489-533 | with a key a first submission does the same and records it for a day; an answered key does nothing, or conflicts for another request |
| `Effects.KeyRule` | internal/payment/idempotency.go:27-29 | which keys are accepted; under any other the command is refused |
| `Guarantees.SupplementAtMostOnce` | internal/payment/service.go:489-533 | within 24 hours of a success under a key, any submission under it leaves the state alone; another digest is refused |
| `Guarantees.RefundMarkAtMostOnce` | internal/payment/service.go:746-777 | the same for marking an order refunded |
| `Guarantees.BoughtAtMostOnce` | internal/subscription/service.go:279-305 | once a purchase was made under a key, no submission under that key ever changes anything again, and another request is refused |
| `Guarantees.CommandOutlivesRun` | internal/payment/idempotency.go:26-62 | a record survives every run until its day is over |
| `Effects.RefundEffect` | internal/payment/service.go:779-810 | exactly the paid orders can be refunded; the order, its pending request, its purchase and that purchase's one grant are refunded together, and no other row of those tables changes |
| `Effects.ResolveEffect` | internal/payment/service.go:704-740 | rejecting a request of the merchant's own paid order marks the pending request rejected and nothing else; approving it refunds the order and completes the request |
| `Effects.RequestEffect` | internal/payment/service.go:618-692 | a refund can be asked for only by the merchant of a paid order and over its whole price; a pending request answers for itself unless it was another one |
| `Effects.RefundMarkEffect` | internal/payment/service.go:746-777 | marking an order refunded, with or without a key |
| `Effects.OccupiedIsTaken` | internal/payment/service.go:926-945 | the amounts held back from a new lock are exactly those of the merchant's orders that are pending, or expired less than a day past their deadline |
| `Effects.AmountIs` | internal/payment/service.go:926-961 | an amount is found if and only if one is askable and not taken, and it is then the nearest to the price |
| `Effects.EligibleIs` | internal/payment/eligibility.go:33-100 | a merchant takes an order if and only if it is not banned, entitled now, online, and the price is in bounds; its channels are those it was granted |
| `Effects.CreateGuards` | internal/payment/service.go:56-149 | when exactly an order opens |
| `Effects.CreateWrites` | internal/payment/service.go:56-149 | the one row it adds, and with a channel the nearest free amount and its reservation |
| `Effects.SelectGuards` | internal/payment/service.go:198-294 | when exactly a channel can be chosen |
| `Effects.SelectWrites` | internal/payment/service.go:198-294 | a first choice locks the nearest free amount of that order alone; the same choice again changes nothing |
| `Effects.ExpiryEffect` | internal/payment/service.go:598-616 | an order expires if and only if it is pending and overdue, and its amount is released a day past its deadline |
| `Effects.CancelEffect` | internal/subscription/service.go:426-475 | a buyer can cancel exactly its own waiting purchase, which cancels it and its waiting order |
| `Effects.CloseEffect` | internal/subscription/service.go:784-803 | a purchase closes if and only if it waits and is overdue |
| `Effects.DeletionEffect` | internal/subscription/service.go:93-160 | deleting a plan as it was quoted cancels every purchase waiting for it with its order, none is left waiting, and nothing else changes |
| `Effects.GrantEffect` | internal/subscription/service.go:598-685 | a grant by hand cancels the merchant's waiting purchases, voids its active chain and entitles it, on a fresh chain, to exactly the given channels of the plan until the given instant |
| `Effects.BanEffect` | internal/merchant/service.go:128-196 | a ban leaves no waiting order and no waiting purchase of the merchant, expires the orders of those purchases at the billing merchant, quarantines the amounts, and changes no other row |
| `Effects.UnbanEffect` | internal/merchant/service.go:221-241 | lifting a ban changes nothing else |
| `Runs.ReachableOk` | internal/payment/service.go:56-149 | the invariant across all tables holds in every reachable state |
| `Runs.RunKeeps` | internal/db/sqlc/tx.go:18-42 | any interleaving of calls keeps the invariant and only moves rows along their lives |
| `Runs.NextKeeps` | internal/db/sqlc/tx.go:18-42 | one call, committed or not, keeps the invariant and the clock |
| `Steps.CreateKeeps` | internal/payment/service.go:56-149 | opening an order, with or without a channel, keeps the invariant |
| `Steps.SelectChannelKeeps` | internal/payment/service.go:198-294 | choosing a channel locks an amount no live or quarantined order of the merchant holds, and keeps the invariant |
| `Steps.FreeAmountIsFree` | internal/payment/service.go:926-961 | the amount found is not reserved and lies within 999 cents of the price |
| `Steps.MarkPaidRoute` | internal/payment/service.go:394-454 | an order that can be paid has a pending purchase, if any, and exactly that one is fulfilled |
| `Steps.MarkPaidBooks` | internal/payment/service.go:439-450 | paying keeps purchases, quota, grants and cached rows consistent with the orders |
| `Steps.IngestKeeps` | internal/device/ingest.go:53-135 | an ingested receipt keeps the invariant, matched or not |
| `Steps.SupplementKeeps` | internal/payment/service.go:472-535 | paying by hand keeps the invariant, whether first, repeated or unpriced |
| `Steps.ExpireDueKeeps` | internal/payment/service.go:598-616 | expiring one due order starts its quarantine and keeps the invariant |
| `Steps.RequestRefundKeeps` | internal/payment/service.go:618-692 | a refund request keeps the invariant and settles nothing |
| `Steps.ResolveRefundKeeps` | internal/payment/service.go:704-740 | completing or rejecting a request keeps the invariant; which of the two does what is `Effects.ResolveEffect` |
| `Steps.MarkRefundedKeeps` | internal/payment/service.go:779-810 | a refund keeps the invariant across order, purchase, grant and cached row |
| `Steps.RefundMarkKeeps` | internal/payment/service.go:746-777 | the idempotent form keeps the invariant |
| `Steps.PurchaseKeeps` | internal/subscription/service.go:244-424 | buying inserts a purchase and an order over its price that point at each other, reserves quota, and keeps the invariant |
| `Steps.CancelPurchaseKeeps` | internal/subscription/service.go:426-475 | cancelling touches one purchase and its pending order and keeps the invariant |
| `Steps.CancelAllKeeps` | internal/subscription/service.go:809-852 | cancelling many changes nothing but pending purchases and their pending orders |
| `Steps.CloseDueKeeps` | internal/subscription/service.go:762-805 | closing an overdue purchase releases its quota and keeps the invariant |
| `Steps.DeletePlanKeeps` | internal/subscription/service.go:93-160 | deleting a plan cancels its pending purchases and keeps the invariant |
| `Steps.AddPlanKeeps` | internal/subscription/service.go:48-91 | a new plan keeps the invariant |
| `Steps.EditPlanKeeps` | internal/subscription/service.go:48-91 | editing a plan keeps the invariant; purchases keep their snapshot |
| `Steps.GrantManuallyKeeps` | internal/subscription/service.go:598-685 | a manual grant replaces the active chain and keeps the invariant |
| `Steps.BanKeeps` | internal/merchant/service.go:128-196 | a ban leaves no pending order or purchase of the merchant and keeps the invariant |
| `Steps.UnbanKeeps` | internal/merchant/service.go:221-241 | lifting a ban keeps the invariant |
| `Payment.LockOrderKeeps` | internal/payment/service.go:253-289 | locking a free amount keeps amounts distinct and held |
| `Payment.PayManuallyKeeps` | internal/payment/service.go:394-438 | paying by hand releases the amount and leaves the receipts' books balanced |
| `Payment.SettleKeeps` | internal/device/ingest.go:103-118 | paying by receipt keeps receipts and payments one to one and the sums equal |
| `Payment.AddUnmatchedKeeps` | internal/device/ingest.go:94-124 | an unmatched receipt keeps the books balanced |
| `Payment.ExpireOrderKeeps` | internal/payment/service.go:598-616 | an expired order holds its amount until a day past its deadline |
| `Payment.ExpireBannedKeeps` | internal/payment/service.go:537-546 | expiring a banned merchant's orders leaves none pending and each amount quarantined |
| `Payment.RefundOrderKeeps` | internal/payment/service.go:779-810 | a refund completes the one pending request, if any, and nothing else |
| `Payment.AddRefundKeeps` | internal/payment/service.go:618-692 | at most one pending request for an order |
| `Payment.NoAmbiguousPayment` | internal/device/ingest.go:105 | at most one order matches a receipt |
| `Payment.LockRespectsQuarantine` | internal/payment/service.go:926-961 | an amount is locked only when earlier holders are paid or a day past their deadline |
| `Entitlement.ChainRowsOrdered` | internal/subscription/service.go:688 | exactly the rows of the chain, ordered by effective time |
| `Entitlement.FoldedInserted` | internal/subscription/service.go:718-742 | a grant that starts after every live one is folded last, wherever refunded rows sort it |
| `Entitlement.FoldedCoversLive` | internal/subscription/service.go:718-742 | the fold ends no earlier than any live grant on its own would |
| `Entitlement.ClosedForm` | internal/subscription/service.go:715-742 | the fold's end is the maximum over live grants of anchor plus all live time from it on, and none exactly when no grant is live |
| `Entitlement.RefundNeverExtends` | internal/subscription/service.go:718-742 | refunding any of the rows never moves the end later |
| `Entitlement.ChosenIsLast` | internal/subscription/service.go:718-742 | what a chain entitles to is the snapshot of its last live grant |
| `Entitlement.StackedEnd` | internal/subscription/service.go:510-543 | a chain whose live purchases each start no earlier than the time before them ends, however refunded, where its last live grant on its own would; every reachable chain is such a chain |
| `Entitlement.RefundMoves` | internal/subscription/service.go:551-596 | on any such chain, whatever was refunded before, a refund moves the end if and only if no live grant comes after the refunded one, and then to the end of the live grant before it |
| `Entitlement.GaplessEnd` | internal/subscription/service.go:510-543 | a chain without refunds ends at its anchor plus the sum of the durations |
| `Entitlement.RefundTakesBack` | internal/subscription/service.go:551-596 | on any such chain a refund takes back exactly its own duration if and only if no live grant comes after it and the live one before it ends where it starts |
| `Entitlement.LateRefundTakesBackBoth` | internal/subscription/service.go:551-596 | on any such chain, refunding the last live grant after the live one before it moves the end back past both |
| `Ledger.FulfilKeeps` | internal/subscription/service.go:477-549 | fulfilling a purchase keeps quota, grants, chains and cache consistent |
| `Ledger.FulfilExtends` | internal/subscription/service.go:510-543 | by how much fulfilling a purchase extends the entitlement and on which chain, on the rows before it |
| `Ledger.FulfilWrites` | internal/subscription/service.go:503-545 | what fulfilling writes to purchases and grants |
| `Ledger.ReserveKeeps` | internal/subscription/service.go:368-408 | opening a purchase reserves one unit and keeps the books |
| `Ledger.CloseQuota` | internal/subscription/service.go:459-464 | releasing a pending purchase lowers reserved_count by one; the clamp at zero never binds |
| `Ledger.FulfilQuota` | internal/subscription/service.go:535-540 | paying takes one from reserved_count and adds one to paid_count, and both stay the counts of the purchase table; the clamp at zero never binds |
| `Ledger.RefundQuota` | internal/subscription/service.go:575 | a refund leaves both counts right without touching them |
| `Ledger.CloseKeeps` | internal/subscription/service.go:784-803 | closing a pending purchase as cancelled or expired keeps the books |
| `Ledger.OverrideKeeps` | internal/subscription/service.go:653-676 | a manual grant starts a chain of its own and keeps the books |
| `Ledger.TakeBackKeeps` | internal/subscription/service.go:551-596 | taking a grant back keeps the cache equal to the fold |
| `Ledger.RefundEffect` | internal/subscription/service.go:576-590 | only the active chain's refund reaches the cached row |
| `Ledger.RefundMovesEnd` | internal/subscription/service.go:576-590 | the recomputed end after a refund on the active chain, and when it falls by exactly the grant's duration |
| `Ledger.RenewalExtends` | internal/subscription/service.go:512-534 | a renewal of a live chain adds exactly its own duration to the fold |
| `Ledger.PaidTimeIsConserved` | internal/subscription/service.go:687-759 | the cached end is the end of the last live grant, and lies no earlier than any live anchor plus the live time from it on |
| `Allocation.AllocateAmount` | internal/payment/amount.go:69-87 | returns the free payable amount nearest the price in the chosen direction, and fails exactly when the clipped window is full |
| `Allocation.WindowIs` | internal/payment/amount.go:73-80 | the amounts that may be asked for lie above the price for "up" and below it for "down", within the limit and in range |
| `Allocation.NearestFree` | internal/payment/amount.go:77-86 | everything payable nearer than the amount found is occupied |
| `Allocation.AllocatedIsFree` | internal/payment/amount.go:77-86 | the amount is free, payable and within 999 cents |
| `Allocation.FillsToCapacity` | internal/payment/amount.go:69-87 | repeated allocation from empty fills the window in distance order to exactly its capacity |
| `Money.ParseCents` | internal/payment/amount.go:13-57 | accepts exactly digits with an optional one- or two-digit fraction whose value is in range, and returns that value |
| `Money.ParseInt` | internal/payment/amount.go:38-41 | reads a number or reports overflow, exactly at the 64-bit bound |
| `Money.Combine` | internal/payment/amount.go:38-56 | whole and fraction make exactly the cents they denote, refused out of range, without overflow |
| `Money.DenotesOnce` | internal/payment/amount.go:13-57 | no string denotes two amounts |
| `Money.RoundTrip` | internal/payment/amount.go:59-67 | what FormatMoney writes is read back, for 1 to 999999999 cents |
| `Money.Normalised` | internal/payment/amount.go:13-67 | writing what was read keeps the amount |
| `Money.WritersAgree` | internal/payment/callback.go:346 | both writers agree exactly when the remainder is not negative |
| `Money.TwoDigitsWritten` | internal/payment/amount.go:62-67 | two digits of the right value for every remainder |
| `Money.TrimmedIs` | internal/payment/amount.go:14-16 | trimming leaves exactly the strings alone that neither begin nor end with white space |
| `Database.Database.ReserveAmountTx` | internal/payment/service.go:926-961 | drops lapsed reservations and finds the free amount among the rest, row by row |
| `Database.Database.InsertReservation` | internal/payment/service.go:132-140 | inserts the row unless it breaks a unique index |
| `Database.Database.CreateOrder` | internal/payment/service.go:56-149 | commits exactly the modelled order and reservation, or leaves every table alone |
| `Database.Database.PickChannel` | internal/payment/service.go:198-294 | commits exactly the modelled lock, or leaves every table alone, the expiry at 224-229 included |
| `Database.Database.RecomputeChainTx` | internal/subscription/service.go:687-759 | the loop computes the fold and rewrites the cached row |
| `Database.Database.InsertGrantTx` | internal/subscription/service.go:503-534 | adds the grant to the live chain it renews, starting at its end, or to a new one starting now, voiding what a switch replaces |
| `Database.Database.PaidTx` | internal/subscription/service.go:477-549 | fulfils a pending purchase once, or refuses |
| `Database.Database.MarkPaidTx` | internal/payment/service.go:394-454 | pays, releases the amount and fulfils in one transaction, or refuses |
| `Database.Database.BeginIdempotencyTx` | internal/payment/idempotency.go:26-53 | refuses keys that are too short, too long, padded with blanks or hold CR, LF or NUL; else answers new, replayed or conflict, dropping the lapsed record of the key |
| `Database.Database.SupplementOrder` | internal/payment/service.go:472-535 | commits the payment by hand and its record, or leaves every table alone |
| `Database.Database.ExpireOneTx` | internal/payment/service.go:598-616 | expires the order if it is still due |
| `Database.Database.ExpireBatch` | internal/payment/service.go:548-596 | the batch is the run that takes, for each scanned order, what others commit before it and then the single expiry step of that order at that instant; it counts exactly the steps that changed a row, and afterwards no scanned order is pending |
| `Database.ScannedIs` | internal/payment/service.go:548-553 | the scan picks waiting overdue orders, each once, oldest deadline first, and leaves one out only for earlier ones at the limit |
| `Database.Database.ExpireAll` | internal/payment/service.go:571-595 | the loop over the scanned orders, for any list of orders due at the scan |
| `Database.Database.IngestTx` | internal/device/ingest.go:53-135 | inserts the receipt, pays the matching order and links both |
| `Database.Database.IngestReceipt` | internal/device/ingest.go:24-137 | commits exactly the modelled receipt and payment, or leaves every table alone |
| `Database.Database.AskRefund` | internal/payment/service.go:618-692 | commits exactly one pending request, or leaves every table alone |
| `Database.Database.RefundedTx` | internal/subscription/service.go:551-596 | refunds purchase and grant and recomputes the cached row only on the active chain |
| `Database.Database.MarkRefundedTx` | internal/payment/service.go:779-810 | refunds order, purchase and grant and completes the pending request |
| `Database.Database.ResolveRefundRequest` | internal/payment/service.go:704-740 | commits the completed or rejected request, or leaves every table alone |
| `Database.Database.MarkOrderRefunded` | internal/payment/service.go:746-777 | commits the refund and its record, or leaves every table alone |
| `Database.Database.CreateSubscriptionOrderTx` | internal/payment/service.go:153-185 | opens the billing order for the allowed channels, or reports billing not ready |
| `Database.Database.Buy` | internal/subscription/service.go:244-424 | commits purchase, order and reserved quota together, or leaves every table alone |
| `Database.Database.CancelSubscriptionOrderTx` | internal/payment/service.go:187-196 | expires a pending subscription order and quarantines its amount |
| `Database.Database.CancelListedTx` | internal/subscription/service.go:809-852 | the loop cancels each listed purchase and its order once |
| `Database.Database.CancelBuying` | internal/subscription/service.go:426-475 | commits the cancelled purchase, or leaves every table alone |
| `Database.Database.CloseExpiredPurchases` | internal/subscription/service.go:762-805 | the batch is the run that takes, for each scanned purchase, what others commit before it and then the single closing step of that purchase; it counts exactly the steps that changed a row, and afterwards no scanned purchase is pending |
| `Database.ScannedPurchasesIs` | internal/subscription/service.go:762-769 | the same for waiting overdue purchases |
| `Batches.ScanIs` | internal/payment/service.go:548-553 | a limited scan by key and id holds only wanted rows, each once and in order, and leaves out only rows that come after all of them |
| `Database.Database.CloseAll` | internal/subscription/service.go:784-805 | the loop over the scanned purchases, for any list of purchases due at the scan |
| `Database.Database.DropPlan` | internal/subscription/service.go:93-160 | commits the deleted plan and its cancelled purchases, or leaves every table alone |
| `Database.Database.OverrideTx` | internal/subscription/service.go:653-676 | voids the active chain and starts one with the manual grant alone |
| `Database.Database.Grant` | internal/subscription/service.go:598-685 | at most three attempts; each earlier one read a lock set that no longer covered the pending billing merchants when its locks were granted; the first that covers them does the transaction on what others had committed by then, or rolls it back; without one, a version conflict that leaves only what others did |
| `Database.Database.ExpirePendingForBannedTx` | internal/payment/service.go:537-546 | afterwards no order of the merchant is pending, the amount of each that was is released a day past its deadline, and no other order and no other merchant's reservation changes |
| `Database.Database.BanMerchant` | internal/merchant/service.go:128-219 | at most three attempts; each earlier one read a lock set that no longer covered the pending billing merchants when its locks were granted; the first that covers them does the transaction on what others had committed by then, or rolls it back; without one, a version conflict that leaves only what others did |
| `Database.Database.AcquireLocks` | internal/merchant/service.go:128-196 | the retry loop: it stops at the first attempt whose lock set covers the pending billing merchants as they are when the locks are granted, after at most three, and others' commits are all that happened |
| `Database.Database.LockOnce` | internal/merchant/service.go:141-166 | one attempt: the set read before the locks is compared with the set read under them |
| `Database.CoveredIs` | internal/merchant/service.go:141-166 | covered means, on the rows, that whoever bills a waiting purchase of the merchant once the locks are granted is the merchant itself or billed one when they were chosen |
| `Database.Database.UnbanMerchant` | internal/merchant/service.go:221-241 | lifts the ban and changes nothing else |
| `Database.EqualDigest` | internal/payment/idempotency.go:64-73 | the full-length comparison is equality |
| `Locks.Store.InTx` | internal/db/sqlc/tx.go:18-42 | success is one run of the body on what others committed; failure leaves only what others committed; conflict is reported after exactly three conflicts |
| `Locks.Sort` | internal/db/sqlc/tx.go:63-64 | in place: sorted, a permutation |
| `Locks.Compact` | internal/db/sqlc/tx.go:65-71 | in place over the ids already read: what the compaction keeps |
| `Locks.DistinctIs` | internal/db/sqlc/tx.go:65-71 | of sorted ids, exactly the distinct positive ones in ascending order |
| `Locks.LockOrder` | internal/db/sqlc/tx.go:63-75 | the ids locked are exactly the distinct positive ones, ascending |
| `Locks.LockOrderIsUnique` | internal/db/sqlc/tx.go:63-75 | a set of merchants has one lock order |
| `Locks.StepKeeps` | internal/db/sqlc/tx.go:54-87 | a grant or release never makes conflicting locks be held together |
| `Locks.SomeHolderMoves` | internal/db/sqlc/tx.go:72-86 | following the waits from a holder of the settings row leads to a transaction that can move |
| `Locks.NoDeadlock` | internal/db/sqlc/tx.go:52-87 | for any number of transactions and any schedule, as long as one is unfinished one can move |
| `Locks.SchedulesEnd` | internal/db/sqlc/tx.go:52-87 | grants made and grants ahead always add up to those there were |
| `Locks.StuckIsFinished` | internal/db/sqlc/tx.go:52-87 | a schedule that cannot go on has finished every transaction |
| `Locks.WaitsForConflict` | internal/db/sqlc/tx.go:52-87 | a transaction waits only for a conflicting lock that another one holds |
| `Locks.UnorderedDeadlocks` | internal/db/sqlc/tx.go:64 | without the ascending order two transactions can wait for each other for good |
| `Callback.RetryDelay` | internal/payment/callback.go:329-335 | a delay of at least a minute exactly after attempts one to nine |
| `Callback.BestDue` | internal/payment/callback.go:73 | the due event of highest generation, none exactly when no event is due |
| `Callback.ClaimEffect` | internal/payment/callback.go:62-143 | a claim turns to the newest event whose time has come: it is cancelled if the order is no longer paid, left alone while an attempt may be under way, failed for good after ten, and in every other case, a failed event included, its next attempt starts now |
| `Callback.ClaimIdle` | internal/payment/callback.go:62-79 | with no event whose time has come a claim does nothing |
| `Callback.RetriesOnTime` | internal/payment/callback.go:73-112 | in a run whose attempts finish in time, an event failed after one to nine attempts waits exactly 1, 5, 15, 30, 60, 180, 360, 720 or 1440 minutes, and the first claim from then on starts the next attempt |
| `Callback.FinishEffect` | internal/payment/callback.go:281-327 | a report counts once, for its own attempt: success settles the event, failure schedules the next attempt by the table, or none after the tenth |
| `Callback.PayEffect` | internal/payment/service.go:852-870 | paying adds exactly one event of generation one: due at once, or settled for a subscription, or none without an address |
| `Callback.FirstAttempt` | internal/payment/callback.go:62-112 | a paid order with an address gets its first attempt at the next claim |
| `Callback.RefundEffect` | internal/payment/service.go:796-798 | a refund cancels the events of the order that wait or failed, and no other |
| `Callback.ReplayEffect` | internal/payment/callback.go:200-276 | a replay starts the next generation if and only if the order is the merchant's, paid and with an address, and its newest event neither waits nor is under way |
| `Callback.Newest` | internal/payment/callback.go:237 | the event of highest generation |
| `Callback.RunKeeps` | internal/payment/callback.go:53-327 | every run keeps events and attempts consistent |
| `Callback.RunScheduled` | internal/payment/callback.go:281-335 | every run in which attempts finish in time keeps the schedule |
| `Callback.AttemptsAreNumbered` | internal/payment/callback.go:97-112 | attempts of a generation are numbered 1..n with n the attempt count, at most ten |
| `Callback.BacksOff` | internal/payment/callback.go:291-322 | a failed attempt is followed no sooner than its table delay |
| `Callback.TenthAttempt` | internal/payment/callback.go:329-335 | when nine attempts came to a result, the tenth starts at least 2811 minutes after the first one's |
| `Callback.SuccessIsFinal` | internal/payment/callback.go:293-322 | over any run in which attempts finish in time, a confirmed event and its attempts stay as they are |
| `Callback.ConfirmedForGood` | internal/payment/callback.go:281-327 | a confirmed event stays confirmed over every run, in time or not, if and only if none of its attempts is still without a result |
| `Callback.HungWorker` | internal/payment/callback.go:89-96 | a reachable state in which a late failure undoes a success |
| `Callback.NoAttemptAfterRefund` | internal/payment/callback.go:80-88 | once the order is refunded no attempt of any generation starts, prompt or not |
| `Callback.OnePending` | internal/payment/callback.go:236-249 | only the newest generation can wait for its first attempt, and generations are unique |
| `Callback.ReplayAtMostOnce` | internal/payment/callback.go:209-276 | a repeated replay under a key starts no further generation within 24 hours |
| `Callback.Dispatcher.IsBusy` | internal/payment/callback.go:89-96 | whether the attempt of highest number started less than two minutes ago |
| `Callback.Dispatcher.ClaimTx` | internal/payment/callback.go:62-143 | claims, cancels, skips or exhausts exactly as modelled |
| `Callback.Dispatcher.FinishTx` | internal/payment/callback.go:281-327 | writes result and next time to attempt and event |
| `Callback.Dispatcher.ReplayTx` | internal/payment/callback.go:200-278 | commits one new generation and its record, or leaves every table alone |
| `Devices.OneAlertPerSilence` | internal/device/service.go:176-206 | every alert reports a silence of at least 90 seconds, no silence has two, no two silences share a dedupe key |
| `Devices.ScannedSilence` | internal/device/service.go:154-215 | a scan that gets to a device during a silence leaves exactly one alert for it in every later state |
| `Devices.ScannedIsReported` | internal/device/service.go:176-206 | the transaction adds an alert exactly when the present silence was not reported |
| `Devices.ReportedIsNotified` | internal/device/service.go:217-219 | the comparison of the two counters tells whether the present silence was reported |
| `Devices.NumberIsFree` | internal/device/service.go:195-204 | the insert never meets a dedupe conflict |
| `Devices.WhoIsScanned` | internal/device/service.go:184-187 | a candidate goes through exactly when bound and silent for 90 seconds |
| `Devices.ScannedIs` | internal/device/service.go:154-175 | the scan picks the bound devices silent for 90 seconds whose present silence is not reported, longest silent first, and leaves one out only for others at the limit |
| `Devices.HeartbeatEffect` | internal/device/service.go:54-89 | a bound device is heard of whatever its state, and its row counts the silences its heartbeats ended |
| `Devices.DetectEffect` | internal/device/service.go:176-206 | the one alert added for an unreported silence, with its number |
| `Devices.BindingEffect` | internal/device/service.go:118-152 | binding and revoking change nothing else |
| `Devices.RunKeeps` | internal/device/service.go:54-215 | every interleaving keeps counters, heartbeats and alerts consistent |
| `Devices.Monitor.Beat` | internal/device/service.go:54-89 | a heartbeat ends a silence by counting it, or is refused |
| `Devices.Monitor.DetectTx` | internal/device/service.go:176-206 | leaves the present silence of the device reported, or fails when it is not silent any more |
| `Devices.Monitor.DetectOffline` | internal/device/service.go:154-215 | the batch is the run that takes, for each candidate it gets to, what others commit before it and then the detection of that candidate; it counts exactly the alerts it sent, every candidate before the end is reported, and it stops early only at a candidate that was heard of or revoked by then |
| `Devices.Monitor.DetectAll` | internal/device/service.go:176-215 | the loop over the candidates, for any list of them |
| `Portal.ListOrders` | internal/portal/service.go:611-697 | reads one row too many, trims it, and hands out the cursor of the last row exactly then |
| `Portal.RankedIs` | internal/portal/repository.go:62-64 | the query yields exactly the matching rows older than the cursor, each once, newest first |
| `Portal.RankedRows` | internal/portal/repository.go:62-64 | the same on the columns: merchant, half-open interval of time, status, channel, text and cursor, newest first |
| `Portal.ListingGuards` | internal/portal/service.go:611-624 | when a first page is refused, and which page sizes are taken |
| `Portal.ListingIsExact` | internal/portal/service.go:611-697 | the first page shows the newest rows that match by their columns, the number of all, and a cursor exactly when there are more |
| `Portal.RowsAfter` | internal/portal/repository.go:62-64 | from the cursor of row n-1 on, a later page reads the rows from n on, whatever newer rows joined |
| `Portal.WalkShowsAll` | internal/portal/service.go:611-697 | following the cursors ends and shows every row listed at the start exactly once, newest first |
| `Portal.CursorRoundTrip` | internal/portal/service.go:959-986 | decoding an encoded cursor gives its time and id |
| `Portal.CursorIsSigned` | internal/portal/service.go:965-986 | an accepted cursor carries the signature of its own time and id |
| `Portal.PageLimit` | internal/portal/service.go:918-926 | page sizes are 1 to 100 |

## Left out

- Subscription ledger, orders and callbacks share one order table in the program. Here `Callback` has its own table of orders with their payment state; that an order is paid once and refunded once is proved in `Guarantees`.
- `Database.Database` methods do not take locks: each transaction is atomic, which is what the locks give. The lock prefix is modelled by itself in `Locks`.
- `ResetKey` (internal/merchant/service.go:260-269) updates the settings row after a shared lock on it, so it is not a transaction of the kind `Locks.NoDeadlock` is about.
- Locks.NoDeadlock: grants a lock whenever no other transaction holds it in a conflicting mode; the order in which the database serves waiters is not modelled.
- Locks.Sort: stands for the library sort with an insertion sort; only its result matters.
- Locks.Store.InTx: an error of the commit is taken to mean that nothing was committed.
- Database.Database.DropPlan: visits the purchases of the plan in id order instead of by buyer and id; the result is the same.
- Database.Database.IngestTx: keeps the instant read before the transaction apart from the one at which the order is paid; every other transaction reads the clock once.
- Portal.CursorRoundTrip: takes the time stamp, base64, hexadecimal and signature functions as parameters that undo each other.
- Portal.ListOrders: counts characters, not bytes, of the search text, and takes the case-insensitive name match as a parameter.
- Portal.WalkShowsAll: rows that are listed at the start are taken to stay listed between pages, and rows that join to be newer; an order that enters or leaves a status filter in between is not covered.
- Devices.OneAlertPerSilence: speaks of heartbeats by their place in the history, which no table stores.
- Settings, online state and QR images are parameters (`Env`) of the calls that read them.
- Random tokens and public ids are fresh row numbers.
- Encryption of credentials, message signatures and digests beyond equality.
- Database.Database.BeginIdempotencyTx: counts the characters of a key, not its bytes, and takes the lock on the key as granted.
- Trade numbers, callback and return URLs, names and reasons: their format checks.
- IP rules, audit rows, mails and notification texts.
- HTTP handlers, exports, dashboards, receipts and audit listings, announcements, sign-in, media and the web client.
