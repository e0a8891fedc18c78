# Marketplace lifecycle verification

A Dafny model of the order, delivery and wallet lifecycle of a home-cooking marketplace API, with proofs that hold in
every run of it. Five kinds of actor act on shared tables in any order: buyers, sellers, drivers, Stripe webhooks, and
timers that may fire twice. Around that core stand the pricing function, the strike engine, the idempotent order POST
and the chat threads.

Check it with `dafny verify dfyconfig.toml`.

## How the model is built

- `Domain`, `Inventory`, `Ledger`, `Pricing`: the tables and the pure functions on them. Rows are never deleted and ids
  grow, so a table is a sequence and an id its index.
- `Lifecycle`: what each of the nineteen handlers decides from the order row and its delivery row, guards in source order.
- `Marketplace`: one `Action` per request, webhook, timer firing or sweep, `Handle` for its answer, `Run` for a run.
- `Consistency`, `Views`, `Runs`: the invariant of one order, and the proof that every step of the system is one local
  transition of each order that keeps it.
- `Transitions`: which step moves an order, its delivery, its refund, its stock and its rows, with every guard spelled out
  on the rows and the arguments, independently of the handlers. `Charges`, `Shelves`: what a cart costs and takes, line by
  line, read off the stored order and the shelves.
- `Finality`, `OrderMoney`, `Timers`, `Stock`, `Money`, `Entries`, `Receipts`: the theorems over all runs.
- `Store`, `Orders`, `Deliveries`, `Webhooks`: the services as classes on one mutable `Database`. Each method is proved to
  take the step of its action: `db.Answers(action, outcome)` says that the whole new state and the answer are those of
  `Handle`, and that the invariant holds again, so every theorem about `Handle` and `Run` is about these methods.
- `Strikes`, `Idempotency`, `Conversations`, `Threads`, `Messaging`: the secondary machines, built the same way;
  `Disputes` on what disputes and chargebacks do, `Discipline` joins orders and strikes into one system.
- `Witnesses`: runs from the empty shop that reach the failing side of the exact conditions below.

Conventions. Each handler is one atomic step with its wallet, refund and order calls, except the two that re-read inside
a transaction: `cancelAsSeller` and the payment-failed webhook are a check and a commit with any other steps between.
Whatever is random or remote is an argument of the action: Stripe's answers, payment state, scanned tokens, photo and GPS
proof, driver eligibility, and the checks on data outside the model (`gate`, `orderable`, `payoutReady`). Time is an
integer that never goes back. `Math.round` is computed on integers as `(2n + 10000) / 20000`.

## What the proofs found

- `cancelAsSeller` refunds even when its own transaction lost the race and did nothing, so an order can be refunded and
  still be on its way (`OrderMoney.RefundedButActiveExactlyWhen` gives the exact condition).
- CANCELLED and REFUNDED are final exactly while no delivery of the order is live: the seller's cancel never touches the
  delivery, a dispute refund may come while it is live, and the driver's pickup scan does not look at the order's status.
- The commission floor of 1 € can make the ledger pay out more than the buyer paid: a completed order does so exactly when
  its buyer total, less the fee that went to a driver, is below 1 € (`OrderMoney.CapHoldsExactlyWhenCovered`). An order
  switched to pickup keeps its delivery fee in the buyer total, so with a fee of at least 1 € it does not, unless add-ons
  with negative prices bring its subtotal below 0 (`OrderMoney.SwitchedOrderFits`).
- The comment on `creditForCompletedOrder` credits the unique key with preventing double credits, and says that earnings
  start AVAILABLE. The code books them PENDING, and in reachable states the key never has to skip a row.
- A chargeback is recorded without looking at the order's status, and approving it does not look either, so an order still
  PENDING in the table can become REFUNDED. Approving a dispute is the only step that does this
  (`Disputes.PendingIsRefundedExactlyWhen`), and the dispute is then a chargeback.
- The schema's comments say that a strike counts while now is before its expiry, and that the buyer total is subtotal plus
  fee. The code counts a strike at that very instant too, and adds the platform fee; the model follows the code.
- The strike engine accepts any number of points; its guarantee needs them not to be negative (the admin form asks for at
  least one).
- A request whose PaymentIntent Stripe refuses leaves its order and its stock taken, and its idempotency key free.

## Model

| member | source | states |
|---|---|---|
| Pricing.RoundsToNearest | src/common/constants/pricing.constants.ts:66-76 | the integer form of `Math.round` gives the one integer within half a cent of the exact share, halves going up |
| Pricing.FeesAreExactUpToHalfACent | src/common/constants/pricing.constants.ts:53-93 | for every subtotal both fees are within half a cent of the exact rate unless the 1 € floor binds, which is exactly below 3.32 € (3.98 € premium); the four shares always add up to the buyer total, so the mismatch error is never thrown |
| Pricing.TotalsAreMonotone | src/common/constants/pricing.constants.ts:53-93 | a larger cart costs strictly more and never earns the seller less |
| Pricing.PremiumEarnsAtLeastStandard | src/common/constants/pricing.constants.ts:59-70 | premium never earns less than standard, and a seller earns a non-negative amount exactly from 1 € up |
| Pricing.SplittingMovesAFeeByAtMostOneCent | src/common/constants/pricing.constants.ts:66-76 | splitting an amount changes its rounded fee by at most one cent, either way |
| Pricing.PayoutFitsTotalExactlyWhen | src/common/constants/pricing.constants.ts:53-93 | what completion pays out fits in what the buyer paid if and only if subtotal plus platform fee covers the commission floor; always from 1 € |
| Consistency.BookingIsFresh | src/modules/wallets/wallets.service.ts:54-168 | a handler that books ledger rows always finds the order without any row, so the unique key with skipped duplicates never has to swallow one |
| Consistency.HandlersKeepGood | src/modules/orders/orders.service.ts:600-1878 | each of the nineteen handlers keeps the whole invariant of its order: legal status and delivery pair, frozen prices, ledger rows decided by where order and delivery stand, refund count |
| Runs.StepIsLocal | src/modules/orders/orders.service.ts:600-1878 | one step of the whole system is one local transition of each order |
| Runs.EveryRunIsConsistent | src/modules/orders/orders.service.ts:195-2971 | the invariant holds in every state of every run, whatever the interleaving of requests, webhooks, timers and sweeps |
| Finality.OrderAndDeliveryAreCoupled | src/modules/orders/orders.service.ts:617-651 | reachable states: one delivery per order; IN_DELIVERY, READY for delivery, NO_DRIVER_AVAILABLE, PICKUP, and a DELIVERED or FAILED delivery each fix the other side; three order statuses and four delivery statuses are unreachable |
| Finality.NoHalfWrites | src/modules/orders/orders.service.ts:1745-1765 | no handler writes and then rejects: the "DELIVERY only" rejection after a driver's confirmation is never hit |
| Finality.OneClaimWins | src/modules/deliveries/deliveries.service.ts:429-441 | once set, the driver of an order is the same in every later state of every run |
| Finality.SealedIsFinal | src/modules/wallets/wallets.service.ts:285-353 | a CANCELLED or REFUNDED order without a live delivery only moves from CANCELLED to REFUNDED, books nothing more, and none of its PENDING earnings ever becomes AVAILABLE, even when Stripe refuses the refund |
| Finality.VoidingSealsExactlyWhen | src/modules/orders/orders.service.ts:1797-1878 | a step that voids an order leaves it final if and only if it is not the seller's cancel or a dispute refund on a live delivery |
| Finality.CautiousRunsSeal | src/modules/orders/orders.service.ts:2844-2851 | in a run where neither of the two fires on a live delivery, every CANCELLED or REFUNDED order is final |
| Finality.VoidIsFinalExactlyWhen | src/modules/deliveries/deliveries.service.ts:492-548 | in a reachable state a voided order stays voided in all runs if and only if its delivery is not live: otherwise the driver's next scan brings it back |
| Transitions.PreparedExactlyWhen | src/modules/orders/orders.service.ts:362-672 | over all steps, an order becomes CONFIRMED, PREPARING or READY, or a pickup order, if and only if its own buyer or seller (or Stripe, for the payment) asks for it in the right status; all guards are spelled out on the rows |
| Transitions.DeliveredExactlyWhen | src/modules/deliveries/deliveries.service.ts:482-778 | an order becomes NO_DRIVER_AVAILABLE, IN_DELIVERY or DELIVERED if and only if the timer finds it unclaimed, its driver scans the right token, or it is handed over with its token, its proofs, or at the counter by one of its two parties |
| Transitions.CancelledExactlyWhen | src/modules/orders/orders.service.ts:1084-1872 | an order becomes CANCELLED or REFUNDED, and its stock goes back, if and only if one of the listed events passes its guards: every cancellation returns the stock, except the one for a disappeared driver |
| Transitions.RefundedExactlyWhen | src/modules/orders/orders.service.ts:2889-2971 | over all refunding paths, Stripe's log gains the order if and only if a step that passes its guards asks for a refund, Stripe accepts, and the order has a PaymentIntent and no refund; then and only then the order carries the new refund id |
| Transitions.IntentRecordedExactlyWhen | src/modules/payments/webhooks/stripe-webhook-handler.service.ts:210-319 | the PaymentIntent of an order changes only on a PENDING order, by Stripe's success when none is recorded or by its failure when none was |
| Transitions.DeliveryMovesExactly | src/modules/deliveries/deliveries.service.ts:393-889 | every column of the delivery row after any step: created, claimed, arrived, collected, handed over, cancelled or failed by exactly these events, with the token, the driver and the times they carry, and otherwise unchanged |
| Transitions.SaleIsBooked | src/modules/wallets/wallets.service.ts:79-168 | handing over the food finds the order without a ledger row and leaves exactly the sale: seller and driver PENDING until the window has passed, the commission AVAILABLE |
| Transitions.ConsolationIsBooked | src/modules/wallets/wallets.service.ts:177-199 | a report of an absent seller leaves exactly one row, the driver's fee, AVAILABLE at once |
| Transitions.LedgerGrowsOnlyThen | src/modules/wallets/wallets.service.ts:54-263 | the rows of an order, with owners and amounts, change only by a sale, such a report, or a disappeared driver |
| Transitions.IntrudersAreForbidden | src/modules/orders/orders.service.ts:600-651 | a request about an order by anyone but the party it belongs to is forbidden and changes nothing, whatever else is wrong with it: thirteen requests |
| Transitions.CancelsBeginExactlyWhen | src/modules/orders/orders.service.ts:1797-1815 | a seller's cancel gets under way if and only if the order's own seller asks while it is CONFIRMED, PREPARING or READY |
| Transitions.FailuresBeginExactlyWhen | src/modules/payments/webhooks/stripe-webhook-handler.service.ts:251-276 | a payment failure gets under way if and only if the order is PENDING |
| Charges.OrderIsStoredAsAsked | src/modules/orders/orders.service.ts:2232-2314 | a new order is PENDING, holds its stock, belongs to its buyer and to the seller of every dish in it, and stores each line at the prices of the moment |
| Charges.OrderIsSplitByTheTariff | src/common/constants/pricing.constants.ts:53-93 | the stored split of a new order, from its subtotal: delivery fee for delivery only, platform share, commission rate and floor, seller's rest |
| Charges.OneLineCosts | src/modules/orders/orders.service.ts:2097-2105 | a cart of one line without add-ons has the subtotal price times quantity |
| Charges.AnotherLineAdds | src/modules/orders/orders.service.ts:2097-2105 | a further line without add-ons raises the stored subtotal by exactly its price times its quantity |
| Charges.AnotherAddOnAdds | src/modules/orders/orders.service.ts:2100-2104 | one more add-on of price x on a line of q portions raises the stored subtotal, and that line's total on the receipt, by exactly x times q, and changes no other line |
| Shelves.OneLineTakes | src/modules/orders/orders.service.ts:2188-2201 | a cart of one line is accepted if and only if the dish is on offer and enough portions are left, and then takes exactly that many |
| Shelves.AnotherLineTakes | src/modules/orders/orders.service.ts:2188-2201 | with one more line a cart is accepted if and only if the dish is on offer by the same seller and the cart left enough portions of it, and then takes that many more of it and nothing more of any other listing |
| Shelves.FewerAreAccepted | src/modules/orders/orders.service.ts:2179-2230 | an accepted cart is accepted without its last line, so the two results above decide every cart |
| Shelves.WhatWasTakenComesBack | src/modules/orders/orders.service.ts:1097-1122 | whatever happened in between, the step that returns the stock of an order puts back on every counted shelf exactly the portions its placement took off |
| OrderMoney.OrderNeverPaysMoreThanItsTotal | src/modules/wallets/wallets.service.ts:107-199 | for an order of at least 1 €, or whose subtotal and platform fee cover the commission floor, the positive ledger rows never total more than its buyer paid, through any repetition of credits, compensations and cancellations |
| OrderMoney.CompletionPaysExactly | src/modules/wallets/wallets.service.ts:107-151 | a DELIVERED order of at least 1 € has paid out exactly its subtotal, plus the delivery fee when it was delivered |
| OrderMoney.CapHoldsExactlyWhenCovered | src/common/constants/pricing.constants.ts:59-70 | for every completed order, at any subtotal, the cap holds if and only if the buyer's total, less the fee that went to a driver, covers the commission floor |
| OrderMoney.SwitchedOrderFits | src/modules/orders/orders.service.ts:1045-1078 | a collected order with a non-negative subtotal that was switched to pickup, and so still holds a delivery fee of at least 1 €, never pays out more than its buyer paid |
| OrderMoney.AtMostOneRefund | src/modules/orders/orders.service.ts:2889-2971 | Stripe refunds an order at most once in any run, across all seven paths, and the order row says whether it did |
| OrderMoney.RefundReversesPending | src/modules/orders/orders.service.ts:2954-2970 | right after a successful refund no ledger row of the order is PENDING |
| OrderMoney.RefundedButActiveExactlyWhen | src/modules/orders/orders.service.ts:1817-1872 | a step leaves an order refunded yet active, when it was not, if and only if the seller's cancel lost its race (its transaction was a no-op, its refund was not) or a driver's scan passed its own guards on an order refunded and voided before; both are read off the state before the step |
| OrderMoney.RefundedMeansVoided | src/modules/orders/orders.service.ts:1817-1872 | in every run without those two steps on the order, a refunded order is CANCELLED or REFUNDED |
| OrderMoney.RefundedEarnsNothing | src/modules/orders/orders.service.ts:2961-2970 | in every run without those two steps, a refunded order has no PENDING row in any later state: no bulk update and no handler brings one back |
| OrderMoney.DisappearanceIsExact | src/modules/orders/orders.service.ts:1468-1610 | when the driver-disappeared handler passes its guards the order has no ledger row yet; afterwards its rows are exactly the seller's AVAILABLE pay and a driver debt of the whole buyer total |
| Timers.StepsGoForward | src/modules/orders/orders.service.ts:924-1078 | no step moves an order back to an earlier phase, nor revives an abandoned delivery |
| Timers.TimersTakeEffectAtMostOnce | README.md:102-112 | in every run each timer takes effect at most once per order, however often and wherever it fires |
| Timers.DuplicateTimersAreHarmless | src/jobs/order-timers.processor.ts:28-45 | erasing the firings that took no effect from any run leaves the same final state |
| Stock.StepConserves | src/modules/orders/orders.service.ts:2179-2230 | placing, cancelling and editing keep portions left plus portions held equal to what the seller supplied, also for carts that repeat a listing and when other steps commit between a check and its transaction |
| Stock.StockIsConserved | src/modules/orders/orders.service.ts:1097-1122 | stock conservation for every tracked listing in every run |
| Stock.ReachableStockIsConserved | src/modules/orders/orders.service.ts:1179-1204 | the same equation, read off any reachable state |
| Stock.OnlyReturnsFillShelves | src/modules/orders/orders.service.ts:1315-1340 | apart from a seller's edit, portions come back to a listing only when a step returns the stock of one order, and then exactly what that order took of it |
| Stock.StockReturnsAtMostOnce | src/modules/payments/webhooks/stripe-webhook-handler.service.ts:278-319 | over any run and all restoring paths, what comes back to a listing on behalf of one order is at most what the order took of it, and nothing if its stock had gone back before |
| Money.EveryRunIsBalanced | src/modules/wallets/wallets.service.ts:415-512 | double entry over all runs: settled rows cancel per user and per withdrawal, debit rows mirror the transfers, every transfer is at least 50 € |
| Money.SettleMovesTheBalance | src/modules/wallets/wallets.service.ts:490-506 | settling moves exactly the AVAILABLE sum to PAID_OUT under the new withdrawal |
| Money.LedgerIsDoubleEntry | src/modules/wallets/wallets.service.ts:427-506 | transferred plus available plus pending plus held equals all rows credited to a user, debts included; a user's PAID_OUT sum is always 0 |
| Money.WithdrawalsMatchTransfers | src/modules/wallets/wallets.service.ts:463-506 | in every reachable state each withdrawal has exactly one debit row, with the user and the negated amount of its transfer, and every row settled under it belongs to that user |
| Money.WithdrawsExactlyWhen | src/modules/wallets/wallets.service.ts:415-512 | a withdrawal goes through if and only if a person has at least 50 € available, a payout account and a working transfer; it then transfers the whole balance, settles exactly the user's AVAILABLE rows, adds one debit row and leaves nothing available, and otherwise changes nothing |
| Money.CanWithdrawIsExact | src/modules/wallets/wallets.service.ts:371-397 | the summary offers a withdrawal if and only if the request would pass its balance checks, and its balances reconcile with the transfers |
| Entries.RefundedReleasesNothing | src/modules/orders/orders.service.ts:2961-2970 | along such a run no step makes a row of a refunded order AVAILABLE, so what the refund reversed never becomes withdrawable |
| Entries.EntryLife | prisma/schema.prisma:1476-1501 | over any run a row keeps its amount, owner, order and type, and its status changes at most twice, always downwards in the life cycle |
| Entries.SafetyWindow | src/modules/wallets/wallets.service.ts:79-95 | an earning booked by a completed order is not withdrawable before the release window has passed, in any run |
| Entries.WindowStartsAtDelivery | src/modules/wallets/wallets.service.ts:306-350 | for a delivered order the window starts at delivery: no earning of its completion is withdrawable sooner |
| Entries.NothingIsHeld | src/modules/wallets/wallets.service.ts:79-95 | HELD is never reached, although the credit has a branch for it |
| Entries.SweepsCompose | src/modules/wallets/wallets.service.ts:285-353 | the sweep is idempotent, and sweeping at t1 and then at t2 is sweeping at t2 up to release times |
| Entries.SweepReleasesExactly | src/modules/wallets/wallets.service.ts:306-350 | row by row: a due earning of a DELIVERED order becomes AVAILABLE as of now, one of a CANCELLED or REFUNDED order becomes CANCELLED, and every other row and table stays |
| Entries.SweepRaisesTheBalance | src/modules/wallets/wallets.service.ts:322-352 | a sweep raises a user's AVAILABLE sum by exactly the due earnings of delivered orders |
| Entries.SummaryIsExact | src/modules/wallets/wallets.service.ts:371-397 | in a reachable state the summary shows money or debt but not both, nothing held, the pending sum, and as available exactly what a withdrawal would transfer |
| Entries.HistoryIsTheLatest | src/modules/wallets/wallets.service.ts:385-397 | the shown history has a user's new row first, rows of others leave it alone, and no row is missing up to the limit |
| Entries.SweepLeavesNothingDue | src/modules/wallets/wallets.service.ts:306-350 | a sweep changes exactly the due rows whose order is decided and leaves none of them due |
| Store.DeliveredRowIsLatest | src/modules/wallets/wallets.service.ts:58-78 | the DELIVERED row the credit looks up is the order's latest delivery |
| Store.WalletService.CreditForCompletedOrder | src/modules/wallets/wallets.service.ts:58-168 | inserts seller, platform and driver rows for a completed order, skipping rows already there |
| Store.WalletService.CompensateDriver | src/modules/wallets/wallets.service.ts:177-199 | one AVAILABLE delivery earning, if the amount is positive |
| Store.WalletService.CreditSellerEarning | src/modules/wallets/wallets.service.ts:208-230 | one AVAILABLE order earning, if the amount is positive |
| Store.WalletService.RecordDriverDebt | src/modules/wallets/wallets.service.ts:241-263 | one negative AVAILABLE row, if the amount is positive |
| Store.WalletService.DueIds | src/modules/wallets/wallets.service.ts:285-300 | exactly the PENDING earnings whose time has come, in order |
| Store.WalletService.Triage | src/modules/wallets/wallets.service.ts:302-330 | sorts the due rows into releasable and reversible by their order's status, and leaves the undecided out |
| Store.WalletService.ReleaseDuePendingEntries | src/modules/wallets/wallets.service.ts:285-353 | the batch sweep with its two id lists is the per-row release of the whole table, and returns how many rows became AVAILABLE |
| Store.WalletService.GetSummary | src/modules/wallets/wallets.service.ts:365-407 | the balances are the sums by status, with the user's fifty latest rows, newest first |
| Store.WalletService.RequestWithdrawal | src/modules/wallets/wallets.service.ts:415-512 | the summing loop, the checks in order, the transfer, and the settlement of every AVAILABLE row with its debit |
| Orders.OrdersService.CreateOrder | src/modules/orders/orders.service.ts:195-352 | cart checks, totals, guarded decrement, insert and PaymentIntent, with the order kept when Stripe refuses |
| Orders.OrdersService.LoadAndValidateCart | src/modules/orders/orders.service.ts:1904-2030 | accepts a cart if and only if every line exists, is orderable, serves the choice, has its own add-ons, and all lines share one seller |
| Orders.OrdersService.ComputeTotals | src/modules/orders/orders.service.ts:2088-2114 | the line-by-line sum is the subtotal of the snapshots that will be stored |
| Orders.OrdersService.SnapshotItems | src/modules/orders/orders.service.ts:2262-2314 | the item rows carry the live prices of this moment |
| Orders.OrdersService.AggregateByListing | src/modules/orders/orders.service.ts:2188-2195 | the map built by the loop holds the total quantity of every listing in the cart, and only those |
| Orders.OrdersService.DecrementOne | src/modules/orders/orders.service.ts:2196-2201 | one guarded update: it matches exactly when the listing is tracked and has that many portions |
| Orders.OrdersService.AtomicDecrementInventory | src/modules/orders/orders.service.ts:2179-2230 | succeeds if and only if every listing has the total asked of it, takes exactly that, and changes nothing otherwise |
| Orders.OrdersService.RestoreInventory | src/modules/orders/orders.service.ts:1315-1340 | the restoring loop gives every tracked listing back its total quantity and leaves untracked listings alone |
| Orders.OrdersService.RefundOrderIfNeeded | src/modules/orders/orders.service.ts:2889-2971 | refunds once, only with a PaymentIntent, and reverses the order's PENDING rows on success only |
| Orders.OrdersService.ConfirmPaymentForBuyer | src/modules/orders/orders.service.ts:362-406 | the buyer-triggered confirmation: checks, then PENDING to CONFIRMED |
| Orders.OrdersService.StartPreparing | src/modules/orders/orders.service.ts:600-608 | CONFIRMED to PREPARING by the order's seller only |
| Orders.OrdersService.MarkReady | src/modules/orders/orders.service.ts:617-672 | PREPARING to READY, with a SEARCHING delivery for delivery orders |
| Orders.OrdersService.HandleNoDriverTimeout | src/modules/orders/orders.service.ts:924-972 | READY to NO_DRIVER_AVAILABLE while nobody claimed |
| Orders.OrdersService.DecideNoDriver | src/modules/orders/orders.service.ts:979-1025 | the buyer switches to pickup or cancels |
| Orders.OrdersService.SwitchOrderToPickup | src/modules/orders/orders.service.ts:1045-1078 | order READY for pickup, delivery cancelled |
| Orders.OrdersService.AutoCancelNoResponse | src/modules/orders/orders.service.ts:1031-1042 | cancels a NO_DRIVER_AVAILABLE order, once |
| Orders.OrdersService.CancelWithRefund | src/modules/orders/orders.service.ts:1084-1146 | order and stock, then the delivery, then the refund |
| Orders.OrdersService.SellerCannotProvide | src/modules/orders/orders.service.ts:1255-1426 | guards in order, then cancellation, stock, delivery, refund and the seller's strike |
| Orders.OrdersService.BeginCancelAsSeller | src/modules/orders/orders.service.ts:1797-1815 | the check of the seller's cancel, before its transaction |
| Orders.OrdersService.CommitCancelAsSeller | src/modules/orders/orders.service.ts:1817-1872 | its transaction, a no-op on a lost race, and the refund that runs either way |
| Orders.OrdersService.CancelForSellerUnavailable | src/modules/orders/orders.service.ts:1156-1246 | order and stock, refund, the driver's compensation, then the seller's strike; on a Conflict nothing changes |
| Orders.OrdersService.HandleDriverDeliveryTimeout | src/modules/orders/orders.service.ts:1468-1544 | the watchdog's guards, its settlement and the driver's exclusion |
| Orders.OrdersService.ResolveDriverDisappeared | src/modules/orders/orders.service.ts:1546-1655 | delivery FAILED, order CANCELLED, driver pay reversed, refund, seller paid, driver in debt and excluded at once |
| Orders.OrdersService.ConfirmPickup | src/modules/orders/orders.service.ts:1695-1737 | counter pickup by either party, then the credit |
| Orders.OrdersService.ConfirmDeliveredByDriver | src/modules/orders/orders.service.ts:1745-1769 | DELIVERED and credited, or rejected when not for delivery |
| Orders.OrdersService.CreateDispute | src/modules/orders/orders.service.ts:2439-2622 | the checks, the decision table, the dispute row with its refund fields, the automatic refund and the seller's strike |
| Orders.OrdersService.DecideDispute | src/modules/orders/orders.service.ts:2519-2575 | refund at once, refuse, or admin review, by kind and proof of delivery |
| Orders.OrdersService.RefundForDispute | src/modules/orders/orders.service.ts:2844-2851 | refund if needed, then REFUNDED whatever Stripe answered |
| Orders.OrdersService.AdminApproveRefund | src/modules/orders/orders.service.ts:2652-2681 | refunds the disputed order and resolves the dispute |
| Orders.OrdersService.AdminCloseDispute | src/modules/orders/orders.service.ts:2684-2719 | rejects or resolves a dispute without touching the order |
| Orders.OrdersService.AdminConfirmAllergenViolation | src/modules/orders/orders.service.ts:2727-2781 | a serious strike on the seller, once per order, and the dispute resolved |
| Orders.OrdersService.AdminConfirmFraudulentChargeback | src/modules/orders/orders.service.ts:2790-2842 | a serious strike on the buyer, once per order, and the dispute resolved |
| Deliveries.DeliveriesService.Claim | src/modules/deliveries/deliveries.service.ts:393-461 | a suspended driver is turned away; the guarded update of a claim: first writer wins, the others get a conflict |
| Deliveries.DeliveriesService.ArriveAtPickup | src/modules/deliveries/deliveries.service.ts:464-475 | ASSIGNED to AT_PICKUP by the assigned driver |
| Deliveries.DeliveriesService.ConfirmPickup | src/modules/deliveries/deliveries.service.ts:482-566 | delivery PICKED_UP and order IN_DELIVERY on the right token, whatever the order's status is |
| Deliveries.DeliveriesService.ConfirmDelivery | src/modules/deliveries/deliveries.service.ts:573-659 | the buyer's token, then delivery, order and credit together |
| Deliveries.DeliveriesService.ConfirmAbsentDropoff | src/modules/deliveries/deliveries.service.ts:667-778 | photo and GPS proof, then the same completion marked as absent |
| Deliveries.DeliveriesService.ReportSellerUnavailable | src/modules/deliveries/deliveries.service.ts:787-889 | guards in order, then cancellation, refund, compensation and the seller's strike |
| Webhooks.StripeWebhookHandler.HandlePaymentIntentSucceeded | src/modules/payments/webhooks/stripe-webhook-handler.service.ts:210-244 | PENDING to CONFIRMED once, backfilling a lost PaymentIntent id |
| Webhooks.StripeWebhookHandler.BeginPaymentIntentFailed | src/modules/payments/webhooks/stripe-webhook-handler.service.ts:251-276 | the first look: only a PENDING order goes on |
| Webhooks.StripeWebhookHandler.CommitPaymentIntentFailed | src/modules/payments/webhooks/stripe-webhook-handler.service.ts:278-319 | the transaction re-reads the order and cancels and restocks only a PENDING one |
| Webhooks.StripeWebhookHandler.HandleChargeDispute | src/modules/payments/webhooks/stripe-webhook-handler.service.ts:333-382 | one dispute per Stripe dispute id; a later event refreshes the payload and nothing else |
| Webhooks.OrderTimersProcessor.Process | src/jobs/order-timers.processor.ts:28-45 | a job does what the timer's handler does to orders and strikes, or nothing when its data lacks the id |
| Disputes.DisputesAreSound | src/modules/orders/orders.service.ts:2439-2592 | in every run each dispute on a PENDING order is a chargeback, and each granted refund is of the order's whole total |
| Disputes.WebhooksNeverResolve | src/modules/payments/webhooks/stripe-webhook-handler.service.ts:352-364 | an event about a chargeback keeps everything an admin decided and the Stripe id of every dispute; it refreshes the payload of exactly the dispute with its id |
| Disputes.StripeIdsStayUnique | src/modules/payments/webhooks/stripe-webhook-handler.service.ts:349-382 | in every run no two disputes carry the same Stripe id, so an event is about one dispute only |
| Disputes.ClaimIsTakenExactlyWhen | src/modules/orders/orders.service.ts:2439-2517 | a claim is taken in if and only if it is the buyer's, on a paid order, within 24 hours of delivery, with what its kind requires, and no such claim is being looked at; otherwise nothing changes |
| Disputes.ClaimsAreRuledByKind | src/modules/orders/orders.service.ts:2519-2592 | by kind and delivery row: the status of the new row, its refund fields, and that the order is refunded at once, its whole total granted, if and only if the kind is WRONG_ORDER, or NEVER_RECEIVED with no delivery confirmed or left as absent |
| Disputes.NeverReceivedIsRefundedExactlyWhen | src/modules/orders/orders.service.ts:2526-2539 | in a reachable state such a claim is refunded at once if and only if the delivery is not DELIVERED |
| Disputes.DecisionsAreExact | src/modules/orders/orders.service.ts:2652-2719 | what approval, rejection, resolution and a first chargeback write, and that nothing else writes a dispute |
| Disputes.ChargebackCanRefundPending | src/modules/payments/webhooks/stripe-webhook-handler.service.ts:333-382 | a chargeback recorded on an order still PENDING in the table, then approved, leaves it REFUNDED |
| Disputes.PendingIsRefundedExactlyWhen | src/modules/orders/orders.service.ts:2652-2681 | a step takes an order from PENDING to REFUNDED if and only if it approves a dispute about that order |
| Disputes.OnlyChargebacksRefundPending | src/modules/orders/orders.service.ts:2439-2470 | in a reachable state the dispute that does it is a chargeback |
| Discipline.JointRunsProject | src/modules/orders/orders.service.ts:1216-1232 | orders and strikes together: the shop of a joint run is a run of the shop, its register a run of the strike engine, so all theorems about either carry over |
| Discipline.NoDoubleStrikeInTheShop | README.md:102-112 | however often timers, drivers, buyers and admins report, no incident strikes twice |
| Discipline.NobodyEscapesInTheShop | src/modules/strikes/strikes.service.ts:54-156 | with every strike the handlers give, a user who is not suspended stays below three active points in each role, unless an admin gives negative points or lifts the suspension |
| Discipline.DisappearedDriverIsOut | src/modules/orders/orders.service.ts:1612-1626 | the watchdog suspends the driver who disappeared in the same step |
| Discipline.StrikesAreExact | src/modules/orders/orders.service.ts:1216-1232 | the whole strike of every step: user, role, points, reason and source, and none for any other step |
| Discipline.AdminStrikesAreExact | src/modules/orders/orders.service.ts:2727-2842 | the two admin confirmations strike the seller or the buyer of the disputed order with two points |
| Discipline.SuspendedDriversClaimNothing | src/modules/deliveries/deliveries.service.ts:393-398 | a suspended driver becomes the driver of no further order in any run that does not lift the suspension |
| Discipline.SuspendedTradeNothing | src/modules/orders/orders.service.ts:212-214 | no order placed in such a run has the suspended user as buyer or seller |
| Witnesses.VoidedOrderCanBeLive | src/modules/orders/orders.service.ts:2844-2851 | a run from the empty shop reaches a REFUNDED order with a live delivery, and two more steps put it back IN_DELIVERY with the refund made |
| Witnesses.RefundedOrderCanBeDelivered | src/modules/orders/orders.service.ts:1817-1872 | a run from the empty shop in which the seller's cancel loses its race: the order ends DELIVERED and refunded |
| Witnesses.LedgerCanExceedTheTotal | src/common/constants/pricing.constants.ts:59-70 | a run from the empty shop in which a collected cart of 60 cents pays out more than its buyer paid |
| Witnesses.PendingOrderCanBeRefunded | src/modules/payments/webhooks/stripe-webhook-handler.service.ts:333-382 | a run from the empty shop that takes an order from PENDING to REFUNDED through a chargeback |
| Witnesses.RetryIsASecondOrder | src/modules/orders/orders.service.ts:270-330 | Stripe refuses one request and accepts its retry under the same key: two orders are left |
| Receipts.ResponseRecomputesPrices | src/modules/orders/dto/order-response.dto.ts:93-131 | in every reachable state all amounts shown, the platform fee that is never stored included, are the pricing function applied to the sum of the line totals |
| Receipts.NewOrderRoundTrip | src/modules/orders/orders.service.ts:2262-2314 | a new order's response lists the cart at the prices of the moment and charges what the pricing function asks |
| Receipts.ReceiptNeverChanges | src/modules/orders/dto/order-response.dto.ts:35-49 | whatever sellers edit later, an order's receipt stays the same in every run |
| Strikes.NoDoubleStrike | src/modules/strikes/strikes.service.ts:54-80 | in every run at most one strike per user, role, reason and most specific source |
| Strikes.RecordsExactlyWhen | src/modules/strikes/strikes.service.ts:54-94 | an incident is recorded, in full, if and only if there is no earlier strike of that user, role and reason about the same delivery, else order, else source |
| Strikes.SuspendsExactlyWhen | src/modules/strikes/strikes.service.ts:96-126 | a strike suspends its user if and only if it is recorded and brings the points of the last 90 days in that role to three |
| Strikes.PointsExpire | src/modules/strikes/strikes.service.ts:108-115 | as the 90-day window slides, active points only go down, when no strike has negative points |
| Strikes.NobodyEscapesSuspension | src/modules/strikes/strikes.service.ts:54-156 | in every run without negative points and without lifting the suspension, a user who is not suspended has fewer than three active points in each role at every instant |
| Strikes.WindowIsSafeExactlyWhen | src/modules/strikes/strikes.service.ts:96-104 | with strikes worth a fixed number of points (or three) that guarantee holds if and only if the number is not negative |
| Strikes.StrikesService.AddStrike | src/modules/strikes/strikes.service.ts:54-105 | dedupes on the most specific source, records, and suspends at the threshold |
| Strikes.StrikesService.GetActiveStrikePoints | src/modules/strikes/strikes.service.ts:108-115 | the sum over the window, for one user and role |
| Strikes.StrikesService.EvaluateSuspension | src/modules/strikes/strikes.service.ts:118-126 | suspends if and only if the threshold is reached |
| Strikes.StrikesService.UnsuspendUser | src/modules/strikes/strikes.service.ts:159-165 | lifts the suspension and changes nothing else, strikes included |
| Strikes.StrikesService.ImmediateExclude | src/modules/strikes/strikes.service.ts:172-191 | a strike at the threshold and a suspension, also when the strike was a duplicate |
| Idempotency.RepliesAreReplayed | src/common/services/idempotency.service.ts:37-57 | after one success for a user and key, whatever happened in between, the same body gets the same response, another body a conflict, and neither touches the shop |
| Idempotency.OneResponsePerKey | src/modules/orders/orders.controller.ts:61-87 | all successful responses for one user and key in a run are identical |
| Idempotency.OneOrderPerKey | src/modules/orders/orders.controller.ts:66-86 | however often a key is sent in a run, at most one answered order comes of it |
| Idempotency.FreshReplyNamesItsOrder | src/modules/orders/orders.controller.ts:61-87 | under a free key a request is answered if and only if its order goes through, with the id and receipt of that very order |
| Idempotency.RefusalLeavesAnOrderExactlyWhen | src/modules/orders/orders.service.ts:270-330 | a refused request saves no key, and leaves an order behind if and only if everything passed and Stripe refused the PaymentIntent |
| Idempotency.IdempotencyService.Get | src/common/services/idempotency.service.ts:37-57 | first time, replay, or conflict, by the stored hash of the whole body |
| Idempotency.IdempotencyService.Save | src/common/services/idempotency.service.ts:59-81 | stores the hash of the whole body, status, response and expiry under a free key |
| Idempotency.OrdersController.Create | src/modules/orders/orders.controller.ts:61-87 | header check, lookup, creation and save, in that order |
| Conversations.PeerIsTheOtherEnd | src/modules/messaging/conversations.service.ts:117-153 | the peer derived from an order is the other end of the thread's kind, exactly for its two ends: deriving twice gives the caller back |
| Threads.EveryRunKeepsChats | src/modules/messaging/conversations.service.ts:203-251 | every thread of every run has two different people, exact counters and the right preview |
| Threads.OneThreadPerPair | src/modules/messaging/conversations.service.ts:162-322 | at most one thread per kind, order and unordered pair, by either route and whoever initiates |
| Threads.UnreadIsExact | src/modules/messaging/messaging.service.ts:79-105 | each counter is the number of the other's messages since the participant last marked the thread read |
| Threads.SendersAreParticipants | src/modules/messaging/conversations.service.ts:437-446 | in every run, every message was sent by one of the two people of its thread |
| Threads.SendsExactlyWhen | src/modules/messaging/messaging.service.ts:42-105 | a message goes through if and only if a known user in the thread says at most 4000 characters between the outer white space, and exactly those are kept; otherwise nothing changes |
| Threads.ReadsExactlyWhen | src/modules/messaging/conversations.service.ts:455-465 | reading clears the reader's counter up to the last message and nobody else's, for participants only |
| Threads.OpenedThreadIsTheirs | src/modules/messaging/conversations.service.ts:162-251 | an opened thread is between the caller and the named peer, or the other end of the order's chat of that kind |
| Threads.AllRoutesMeet | src/modules/messaging/conversations.service.ts:264-322 | a driver's claim, the seller's request and the driver's request lead to one thread: the first opens it, the others find it and change nothing |
| Messaging.ConversationsService.FindOrCreate | src/modules/messaging/conversations.service.ts:162-254 | checks in order, then the existing thread or a new one with both people |
| Messaging.ConversationsService.EnsureSellerDriverConversation | src/modules/messaging/conversations.service.ts:264-322 | the thread opened on a claim, never failing |
| Messaging.ConversationsService.MarkRead | src/modules/messaging/conversations.service.ts:455-461 | resets the caller's counter only |
| Messaging.MessagesService.Send | src/modules/messaging/messaging.service.ts:42-105 | message, preview and the others' counters, together |

## Left out

- Development-mode branches (stock refill, automatic approvals, placeholder payments): they break conservation on purpose.
- Notifications, realtime publishes, audit rows, logs, notes, reasons and coordinates: nothing modelled reads them.
- Tracking, feed, QR and dashboard reads and the catalog shop, reviews, KYC, subscriptions and legal documents: no writes on
  the modelled tables.
- Token generation: tokens are equal or unequal values.
- Crash points between a Stripe success and the database write after it, two overlapping withdrawals and two overlapping
  POSTs with one key: the source takes no lock there, the model takes each as one step.
- A PaymentIntent without a client secret: its error after the id was recorded is not modelled.
- A strike that was recorded and whose suspension then failed: the two writes of a best-effort strike are one step here,
  which goes through or does not.
- The cleanup of expired idempotency keys: the repository has no code for it, keys stay.
- Idempotency.HashBody: the digest is modelled as injective; collisions of SHA-256 are not modelled.
- Orders.OrdersService.CreateOrder: the checks on the buyer's profile and consent, scheduling, address, Stripe customer and
  the seller's approval and subscription come as one `gate` argument, since their tables are not modelled; `Discipline`
  fills in the suspension checks.
- Orders.OrdersService.LoadAndValidateCart: the several rejection messages are one error; checks on the seller's account are
  the `gate` argument of the placement.
- Orders.OrdersService.AdminCloseDispute: the reject and resolve endpoints are one method with a flag.
- Listing edits and the clock are actions of the system without a service method of their own.
- Roles of chat participants, store ids, timestamps and the sender's role in broadcasts: they do not affect which thread is
  found or what is unread. String lengths count characters, not UTF-16 units.
