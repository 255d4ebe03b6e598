# Big Neon: inventory, money and the queue

A model of the ticketing back end's core, as it is written: the carts and the reservation of single tickets, payments,
refunds with their payout and token transfers, holds, ticket capacity and prices, ticket transfers, the optimistic locks,
card checkout and the retry queue of domain actions. `dafny verify dfyconfig.toml` checks all of it.

The database is the class `Schema.Connection`. Its tables are fields that the methods assign in place, the way a
PostgreSQL session changes them inside a transaction; the tables as last committed are kept beside them, and a rollback
returns to those. Each Rust method is a method that takes the connection and the row it was called on. SQL statements of
the form `UPDATE ... WHERE id IN (SELECT ... LIMIT n FOR UPDATE SKIP LOCKED)` are a scan that picks at most n eligible rows
not locked by others, and a rewrite of exactly those; which rows are picked is left open. Ghost state (`History`) records
what no column does: by how many tickets an item was inserted short because a price had changed, which orders were paid
while they were live, and which tickets were taken from which item after it had been sold them. Every method says exactly
what it adds to these records, so that what they excuse is counted ticket by ticket.

A run of requests is kept as a trace, one state before each request and one after the last; `Runs.ServeAll` returns it, and
the theorems of RunTheorems are about every such trace. Calls to the chain and to the card processor are logged, refused
ones too, and the contracts say which calls were made. An empty database is a shop from which runs can start
(`RunTheorems.NewShopIsSteady`).

## Layout

| files | what they hold |
|---|---|
| Schema, Sets, Sums | rows, tables, transactions; set cardinality and sums over tables |
| TicketInstances, OrderItems, OrderRows | statements on tickets; order items, their insertion and deletion |
| FeeSchedules, ItemFees, OrderFees | `update_fees`, step by step |
| FeeTheorems, EventFees | what holds of the fees afterwards; how often an event fee is charged |
| Inventory, Pools, CartSteps, CartLines, RaisedRows, Cart | the reservation invariant; how many tickets there are to take; `update_quantities` against both |
| AbandonedCarts | the tickets of orders that were not paid for in time |
| Sales | payments, and the completion of orders |
| RefundUnits, OrderRefunds, RefundCompleteness, FeeRefunds | `Order::refund`, line by line, over any number of requests, and on orders as `update_fees` leaves them |
| Payouts, RefundSaga, RefundController | the greedy payout, token transfers and their compensation, the request |
| Holds, Capacity, PriceLists | the hold forest, issuing and nullifying tickets, prices over time |
| Requests, Runs, RunTheorems | every kind of request as a transaction, any run of them, and what follows over runs; no overselling |
| Shortages, RefundRuns | over runs: what carts are oversold by, and what fully refunded orders owe |
| Transfers, TransferProtocol | interleavings of ticket transfers |
| OptimisticLocking, CartLocking | interleavings of cart updates and of cart creation; `update_quantities` as a compare-and-set |
| CardCheckout, DomainActions | the card checkout saga, and the retry queue |

## Where the code falls short of what it is for

Each is a lemma or a contract; the condition under which the code does what it should is proved beside it.

- A line raised after its price changed is inserted again for the whole quantity with only the difference reserved, and the
  old line stays (`Cart.IncreaseItem`). A cart of one ticket, raised to two, then has rows for three
  (`RunTheorems.RaisingOversells`). A request falls short exactly when it raises a row whose price has changed, and exactly
  then is the cart not what was asked for (`Cart.UpdateQuantities`, `CartLines.ReplacingIffNoneRepriced`). The cart is then
  oversold by exactly the quantities of the rows so raised (`Shortages.OversoldByRaisedRows`), and nothing else ever falls
  short (`Shortages.EveryShortageHasACause`); at constant prices nothing does (`RunTheorems.ConstantPricesShortNothing`). A
  short row can not be removed either, since that asks to release more tickets than it has (`CartSteps.RemoveItem`).
- Redeemed tickets whose reservation has run out, and nullified ones, can be reserved and put into holds like free ones
  (`TicketInstances.SoldTicketIsTakeable`, `Capacity.ReservingRevivesNullifiedTickets`).
- Completing an order again, by a late capture, makes redeemed tickets Purchased again (`Sales.CompleteIfFullyPaid`).
- Charges that share a reference are paid back beyond their balance (`Payouts.PayoutIsSafeIffChargesAreDistinct`), and what is
  overdrawn then counts as almost 2^32 cents to pay back (`Payouts.OverdrawnReferencePaysAgain`).
- Refunding only the fee frees the ticket, and a ticket that was refunded once is refused for good, also to its next buyer,
  whose fee is never paid back (`RefundCompleteness.FeeOnlyRefundFreesTheTicket`, `RefundedTicketIsRefusedForGood`,
  `StaleRecordKeepsTheFee`).
- Event fees are charged per run of rows with the same event and hold, so the total may depend on the order in which equal
  rows come back (`EventFees.EventFeesDependOnRowOrder`). Each is charged once in every order exactly when its event has at
  most one ticket to charge for, or all of its tickets are under one hold or under none (`EventFees.EventFeesOnceIffOneHold`).
- An updated fee keeps its old company and client parts (`FeeTheorems.FeePartsAddUpOnlyAtTheOldRate`). A hold turned comp
  keeps its fees (`FeeTheorems.CompsKeepTheirFees`), and for as many units as before: lower the line, pay, refund all tickets,
  and a fee is still owed (`FeeRefunds.CompsStillOweTheirFee`). Orders are free of this exactly when the fees of their
  comps match their quantities (`FeeRefunds.UpdatedOrdersAreWellFormed`).
- A payout that fails half way has paid the cards it came to, and leaves no row of it (`Payouts.PayOut`,
  `RefundController.HandleRefund`).
- A payment on an order read as a draft sets it back to partially paid, whatever its status is by then: the version it
  compares is not raised by payments (`Sales.MarkPartiallyPaid`). An order that has been paid by then takes the payment on top,
  and is paid again (`Sales.AddPayment`).
- After capacity went down and up again the supply on the chain is less than the tokens issued
  (`Capacity.SupplyCoversTokensIffNothingWasNullified`).
- An authorization of no tickets can be received any number of times, and redeeming a ticket between reading and writing a
  transfer goes unnoticed (`TransferProtocol.EmptyAuthorizationReplays`, `RedemptionGoesUnnoticed`).
- A checkout that fails after the capture leaves a captured charge on a payment that says Authorized
  (`CardCheckout.Checkout`).
- A pass of the monitor starts one action more than its limit (`DomainActions.Queue.FindActions`), and an action may be
  checked out after its last failure by whoever had found it before (`DomainActions.FinishedActionsCanBeCheckedOut`).
- Updating a price does not validate it (`PriceLists.PriceList.UpdateRow`): it can become negative, and then a refund can
  raise what is owed. The box office has no default price to fall back on (`PriceLists.PriceList.GetCurrentTicketPricing`).

## Model

| member | source | states |
|---|---|---|
| TicketInstances.SelectForUpdate | db/src/queries/reserve_tickets.sql:7-14 | a limited, lock-skipping selection picks eligible unlocked rows only, and all of them unless it reaches its limit |
| TicketInstances.SelectionIsFull | db/src/models/ticket_instances.rs:317-322 | the row count the callers insist on is reached exactly when that many unlocked rows are eligible |
| TicketInstances.ReserveTickets | db/src/models/ticket_instances.rs:293-325 | fails without an expiry; otherwise succeeds exactly when enough tickets can be taken, and then reserves exactly that many for the item until the expiry, recording every sold ticket it takes |
| TicketInstances.ReleaseTickets | db/src/models/ticket_instances.rs:327-350 | succeeds exactly when the item has that many reserved, unlocked tickets, and frees exactly that many of them |
| TicketInstances.Release | db/src/models/ticket_instances.rs:46-62 | frees one ticket, only if it is still linked as read and Purchased |
| TicketInstances.MarkAsPurchased | db/src/models/ticket_instances.rs:490-528 | all linked tickets, whatever their status, go to a wallet of the buyer; fails exactly when the buyer has none |
| TicketInstances.UpdateReservedTime | db/src/models/ticket_instances.rs:455-474 | exactly the linked tickets get the new reservation time |
| TicketInstances.RedeemTicket | db/src/models/ticket_instances.rs:530-554 | Purchased becomes Redeemed and nothing else changes, not even the update stamp |
| OrderItems.FindForOrder | db/src/models/order_items.rs:352-362 | each row of the order once, by event and then type; ties may come either way |
| OrderRows.DestroyItem | db/src/models/orders.rs:122-143 | deletes a row with its fees, exactly when the order is a draft and nothing else refers to them |
| FeeSchedules.GetRange | db/src/models/fee_schedules.rs:40-64 | finds the range with the greatest threshold not above the price; fails only outside the guard its caller checks |
| FeeSchedules.CoveredExactlyWhenApplicable | db/src/models/order_items.rs:109-114 | the guard of `update_fees` holds exactly when some range applies |
| FeeSchedules.Commit | db/src/models/fee_schedules.rs:74-125 | a new schedule gets a version above all earlier ones of its name, counted up from zero; the fee of a stored range is the sum of its company and client parts |
| ItemFees.UpdateItemFees | db/src/models/order_items.rs:89-160 | succeeds exactly when type and hold are found and a fee that must go is free to; a covered item ends up with one fee row for its quantity at the applicable rate, an uncovered one or a comp with none; no other row changes |
| OrderFees.UpdateFees | db/src/models/orders.rs:711-777 | succeeds exactly when nothing names the old event fees and every row with an event has its hold, its event and a fee that can be updated; old event fees go, every non-comp ticket row gets its fee, and event fees are charged per run of equal event and hold; nothing else changes |
| FeeTheorems.TicketsHaveTheFeeTheirPriceCallsFor | db/src/models/orders.rs:711-777 | each non-comp ticket row has exactly one fee row, for its quantity and at the rate of the greatest threshold not above its price, or none below every threshold |
| FeeTheorems.UpdatingFeesTwiceChangesNoTotal | db/src/models/orders.rs:711-777 | under a stable row order a second update leaves the total unchanged |
| EventFees.EventFeesOnceIffOneHold | db/src/models/orders.rs:720-774 | in every permitted row order each event is charged once, if and only if each has at most one ticket to charge for or all its tickets are under one hold or none |
| EventFees.EventFeesAfterUpdate | db/src/models/orders.rs:711-777 | after an update the event fees of an order come to each event at least once, and exactly once under that condition |
| EventFees.EventFeesDependOnRowOrder | db/src/models/orders.rs:720-774 | two permitted orders of the same rows are charged two and three event fees |
| Inventory.ReservingIsSafe | db/src/queries/reserve_tickets.sql:1-28 | reserving keeps every other live cart and settled order supplied with its own tickets; sold tickets it takes are redeemed, lapsed and put on record |
| Inventory.ReservingKeepsSold | db/src/queries/reserve_tickets.sql:7-11 | the tickets a settled item holds, those on record as lost to it and what it was short of add up to its quantity before and after |
| Inventory.ReleasingIsSafe | db/src/queries/release_tickets.sql:1-30 | releasing takes tickets from its own item only |
| Pools.ReleasingFrees | db/src/queries/release_tickets.sql:1-30 | releasing tickets of an item makes exactly so many more takeable of its type and hold, and none of any other |
| Pools.ReservingTakes | db/src/queries/reserve_tickets.sql:1-28 | reserving makes exactly so many fewer takeable of the type and hold, and none of any other |
| AbandonedCarts.AbandonedTicketsAreFree | db/src/queries/reserve_tickets.sql:7-14 | once an unpaid order has expired, every ticket still reserved for it can be taken, and all that nobody has locked count among the free ones of their type and hold |
| AbandonedCarts.LiveTicketsAreNotFree | db/src/queries/reserve_tickets.sql:7-14 | while an order is live nobody else can take any of its tickets |
| AbandonedCarts.AbandonedTicketsCanBeHad | db/src/models/ticket_instances.rs:293-325 | at any time after that, a request for as many tickets as are left behind, in increments and at a known price, can be served from these alone |
| CartSteps.LockVersion | db/src/models/orders.rs:1159-1178 | succeeds exactly when the stored version is the one read, and then raises it by one |
| CartSteps.SetExpiry | db/src/models/orders.rs:351-374 | an expiry is set only where there was none, a quarter of an hour ahead, and disturbs nobody |
| CartSteps.RemoveExpiry | db/src/models/orders.rs:376-402 | the expiry of an empty cart goes exactly if it has not passed |
| CartSteps.PriceUnderHold | db/src/models/orders.rs:625-633 | without a hold the price; under a comp nothing; under a discount what is left of the price, which with the discount makes the price again, or nothing if the discount is larger |
| CartSteps.ReduceItem | db/src/models/orders.rs:503-515 | exact success condition; lowers an item by releasing the difference and deletes it at zero, keeping the reservation invariant |
| CartSteps.RemoveItem | db/src/models/orders.rs:584-593 | succeeds exactly when none of its tickets is locked or missing and no refund record names it or its fees; releases everything the item holds and deletes it with its fees |
| Cart.IncreaseItem | db/src/models/orders.rs:516-583 | succeeds exactly when the price and the type are known, the quantity is in increments and the difference can be taken; at an unchanged price the item grows to the requested quantity, fully reserved; at a changed one a second item for the whole quantity appears, on record as short of what the first one has |
| Cart.MergeRow | db/src/models/orders.rs:477-598 | exact success condition and what it frees; whatever the price, row and request lose the row's line and the line it takes, unless the row stays beside it; raised at a changed price, it gets a twin for the whole requested quantity, short by the quantity of the row, and nothing else is short |
| Cart.AddLines | db/src/models/orders.rs:605-656 | succeeds exactly when each line still wanted can be served in its turn; these lines, those of quantity zero apart, are added and reserved |
| Cart.ClearCart | db/src/models/orders.rs:425-435 | succeeds exactly when each tickets row can be removed; a change of box office mode empties the cart of tickets and changes no row that is left |
| Cart.Finish | db/src/models/orders.rs:658-695 | exact success condition; the expiry is dropped exactly when the cart has no rows before fees; the limits hold for all types collected; fees are updated without changing a line or a ticket row |
| Cart.UpdateQuantities | db/src/models/orders.rs:437-698 | succeeds exactly when the version is the one read, the codes are known, every row and line can be served in its turn with the tickets there are and those freed before it, the limits hold, the fees can be updated and an empty cart does not expire that instant; for every request the lines become exactly the requested ones, duplicates included, beside the lines that stay, which are those nothing was asked of (unless others are removed) and those raised at a changed price; the shortages recorded are exactly those of the twins of the latter, each by the quantity of its row; limits hold for every type of which there are more; other live carts and orders past draft are untouched, new rows are at the price in force with the discount of their hold taken off, what is new or changed is in increments, an expiry is never extended, fees are settled |
| CartLines.ReplacingIffNoneRepriced | db/src/models/orders.rs:477-598 | when others are removed, the request replaces the cart if and only if no row is raised at a changed price |
| RaisedRows.ShortIffRepriced | db/src/models/orders.rs:538-570 | nothing is added to the shortages on record if and only if no row is raised at a changed price |
| RaisedRows.ShortOfTwin | db/src/models/orders.rs:538-570 | every row put beside another is short by exactly the quantity of that one |
| Cart.FeesLeaveOtherOrders | db/src/models/orders.rs:711-777 | updating the fees of one order changes no row of another |
| Sales.CalculateTotal | db/src/models/orders.rs:1146-1155 | the loop computes price times open quantity over all rows of the order |
| Sales.MarkPartiallyPaid | db/src/models/orders.rs:1006-1052 | succeeds exactly when the version is the one read and the order has not expired, whatever its status, and says which error otherwise; the order and all its tickets, and no others, get a day more |
| Sales.CompleteIfFullyPaid | db/src/models/orders.rs:1054-1079 | exactly when completed payments cover the total, the order becomes paid, its tickets, and no others, go to the buyer, and a user whose last cart it was has none; it is settled if it was live |
| Sales.AddPayment | db/src/models/orders.rs:980-1004 | for an order read at any time: succeeds exactly on an unexpired draft of the version read or on a partially paid order, with an admissible payment and, if covered, a wallet; the order is settled exactly if it was live and becomes paid; covered orders stay covered; an order paid since it was read as a draft is opened again and, if covered, paid again |
| Sales.MarkComplete | db/src/models/payments.rs:83-122 | completes the payment if its row is as read, then the order in either case, which is settled exactly if it was live; covered orders stay covered |
| Sales.PaidAfterCompletion | db/src/models/payments.rs:90-105 | completing a pending payment never lowers what is paid, and only concerns its order |
| RefundUnits.RefundOneUnit | db/src/models/order_items.rs:52-87 | exact success condition, on the fee row that is found where the fee of a ticket is due; one unit of the item and of that fee is refunded, for the sum of their prices as a u32 |
| RefundUnits.BumpBothIsARefund | db/src/models/order_items.rs:52-87 | refunding a unit with its fee lowers the order's total by exactly their prices |
| OrderRefunds.FindOrCreateByTicketInstance | db/src/models/refunded_tickets.rs:41-62 | a row is inserted whether or not one existed; the oldest is returned |
| OrderRefunds.MarkRefunded | db/src/models/refunded_tickets.rs:64-89 | a fee stamp is set always, a ticket stamp unless only the fee is refunded, neither twice |
| OrderRefunds.RefundLine | db/src/models/orders.rs:151-206 | exact success condition, on the fee row that the line's item has while its ticket's record leaves the fee open; what one line does to items, records, ticket and the record of losses |
| OrderRefunds.OnlyBuyersAreRefunded | db/src/models/ticket_instances.rs:64-80 | a line can be refunded exactly if all else allows it and its ticket is in a wallet of the user whose order it was sold to |
| OrderRefunds.SweepEventFees | db/src/models/orders.rs:208-236 | exactly the event fees no other open item of their event keeps alive lose a unit; fails only where there are some and the order takes no refunds |
| OrderRefunds.Refund | db/src/models/orders.rs:145-213 | with one fee row per item at most, succeeds exactly when there is a way to refund the lines one after the other and then sweep the event fees; the amount due is the drop of the order's total, modulo 2^32 whatever the prices; only rows of this order change; exactly the tickets freed are recorded as lost to their items, and all of them were in wallets of their buyers |
| OrderRefunds.RefusedCannotBeRefunded | db/src/models/orders.rs:145-213 | a request refused at one of its lines, or at the sweep, could not have gone through in another way |
| RefundCompleteness.TicketLineKeepsLedger | db/src/models/orders.rs:165-202 | a ticket line paired with its own item keeps quantities and records in agreement exactly if the ticket's record is of this sale |
| RefundCompleteness.FeeLineKeepsLedger | db/src/models/orders.rs:165-202 | the same for lines that refund a fee only |
| RefundCompleteness.RefundKeepsLedger | db/src/models/orders.rs:145-213 | any sound refund request keeps that agreement |
| RefundCompleteness.OtherLineKeepsLedger | db/src/models/orders.rs:151-206 | a sound line on one order leaves quantities and records of every other order in agreement |
| RefundCompleteness.FeeRefundsKeepUp | db/src/models/refunded_tickets.rs:64-88 | a fee is refunded at least as often as its ticket |
| RefundCompleteness.FullyRefundedOrderOwesNothing | db/src/models/orders.rs:145-213 | once all tickets are refunded, every fee is too and the total is zero |
| RefundCompleteness.FeeOnlyRefundFreesTheTicket | db/src/models/orders.rs:192-198 | a fee-only refund makes the ticket available and closes it to further refunds |
| RefundCompleteness.StaleRecordKeepsTheFee | db/src/models/refunded_tickets.rs:41-62 | a concrete order that is fully refunded and still owes its fee |
| FeeRefunds.UpdatedOrdersAreWellFormed | db/src/models/orders.rs:711-777 | an order of which nothing is refunded comes out of a fee update fit for that theorem if and only if the fees of its comps match their quantities |
| FeeRefunds.CompFeesAreLeft | db/src/models/orders.rs:730-735 | a fee update leaves an order under a comp with a fee for more units than it has tickets |
| FeeRefunds.CompsStillOweTheirFee | db/src/models/order_items.rs:52-87 | that order is fully refunded by a paired and fresh line, and still owes a fee |
| RefundRuns.RefundedOrdersOweNothing | db/src/models/orders.rs:145-213 | over any run, of whatever requests on whatever orders: if an order goes into it fit for refunds and not refunded, all refund requests are sound, and one of them leaves all of its tickets refunded, then it owes nothing ever after |
| Payouts.BalancesByReference | api/src/controllers/orders.rs:209-219 | the map holds the sum of all non-authorized amounts per reference |
| Payouts.PayOut | api/src/controllers/orders.rs:207-265 | succeeds exactly when the processor declined no call, every card charge has a reference and the balances reach the amount due; it then pays exactly that, the processor by exactly the card rows logged; when it ends early the processor has paid for exactly the rows gone through |
| Payouts.BreakdownAddsUp | api/src/controllers/orders.rs:255-257 | the amounts per method sum to the net amount paid back |
| Payouts.PayoutIsSafeIffChargesAreDistinct | api/src/controllers/orders.rs:209-258 | no reference is overdrawn, for any amount due, if and only if no two charges share a reference |
| RefundSaga.CollectTransfers | api/src/controllers/orders.rs:140-162 | exactly the refunded tickets of the request are grouped, each with its token under its asset; fails only where a record names no ticket |
| RefundSaga.TransferToOrganizations | api/src/controllers/orders.rs:170-205 | one call at most for each asset, of all its tokens to its organization; exactly the assets whose call was accepted have moved, on the ledger and in the database; fails only at a refused call, a missing wallet or an asset off the chain |
| RefundSaga.Compensate | api/src/controllers/orders.rs:268-298 | the same on the way back, to the wallet remembered for each asset; it succeeds exactly if all come back |
| RefundSaga.CompensationRestores | api/src/controllers/orders.rs:268-298 | sending modified tokens back restores the ledger if and only if each came from the one wallet remembered for its asset |
| RefundController.RefundKeepsTheBooks | api/src/controllers/orders.rs:138-265 | a payout of the drop in the total leaves payments minus total unchanged on every order |
| RefundController.HandleRefund | api/src/controllers/orders.rs:88-323 | a successful request does what `Order::refund` does, conserves every order's books and brings exactly the tokens of all refunded tickets home; it fails only if it is not allowed, its lines cannot be refunded, a ticket has nowhere to go, a call was refused or the balances do not reach the amount due; a failed one has called for the return of every asset that went out, all have come back unless such a call was refused, and then the ledger is as it was, given one wallet per asset; the card refunds made are those of the rows logged, or remain without a row |
| RefundController.ServeRefunds | api/src/middleware/database_transaction.rs:30-58 | over any sequence of refund requests the books of every order stay where they were |
| Holds.TreeSharesEventAndType | db/src/models/holds.rs:76-108 | a whole tree of holds, however deep, is for one event and ticket type |
| Holds.CountForHold | db/src/models/ticket_instances.rs:407-443 | counts all tickets in the hold, and the unsold ones |
| Holds.AddToHold | db/src/models/ticket_instances.rs:352-378 | succeeds exactly when enough tickets can be taken from the other place, and moves exactly that many unclaimed ones |
| Holds.ReleaseFromHold | db/src/models/ticket_instances.rs:380-405 | the same towards the main pool, under its own rule |
| Holds.SetQuantity | db/src/models/holds.rs:302-332 | exact success condition; ends with the requested count by moving tickets only from or to the parent, or the pool |
| Holds.SettingQuantityConserves | db/src/models/holds.rs:302-332 | hold and parent have between them what they had, and no other place changes |
| Holds.SoldTicketsStay | db/src/models/holds.rs:302-332 | sold tickets bound from below what a hold can be set to |
| Holds.Commit | db/src/models/holds.rs:405-434 | succeeds exactly when discounts have one, the code is unused and event and type exist; comps lose their discount; the forest stays one |
| Holds.CreateCompForPerson | db/src/models/holds.rs:76-108 | succeeds exactly when a comp with that code can be added and the parent has so many tickets to give; the child inherits event and type and is filled from its parent with exactly the quantity |
| Holds.Split | db/src/models/holds.rs:234-270 | exact success condition; the two holds together have exactly the tickets the one had; the new one hangs from the old one's parent |
| Holds.Destroy | db/src/models/holds.rs:274-282 | succeeds exactly when all its tickets can leave, it has no children and no item names it; all tickets go back to the parent or the pool and nothing refers to the hold any more; the forest stays one |
| Holds.RehousingIsSafe | db/src/queries/add_tickets_to_hold.sql:1-26 | moving unclaimed tickets between holds disturbs no cart and no sale |
| Capacity.CreateMultiple | db/src/models/ticket_instances.rs:259-291 | issues the tokens from the start on in order, in non-empty batches of at most a thousand rows |
| Capacity.TokensAreContiguous | db/src/models/ticket_instances.rs:259-291 | tokens of a numbered type are exactly 0 up to the number of its rows |
| Capacity.AppendingKeepsNumbered | api/src/controllers/ticket_types.rs:201-214 | issuing from the ticket count on keeps every type numbered without repeats |
| Capacity.NullifyTickets | db/src/models/ticket_instances.rs:796-810 | only available tickets in the main pool are nullified |
| Capacity.UpdateCapacity | api/src/controllers/ticket_types.rs:199-260 | succeeds exactly when the number is right already, or the asset is on the chain, enough tickets can be nullified where it goes down, and the chain refuses nothing; then the number of valid tickets is the one requested, whatever it was, exactly the nullified tickets' tokens go from the chain, and tokens stay numbered |
| Capacity.SupplyCoversTokensIffNothingWasNullified | api/src/controllers/ticket_types.rs:216-227 | the supply set on the chain covers all tokens if and only if no ticket had been nullified |
| Capacity.ReservingRevivesNullifiedTickets | db/src/queries/reserve_tickets.sql:1-14 | reserving raises the number of valid tickets by the nullified ones it picks |
| PriceLists.ClashIsOverlap | db/migrations/20181231091032_only_validate_published_ticket_pricing_rows/up.sql:21-30 | the three cases of the validation are exactly the sharing of an instant |
| PriceLists.PriceList.Destroy | db/src/models/ticket_pricing.rs:162-189 | a price in use is kept as deleted, an unused one goes |
| PriceLists.PriceList.CommitTicketType | db/src/models/ticket_types.rs:380-398 | a new type has exactly one price, the default it asks for |
| PriceLists.PriceList.ReplaceDefault | db/src/models/ticket_types.rs:86-120 | an update leaves exactly one default price, a new row with the new terms; the old one is marked deleted if it is in use and goes otherwise, and nothing else changes |
| PriceLists.PriceList.ValidateTicketPricing | db/src/models/ticket_types.rs:175-211 | passes exactly when open published prices are pairwise disjoint and all lie within the sale |
| PriceLists.PriceList.DestroyUnnamed | api/src/controllers/ticket_types.rs:276-290 | of the published prices exactly those named in the request remain, unchanged |
| PriceLists.PriceList.UpdatePricings | api/src/controllers/ticket_types.rs:274-337 | goes through exactly when every line names a published price and leaves its dates in order, or makes a valid price, and the result is disjoint and within the sale; it leaves as published prices exactly the named ones, with what the lines ask for in turn, and those it makes, pairwise disjoint and within the sale; the default price and other types are left alone |
| PriceLists.PriceList.GetCurrentTicketPricing | db/src/models/ticket_pricing.rs:209-264 | fails exactly where no price applies or, outside the box office, several do, which is never so where published ones are disjoint and the default single; a current open published price goes before the default, which comes back exactly where there is none or it is asked for, and never at the box office unless asked for; the box office prefers its own |
| Requests.FindOrCreateCart | db/src/models/orders.rs:270-342 | succeeds exactly when the user has a current cart or no open draft at all; returns that cart, or a new empty one that becomes the user's last, and disturbs nobody |
| Requests.HandleUpdateCart | api/src/controllers/cart.rs:34-141 | exact success condition; a cart request keeps the shop's invariants, is remembered exactly, gives the cart the lines of the request and those that stay, and is short exactly by the twins of the rows it raises at a changed price; carts at the prices in force stay so |
| Requests.HandleCheckout | api/src/controllers/cart.rs:187-345 | exact success condition; the user's cart takes one payment of the kind asked for; its row gets the version locked (twice for an external checkout, which puts it on behalf of the guest), a day more, and is Paid exactly if its total is covered, and settled exactly if it was live; paid orders stay covered |
| Requests.HandleCapture | api/src/controllers/cart.rs:558-574 | exact success condition; a covered order becomes paid, and is settled exactly if it was live; an order that is not covered stays as it is, like every other |
| Requests.HandleRedeem | db/src/models/ticket_instances.rs:530-554 | succeeds exactly on a purchased ticket with its key, and changes its status alone |
| Requests.HandleHold | db/src/models/holds.rs:76-332 | exact success condition of every change of holds; the hold it adds has exactly the terms and the tickets asked for, from the pool or the hold they are due from, the one it changes has exactly the quantity asked for, the one it destroys has given all it had to its parent or the pool; carts and sales are undisturbed |
| Requests.RefundingStaysCovered | db/src/models/orders.rs:1081-1097 | with prices not negative, refunds keep every paid order paid for |
| Requests.TakingBackIsSafe | db/src/models/orders.rs:145-213 | refunds take tickets only from the items they were sold to, where exactly those are put on record, and from no live cart |
| Requests.RedeemingIsSafe | db/src/models/ticket_instances.rs:530-554 | redeeming keeps the reservation invariant |
| Runs.Serve | api/src/middleware/database_transaction.rs:30-58 | any request commits and does exactly what it asks for and nothing its kind may not do, with losses, sales and the amounts of shortages recorded exactly, and refunds done as `Order::refund` does them; or it leaves everything as it was |
| Runs.ServeAll | api/src/middleware/database_transaction.rs:30-58 | any run of requests and delays is a trace in which every invariant holds at every point and every step is one request, whose price, refund and capacity provisos are predicates of the request and the state it meets |
| RunTheorems.PaidInTimeStaysSold | db/src/models/orders.rs:1054-1079 | an order paid before it expired stays paid with the rows it had, and at any later time each item has its quantity of sold tickets, less those on record as lost since and what it was short of from the start |
| RunTheorems.WhoPaysInTimeHasAllTickets | db/src/models/orders.rs:1054-1079 | over carts, checkouts, captures, holds and capacities in which no row is raised at a changed price, whoever pays in time has exactly the quantity of tickets ever after, all Purchased and of the right type |
| RunTheorems.EveryLossHasACause | db/src/queries/reserve_tickets.sql:7-11 | every loss on record was a redeemed and lapsed ticket taken by a cart update, or a purchased one given back in a refund |
| RunTheorems.NothingIsLost | db/src/queries/reserve_tickets.sql:7-11 | without redemptions and refunds nothing is ever lost |
| RunTheorems.NothingIsShort | db/src/models/orders.rs:538-570 | while no row is raised at a changed price nothing is short |
| RunTheorems.ConstantPricesShortNothing | db/src/models/orders.rs:538-570 | at constant prices no row is ever raised at another price, and nothing is short |
| RunTheorems.PaidStaysCovered | db/src/models/orders.rs:1054-1079 | over any run in which no refund meets a negative price, so in particular without refunds, what is marked paid is paid for |
| RunTheorems.TokensStayNumbered | api/src/controllers/ticket_types.rs:201-214 | over any run in which no capacity outgrows the token column, so in particular without changes of capacity, tokens stay numbered without repeats |
| RunTheorems.OrdersNeverGoBack | db/src/models/orders.rs:980-1052 | over any run statuses only advance |
| RunTheorems.PaymentsOnlyComplete | db/src/models/payments.rs:83-105 | over any run a payment row stays as it was made, unless a capture of it completes it |
| RunTheorems.NoOversell | db/src/models/ticket_instances.rs:293-350 | at any time the quantities of live carts and settled orders, less counted shortages and losses, are met ticket by ticket by different valid tickets of the type |
| RunTheorems.PromisesAreKept | db/src/models/ticket_instances.rs:293-350 | where nothing is short and nothing lost, the quantities themselves add up to at most the valid tickets |
| RunTheorems.RaisingOversells | db/src/models/orders.rs:538-570 | raising a concrete cart after its price changed succeeds, and leaves it live with rows for three tickets where there are two |
| Shortages.OversoldByRaisedRows | db/src/models/orders.rs:538-570 | after an update, what the rows of the cart ask for exceeds the tickets they hold by exactly the quantities of the rows raised at a changed price, and what was short before |
| Shortages.EveryShortageHasACause | db/src/models/orders.rs:538-570 | over any run, whatever an item is short of, some cart update left it so, beside a row of the cart that it raised at a changed price and that has the quantity the item is short of; the two together hold exactly the number of tickets asked for, less what the row lacked before |
| Transfers.ConfirmOwnership | db/src/models/ticket_instances.rs:622-650 | passes exactly when all tickets asked for are the user's and Purchased and the user owns some ticket |
| Transfers.WriteAuthorization | db/src/models/ticket_instances.rs:657-688 | succeeds exactly when the tickets are distinct, unchanged since read and in the one wallet, and then exactly they carry the key |
| Transfers.FindTransfer | db/src/models/ticket_instances.rs:725-748 | passes exactly when the unexpired rows with the key are as many as authorized and all the sender's |
| Transfers.WriteReceipt | db/src/models/ticket_instances.rs:757-793 | succeeds exactly when every row is unchanged since read, and then exactly they change wallets and lose the key |
| TransferProtocol.StepKeepsInv | db/src/models/ticket_instances.rs:616-793 | every interleaved step, of transfers or of anybody else, keeps the protocol's invariant |
| TransferProtocol.AtMostOneReceipt | db/src/models/ticket_instances.rs:705-793 | in any run an authorization of at least one ticket is received at most once |
| TransferProtocol.ReceiptMovesExactly | db/src/models/ticket_instances.rs:757-793 | a receipt moves exactly the authorized number out of the sender's wallet, each as read but for its status |
| TransferProtocol.DeadIsNotReceived | db/src/models/ticket_instances.rs:743-748 | an authorization whose key is on too few rows can be neither taken up nor completed |
| TransferProtocol.DeadStaysDead | db/src/models/ticket_instances.rs:665-688 | and stays so, whatever happens |
| TransferProtocol.ReauthorizingKills | db/src/models/ticket_instances.rs:660-688 | authorizing any of its tickets again does that to an authorization |
| TransferProtocol.EmptyAuthorizationReplays | db/src/models/ticket_instances.rs:645-650 | an authorization of no tickets can be received again and again |
| OptimisticLocking.CommitsAreSerial | db/src/models/orders.rs:444 | in any interleaving the row is what the committed requests make of it one after the other, each on a stamp of its own: no update is lost |
| CartLocking.UpdateUnderLock | db/src/models/orders.rs:437-698 | an update of a cart read at any earlier time, if it goes through, is one commit of that protocol: made of what the version it read holds, on the next version |
| OptimisticLocking.UpdateLastCart | db/src/models/users.rs:563-601 | succeeds exactly when stamp and last cart are as read |
| CardCheckout.AuthAndRecord | api/src/controllers/cart.rs:532-558 | succeeds exactly when a checkout by card can and the processor refuses nothing; the charge is recorded, on the user's cart and for the amount, and committed before it can be captured; a charge that cannot be recorded is voided |
| CardCheckout.CaptureAndDeliver | api/src/controllers/cart.rs:560-574 | succeeds exactly when the order can be completed, the process does not stop, tokens and mail are delivered and the processor refuses nothing; wherever it fails, the tables are as they were and the charge is recorded; one whose order cannot be completed is voided, and in any other failure it stays captured |
| CardCheckout.Checkout | api/src/controllers/cart.rs:438-574 | in every outcome, also when the process stops, and with any other requests between the two transactions, every captured charge has a committed payment row with its reference: Completed on success, otherwise Authorized unless another capture has completed it; succeeds exactly when both transactions can, in the states they meet |
| DomainActions.Queue.FindPending | db/src/models/domain_actions.rs:69-88 | returns exactly the due actions, each once |
| DomainActions.Queue.SetBusy | db/src/models/domain_actions.rs:120-138 | succeeds exactly when no lease runs, starts one and is on record |
| DomainActions.CheckOutsAreApart | db/src/models/domain_actions.rs:120-183 | whatever several processes do, going by what they found however long ago, an action checked out twice within a minute has failed for the last time or errored in between |
| DomainActions.Queue.FindActions | api/src/domain_events/domain_action_monitor.rs:140-221 | a pass starts at most one action more than its limit, and no fewer unless all due ones are started or connections run out; each is due, known and leased, and none was running; a pass that fails came upon an unknown action, which has errored, and what it had started stays leased |
| DomainActions.Queue.Finish | api/src/domain_events/executor_future.rs:39-77 | a success changes the status alone; a failure is counted, and exactly the last one allowed exceeds the retries and ends the lease; finished actions are not touched |
| DomainActions.Run | api/src/domain_events/domain_action_monitor.rs:224-268 | any run is a trace in which each event does to rows, attempts and clock exactly what it is for; in it no action is checked out twice within a minute, pending actions have attempts left, retries are exceeded after exactly as many failures as allowed, and finished actions never change |

## Left out

- Codes, the limits that rest on them, and the increment check's SQL: the increment is taken as a divisor of the quantity; an order item never carries a code.
- Redemption codes are taken to be in upper case already; uniqueness is checked among holds only.
- Holds are not updated in place (`Hold::update`): names, end dates and order limits do not enter any property here.
- Wall clock and transaction time (`Utc::now`, `now()`) are one instant per transaction; `i64` sums are unbounded, `u32` and `i32` casts are as in the code.
- Requests on carts, payments, refunds, holds and capacity are taken one transaction at a time, other sessions being present as locked rows; interleavings are treated for transfers, order versions and the last cart.
- Token transfers of a checkout, mails and domain events appear as steps that may fail, or not at all; assets are identified with their ticket types and token ledgers are maps from token to wallet.
- Scopes, signatures, redeem keys and the processor's acceptance are Boolean inputs; a processor is taken to refuse negative charges.
- Whether an event is still a draft, whether an asset is on the chain at checkout, and saved payment methods: each only adds a way to fail.
- Reports, searches, display structs, routing, configuration and external clients.
- DomainActions.Run: attempts that exceed 55 seconds leave no trace in the code and count as no failure; the future is taken to start when it is checked out, as it does where futures are spawned, and not one after the other.
- OrderRefunds.Refund: the ticket named in a line need not belong to the item named with it, as in the code; what follows when it does is in RefundCompleteness.
- Requests.HandleCheckout: the guest of an external payment is an id handed in; finding or creating that user is not part of it.
- TransferProtocol.StepKeepsInv: transactions are taken to start at different instants, since a write is recognised by its `updated_at` alone.
