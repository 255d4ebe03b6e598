/**
  The refund request (api/src/controllers/orders.rs:82-323) as one transaction: the order and its
  tickets, the tokens, the payout, and what is undone when a step fails.
 */
module RefundController {
  import opened Schema
  import opened Sums
  import opened OrderItems
  import opened RefundUnits
  import opened OrderRefunds
  import opened Payouts
  import opened RefundSaga
  import opened TicketInstances

  datatype RefundResponse = RefundResponse(amountRefunded: u32, refundBreakdown: map<PaymentMethod, u32>)

  // ------------------------------------------------------------ the books

  /** What has been paid on an order, less what is still charged for on it. */
  ghost function Books(payments: seq<Payment>, items: map<Id, OrderItem>, orderId: Id): (cents: int) {
    NetPaid(OrderPayments(payments, orderId)) - OrderTotal(items, orderId)
  }

  ghost predicate BooksKept(payments: seq<Payment>, items: map<Id, OrderItem>, payments': seq<Payment>, items': map<Id, OrderItem>) {
    forall o :: Books(payments', items', o) == Books(payments, items, o)
  }

  ghost predicate OrdersKeyed(orders: map<Id, Order>) {
    forall o :: o in orders ==> orders[o].id == o
  }

  /** Prices are not negative and totals fit the u32 a refund is counted in. */
  ghost predicate Countable(items: map<Id, OrderItem>) {
    Refundable(items) && Bounded(items) && NonNegativePrices(items) && forall o :: OrderTotal(items, o) < U32_SIZE
  }

  lemma {:induction false} PaymentsOfOneOrder(rows: seq<Payment>, orderId: Id, other: Id)
    requires forall p :: p in rows ==> p.orderId == orderId
    ensures OrderPayments(rows, other) == if other == orderId then rows else []
  {
    if rows != [] {
      PaymentsOfOneOrder(rows[..|rows| - 1], orderId, other);
      assert rows == rows[..|rows| - 1] + [rows[|rows| - 1]];
    }
  }

  lemma {:induction false} OrderPaymentsBelong(payments: seq<Payment>, orderId: Id)
    ensures forall p :: p in OrderPayments(payments, orderId) ==> p.orderId == orderId
  {
    if payments != [] {
      OrderPaymentsBelong(payments[..|payments| - 1], orderId);
    }
  }

  lemma {:induction false} LoggedRowsBelong(due: nat, rows: seq<Payment>, payments: seq<Payment>, now: Time, orderId: Id)
    requires forall p :: p in rows ==> p.orderId == orderId
    ensures forall p :: p in LoggedRows(due, rows, payments, now) ==> p.orderId == orderId
  {
    if rows != [] {
      assert rows[|rows| - 1] in rows;
      LoggedRowsBelong(due, rows[..|rows| - 1], payments, now, orderId);
    }
  }

  lemma TotalOfAnotherOrder(items: map<Id, OrderItem>, items': map<Id, OrderItem>, orderId: Id, other: Id)
    requires OnlyRefunds(items, items', orderId) && other != orderId
    ensures OrderTotal(items', other) == OrderTotal(items, other)
  {
    forall k | k in items ensures Due(other)(items'[k]) == Due(other)(items[k]) {
      assert items'[k] == items[k].(refundedQuantity := items'[k].refundedQuantity);
    }
    SumMonotone(items, items', Due(other));
    SumMonotone(items', items, Due(other));
  }

  lemma RefundsLowerTheTotal(items: map<Id, OrderItem>, items': map<Id, OrderItem>, orderId: Id)
    requires OnlyRefunds(items, items', orderId) && NonNegativePrices(items)
    ensures OrderTotal(items', orderId) <= OrderTotal(items, orderId)
  {
    forall k | k in items ensures k in items' && Due(orderId)(items'[k]) <= Due(orderId)(items[k]) {
      var a, b := items[k], items'[k];
      assert b == a.(refundedQuantity := b.refundedQuantity);
      PriceTimesLess(a.unitPriceInCents, b.quantity - b.refundedQuantity, a.quantity - a.refundedQuantity);
    }
    SumMonotone(items', items, Due(orderId));
  }

  lemma PriceTimesLess(price: nat, m: int, n: int)
    requires m <= n
    ensures price * m <= price * n
  {
  }

  lemma RefundsKeepCountable(items: map<Id, OrderItem>, items': map<Id, OrderItem>, orderId: Id)
    requires OnlyRefunds(items, items', orderId) && Refundable(items') && Countable(items)
    ensures Countable(items')
    ensures ToU32(OrderTotal(items, orderId) - OrderTotal(items', orderId)) == OrderTotal(items, orderId) - OrderTotal(items', orderId)
  {
    assert NonNegativePrices(items') by {
      forall k | k in items' ensures 0 <= items'[k].unitPriceInCents {
        assert items'[k] == items[k].(refundedQuantity := items'[k].refundedQuantity);
      }
    }
    RefundsLowerTheTotal(items, items', orderId);
    TotalIsNonNegative(items', orderId);
    forall o ensures OrderTotal(items', o) < U32_SIZE {
      if o != orderId {
        TotalOfAnotherOrder(items, items', orderId, o);
      }
    }
    hide OnlyRefunds, Refundable, NonNegativePrices, OrderTotal;
    var drop := OrderTotal(items, orderId) - OrderTotal(items', orderId);
    assert 0 <= drop < U32_SIZE;
  }

  /** A payout of exactly what the order total dropped by keeps the books of every order. */
  lemma RefundKeepsTheBooks(payments: seq<Payment>, items: map<Id, OrderItem>, items': map<Id, OrderItem>, orderId: Id, due: u32, now: Time)
    requires Countable(items) && OnlyRefunds(items, items', orderId) && Refundable(items')
    requires due == ToU32(OrderTotal(items, orderId) - OrderTotal(items', orderId))
    requires due <= TotalReach(OrderPayments(payments, orderId), OrderPayments(payments, orderId))
    ensures
      var rows := OrderPayments(payments, orderId);
      BooksKept(payments, items, payments + LoggedRows(due, rows, rows, now), items')
    ensures Countable(items')
  {
    var rows := OrderPayments(payments, orderId);
    var logged := LoggedRows(due, rows, rows, now);
    RefundsKeepCountable(items, items', orderId);
    OrderPaymentsBelong(payments, orderId);
    LoggedRowsBelong(due, rows, rows, now, orderId);
    assert -NetPaid(logged) == due;
    forall o ensures Books(payments + logged, items', o) == Books(payments, items, o) {
      OrderPaymentsOfAppend(payments, logged, o);
      PaymentsOfOneOrder(logged, orderId, o);
      NetPaidOfAppend(OrderPayments(payments, o), OrderPayments(logged, o));
      if o != orderId {
        TotalOfAnotherOrder(items, items', orderId, o);
      }
    }
  }

  // ------------------------------------------------------------ tickets keep their wallets

  ghost predicate SameHomes(before: seq<Ticket>, after: seq<Ticket>) {
    && |after| == |before|
    && forall i: Id :: i < |after| ==>
       && after[i].walletId == before[i].walletId
       && after[i].ticketTypeId == before[i].ticketTypeId
       && after[i].tokenId == before[i].tokenId
  }

  lemma {:induction false} RefundsLeaveWalletsAlone(trace: seq<RefundState>, lines: seq<RefundItem>, fees: seq<Option<Id>>,
                                                    orderId: Id, now: Time, n: nat)
    requires IsRun(trace, lines, fees, orderId, now) && n <= |lines|
    ensures SameHomes(trace[0].tickets, trace[n].tickets)
  {
    if n > 0 {
      RefundsLeaveWalletsAlone(trace, lines, fees, orderId, now, n - 1);
      assert LineStep(trace[n - 1], trace[n], lines[n - 1], fees[n - 1], orderId, now);
      hide IsRun, ChargesBack, BumpBoth, Recorded;
    }
  }

  function RequestedTickets(items: seq<RefundItem>): (ids: set<Id>) {
    set item | item in items && item.ticketInstanceId.Some? :: item.ticketInstanceId.value
  }

  lemma WalletsStillAgree(before: seq<Ticket>, after: seq<Ticket>, records: seq<RefundedTicket>, ids: set<Id>, owner: map<Token, Id>)
    requires SameHomes(before, after) && WalletsAgree(before, ids, owner)
    ensures WalletsAgree(after, RefundedTickets(after, records, ids), owner)
  {
  }

  // ------------------------------------------------------------ the request

  /** The balances reach the amount due, and every charge has a reference to pay back to. */
  ghost predicate CanPayOut(rows: seq<Payment>, due: nat) {
    due <= TotalReach(rows, rows) && forall p :: p in rows ==> !LacksReference(p, rows)
  }

  /** The part inside `connection.transaction`: transfers, then the payout. On failure its writes are undone, and nothing else. */
  method TransferAndPay(conn: Connection, ledger: TokenLedger, processor: PaymentProcessor, orderId: Id, refundDue: u32,
                        t: Transfers, orgWallets: map<Id, Id>, onChain: set<Id>)
    returns (r: Result<RefundResponse>, modified: set<Id>, ghost sent: seq<Call>, ghost paid: seq<(string, u32)>)
    requires Consistent(t) && ListedByAsset(t, conn.tickets)
    modifies conn`tickets, conn`payments, ledger, processor
    ensures modified <= t.tokens.Keys && modified <= orgWallets.Keys && modified <= onChain
    ensures modified == t.tokens.Keys || AnyRefused(sent) || !(t.tokens.Keys <= orgWallets.Keys && t.tokens.Keys <= onChain)
    ensures Relocated(old(ledger.owner), ledger.owner, t.tokens, modified, orgWallets)
    ensures ledger.calls == old(ledger.calls) + sent && AreCalls(sent, t.tokens, orgWallets, modified)
    ensures
      var rows := OrderPayments(old(conn.payments), orderId);
      && (r.Ok? <==>
            && modified == t.tokens.Keys && processor.declined == old(processor.declined) && CanPayOut(rows, refundDue))
      && processor.refunds == old(processor.refunds) + paid
      && paid <= CardRefunds(LoggedRows(refundDue, rows, rows, conn.now))
    ensures r.Ok? ==>
      var rows := OrderPayments(old(conn.payments), orderId);
      && conn.payments == old(conn.payments) + LoggedRows(refundDue, rows, rows, conn.now)
      && r.value.amountRefunded == refundDue
      && IsBreakdownOf(r.value.refundBreakdown, LoggedRows(refundDue, rows, rows, conn.now))
      && paid == CardRefunds(LoggedRows(refundDue, rows, rows, conn.now))
      && Rehoused(old(conn.tickets), conn.tickets, t, modified, orgWallets, conn.now)
    ensures r.Err? ==> conn.tickets == old(conn.tickets) && conn.payments == old(conn.payments)
  {
    hide Relocated, TotalReach, LoggedRows, OrderPayments, IsBreakdownOf, LacksReference, Rehoused, AreCalls, AnyRefused, CardRefunds;
    var tickets, payments := conn.tickets, conn.payments;
    ghost var rows := OrderPayments(payments, orderId);
    paid := [];
    var moved, modified', sent' := TransferToOrganizations(conn, ledger, t, orgWallets, onChain);
    modified, sent := modified', sent';
    if moved.Err? {
      conn.tickets, conn.payments := tickets, payments;
      return Err(moved.error), modified, sent, paid;
    }
    var breakdown, amountRefunded, done := PayOut(conn, processor, orderId, refundDue);
    paid := CardRefunds(LoggedRows(refundDue, rows[..done], rows, conn.now));
    CutShort(refundDue, rows, done, rows, conn.now);
    assert rows[..|rows|] == rows;
    if breakdown.Err? {
      conn.tickets, conn.payments := tickets, payments;
      return Err(breakdown.error), modified, sent, paid;
    }
    return Ok(RefundResponse(amountRefunded, breakdown.value)), modified, sent, paid;
  }

  /**
    What a request did outside the database: the assets whose tokens went out and the calls that were made for it, the
    assets whose tokens came back and the calls for that, and the card refunds that went through.
   */
  datatype Saga = Saga(transfers: Transfers, gone: set<Id>, out: seq<Call>, back: set<Id>, home: seq<Call>, paid: seq<(string, u32)>)

  const NOTHING_SENT: Saga := Saga(Transfers(map[], map[], map[]), {}, [], {}, [], [])

  /**
    On success everything went out and nothing came back. On failure each asset that went out was sent back to the
    wallet remembered for it, unless one of these returns was refused.
   */
  ghost predicate Unfolded(saga: Saga, ok: bool, orgWallets: map<Id, Id>, calls: seq<Call>, calls': seq<Call>) {
    && Consistent(saga.transfers) && saga.back <= saga.gone <= saga.transfers.tokens.Keys
    && calls' == calls + saga.out + saga.home
    && AreCalls(saga.out, saga.transfers.tokens, orgWallets, saga.gone)
    && AreCalls(saga.home, saga.transfers.tokens, saga.transfers.walletOf, saga.back)
    && (forall i :: 0 <= i < |saga.home| ==> saga.home[i].asset in saga.gone)
    && (ok ==> saga.gone == saga.transfers.tokens.Keys && saga.home == [])
    && (!ok ==> (AnyRefused(saga.home) <==> saga.back != saga.gone))
  }

  lemma NothingUnfolded(orgWallets: map<Id, Id>, calls: seq<Call>)
    ensures Unfolded(NOTHING_SENT, false, orgWallets, calls, calls)
  {
    NoCallsYet(map[], orgWallets);
    NoCallsYet(map[], map[]);
  }

  lemma SentAndPaid(saga: Saga, orgWallets: map<Id, Id>, calls: seq<Call>, calls': seq<Call>)
    requires Consistent(saga.transfers) && saga.back == {} && saga.gone == saga.transfers.tokens.Keys && saga.home == []
    requires calls' == calls + saga.out && AreCalls(saga.out, saga.transfers.tokens, orgWallets, saga.gone)
    ensures Unfolded(saga, true, orgWallets, calls, calls')
  {
    NoCallsYet(saga.transfers.tokens, saga.transfers.walletOf);
  }

  lemma SentAndReturned(saga: Saga, orgWallets: map<Id, Id>, calls: seq<Call>, calls1: seq<Call>, calls2: seq<Call>)
    requires Consistent(saga.transfers) && saga.back <= saga.gone <= saga.transfers.tokens.Keys
    requires calls1 == calls + saga.out && AreCalls(saga.out, saga.transfers.tokens, orgWallets, saga.gone)
    requires calls2 == calls1 + saga.home && AreCalls(saga.home, saga.transfers.tokens, saga.transfers.walletOf, saga.back)
    requires forall i :: 0 <= i < |saga.home| ==> saga.home[i].asset in saga.gone
    requires saga.back != saga.gone ==> AnyRefused(saga.home)
    ensures Unfolded(saga, false, orgWallets, calls, calls2)
  {
  }

  /** Each of the tickets is in the wallet of its organization, for the database and on the ledger; no other token has moved. */
  ghost predicate BroughtHome(tickets: seq<Ticket>, refunded: set<Id>, orgWallets: map<Id, Id>, before: map<Token, Id>, owner: map<Token, Id>) {
    && (forall i :: i in refunded ==> i < |tickets| && IsHome(tickets[i], orgWallets, owner))
    && (forall a: Id, token: int :: !SomeToken(tickets, refunded, a, token) ==>
          ((a, token) in owner <==> (a, token) in before) && ((a, token) in owner ==> owner[(a, token)] == before[(a, token)]))
  }

  predicate IsHome(t: Ticket, orgWallets: map<Id, Id>, owner: map<Token, Id>) {
    && t.ticketTypeId in orgWallets && t.walletId == orgWallets[t.ticketTypeId]
    && (t.ticketTypeId, t.tokenId) in owner && owner[(t.ticketTypeId, t.tokenId)] == orgWallets[t.ticketTypeId]
  }

  lemma AllBroughtHome(before: seq<Ticket>, after: seq<Ticket>, refunded: set<Id>, t: Transfers, orgWallets: map<Id, Id>,
                       owner: map<Token, Id>, owner': map<Token, Id>, now: Time)
    requires GroupsOnly(t, before, refunded) && GroupsAll(t, before, refunded) && t.tokens.Keys <= orgWallets.Keys
    requires Rehoused(before, after, t, t.tokens.Keys, orgWallets, now)
    requires Relocated(owner, owner', t.tokens, t.tokens.Keys, orgWallets)
    ensures BroughtHome(after, refunded, orgWallets, owner, owner')
  {
    hide SomeToken;
    forall i | i in refunded ensures i < |after| && IsHome(after[i], orgWallets, owner') {
      assert i < |before| && IsGrouped(t, before[i], i);
      var token := (before[i].ticketTypeId, before[i].tokenId);
      assert token.0 in t.tokens.Keys && token.1 in t.tokens[token.0];
      assert after[i] == before[i].(walletId := orgWallets[token.0], updatedAt := now);
    }
    forall a: Id, token: int | !SomeToken(after, refunded, a, token)
      ensures ((a, token) in owner' <==> (a, token) in owner) && ((a, token) in owner' ==> owner'[(a, token)] == owner[(a, token)])
    {
      RehousingKeepsTokens(before, after, refunded, t, orgWallets, now, a, token);
      var key := (a, token);
      assert !(key.0 in t.tokens.Keys && key.1 in t.tokens[key.0]);
    }
  }

  lemma RehousingKeepsTokens(before: seq<Ticket>, after: seq<Ticket>, refunded: set<Id>, t: Transfers, orgWallets: map<Id, Id>, now: Time,
                             a: Id, token: int)
    requires Consistent(t) && t.tokens.Keys <= orgWallets.Keys && Rehoused(before, after, t, t.tokens.Keys, orgWallets, now)
    ensures SomeToken(before, refunded, a, token) ==> SomeToken(after, refunded, a, token)
  {
    if i :| i in refunded && i < |before| && before[i].ticketTypeId == a && before[i].tokenId == token {
      assert after[i].ticketTypeId == a && after[i].tokenId == token;
    }
  }

  /** The refund of the lines made the one state of the other, but for the wallets that tickets have gone to since: they were in `tickets`. */
  ghost predicate RefundsBy(s: RefundState, s': RefundState, trace: seq<RefundState>, lines: seq<RefundItem>, fees: seq<Option<Id>>,
                            tickets: seq<Ticket>, orderId: Id, now: Time) {
    IsRefund(trace, lines, fees, s'.(tickets := tickets), orderId, now) && trace[0] == s
  }

  ghost predicate Refunds(s: RefundState, s': RefundState, lines: seq<RefundItem>, orderId: Id, now: Time) {
    exists trace, fees, tickets :: RefundsBy(s, s', trace, lines, fees, tickets, orderId, now)
  }

  /** No way of refunding the lines one after the other goes through. */
  ghost predicate NoWayToRefund(conn: Connection, s: RefundState, lines: seq<RefundItem>, orderId: Id)
    reads conn`orders, conn`lockedRows, conn`now
  {
    forall trace, fees :: !CanRefund(conn, s, trace, lines, fees, orderId, conn.now)
  }

  /** What stands in the way of the transfers: a record that names no ticket, or an asset with no wallet to go to or none on the chain. */
  ghost predicate NowhereToGo(tickets: seq<Ticket>, records: seq<RefundedTicket>, ids: set<Id>, orgWallets: map<Id, Id>, onChain: set<Id>) {
    || (exists record :: record in records && InRequest(record, ids) && record.ticketInstanceId >= |tickets|)
    || (exists i :: i in RefundedTickets(tickets, records, ids) && i < |tickets|
                    && !(tickets[i].ticketTypeId in orgWallets && tickets[i].ticketTypeId in onChain))
  }

  lemma AssetsAreOfTickets(t: Transfers, tickets: seq<Ticket>, records: seq<RefundedTicket>, ids: set<Id>, orgWallets: map<Id, Id>,
                           onChain: set<Id>)
    requires GroupsOnly(t, tickets, RefundedTickets(tickets, records, ids))
    requires !(t.tokens.Keys <= orgWallets.Keys && t.tokens.Keys <= onChain)
    ensures NowhereToGo(tickets, records, ids, orgWallets, onChain)
  {
    hide RefundedTickets, ListedByAsset;
    var refunded := RefundedTickets(tickets, records, ids);
    var a :| a in t.tokens.Keys && !(a in orgWallets && a in onChain);
    assert a in t.walletOf;
    assert SomeWallet(tickets, refunded, a, t.walletOf[a]);
    var i :| i in refunded && i < |tickets| && tickets[i].ticketTypeId == a && tickets[i].walletId == t.walletOf[a];
  }

  /** The handler. */
  method HandleRefund(conn: Connection, ledger: TokenLedger, processor: PaymentProcessor, orderId: Id, items: seq<RefundItem>,
                      authorized: bool, orgWallets: map<Id, Id>, onChain: set<Id>)
    returns (r: Result<RefundResponse>, ghost saga: Saga)
    requires Refundable(conn.orderItems) && OrdersKeyed(conn.orders)
    modifies conn`orderItems, conn`refundedTickets, conn`tickets, conn`history, conn`payments, ledger, processor
    ensures r.Err? && OneFeeEach(old(conn.orderItems)) ==>
      || !authorized || !OrderTakesRefunds(conn.orders, orderId) || NoWayToRefund(conn, old(StateOf(conn)), items, orderId)
      || (&& Refunds(old(StateOf(conn)), StateOf(conn), items, orderId, conn.now)
          && (|| NowhereToGo(conn.tickets, conn.refundedTickets, RequestedTickets(items), orgWallets, onChain)
              || AnyRefused(saga.out) || processor.declined != old(processor.declined)
              || !CanPayOut(OrderPayments(conn.payments, orderId),
                            ToU32(OrderTotal(old(conn.orderItems), orderId) - OrderTotal(conn.orderItems, orderId)))))
    ensures r.Ok? ==>
      && authorized && OrderTakesRefunds(conn.orders, orderId)
      && Refunds(old(StateOf(conn)), StateOf(conn), items, orderId, conn.now)
      && Refundable(conn.orderItems) && OnlyRefunds(old(conn.orderItems), conn.orderItems, orderId)
      && TakesBack(old(conn.tickets), conn.tickets, old(conn.history), conn.history)
      && FreedByBuyers(old(conn.tickets), conn.tickets, old(conn.orderItems), conn.orders, conn.wallets)
      && OnlyRefundRows(old(conn.payments), conn.payments)
      && (forall p :: p in conn.payments ==> p in old(conn.payments) || p.orderId == orderId)
      && BroughtHome(conn.tickets, RefundedTickets(conn.tickets, conn.refundedTickets, RequestedTickets(items)), orgWallets,
                     old(ledger.owner), ledger.owner)
    ensures r.Ok? && Countable(old(conn.orderItems)) ==>
      && Countable(conn.orderItems)
      && BooksKept(old(conn.payments), old(conn.orderItems), conn.payments, conn.orderItems)
      && r.value.amountRefunded == OrderTotal(old(conn.orderItems), orderId) - OrderTotal(conn.orderItems, orderId)
    ensures Unfolded(saga, r.Ok?, orgWallets, old(ledger.calls), ledger.calls)
    ensures r.Err? && !AnyRefused(saga.home) && WalletsAgree(old(conn.tickets), RequestedTickets(items), old(ledger.owner)) ==>
      ledger.owner == old(ledger.owner)
    ensures processor.refunds == old(processor.refunds) + saga.paid
    ensures r.Ok? ==> |old(conn.payments)| <= |conn.payments| && saga.paid == CardRefunds(conn.payments[|old(conn.payments)|..])
    ensures r.Err? ==> conn.payments == old(conn.payments)
  {
    hide Countable, Refundable, OnlyRefunds, OnlyRefundRows, BooksKept, IsRefund, TotalReach, LoggedRows, OrderPayments, ToU32, TakesBack, FreedByBuyers,
      CanRefund, NowhereToGo, CanPayOut, Refunds, OneFeeEach, Unfolded, AreCalls, AnyRefused, CardRefunds, Rehoused, BroughtHome, GroupsOnly,
      GroupsAll, WalletsAgree, RefundedTickets, OrderTotal;
    saga := NOTHING_SENT;
    NothingUnfolded(orgWallets, ledger.calls);
    if orderId !in conn.orders {
      return Err(QueryError), saga;
    }
    var order := conn.orders[orderId];
    if order.status != Paid && order.status != PartiallyPaid {
      return Err(InternalError), saga;
    }
    if !authorized {
      return Err(ValidationError), saga;
    }
    ghost var start := StateOf(conn);
    var refund := RefundItems(conn, order, items);
    if refund.Err? {
      return Err(refund.error), saga;
    }
    var ids := RequestedTickets(items);
    var collected := CollectTransfers(conn, ids);
    if collected.Err? {
      NowhereIfUnknown(conn.tickets, conn.refundedTickets, ids, orgWallets, onChain);
      return Err(collected.error), saga;
    }
    ghost var between := StateOf(conn);
    ghost var refunded := RefundedTickets(conn.tickets, conn.refundedTickets, ids);
    r, saga := TransferPayOrReturn(conn, ledger, processor, orderId, refund.value, collected.value, refunded, orgWallets, onChain);
    if r.Ok? {
      RefundedElsewhere(start, between, StateOf(conn), items, orderId, conn.now);
      PaidOut(old(conn.payments), conn.payments, start.items, conn.orderItems, orderId, refund.value, conn.now);
      RehousingOnlyRehomes(between.tickets, conn.tickets, collected.value, collected.value.tokens.Keys, orgWallets, conn.now);
      RehomingTakesNothing(between.tickets, conn.tickets, conn.history);
      TakingBackTwice(start.tickets, between.tickets, conn.tickets, old(conn.history), conn.history, conn.history);
      RehomingFreesNothing(start.tickets, between.tickets, conn.tickets, start.items, conn.orders, conn.wallets);
      SameRefundedTickets(between.tickets, conn.tickets, conn.refundedTickets, ids);
    } else {
      if !(collected.value.tokens.Keys <= orgWallets.Keys && collected.value.tokens.Keys <= onChain) {
        AssetsAreOfTickets(collected.value, conn.tickets, conn.refundedTickets, ids, orgWallets, onChain);
      }
      if WalletsAgree(start.tickets, ids, old(ledger.owner)) {
        WalletsStillAgree(start.tickets, conn.tickets, conn.refundedTickets, ids, old(ledger.owner));
      }
    }
  }

  /** `Order::refund`, with what it leaves of the tables. */
  method RefundItems(conn: Connection, order: Order, items: seq<RefundItem>) returns (r: Result<u32>)
    requires Refundable(conn.orderItems)
    modifies conn`orderItems, conn`refundedTickets, conn`tickets, conn`history
    ensures r.Err? && OneFeeEach(old(conn.orderItems)) ==> NoWayToRefund(conn, old(StateOf(conn)), items, order.id)
    ensures r.Ok? ==>
      && r.value == ToU32(OrderTotal(old(conn.orderItems), order.id) - OrderTotal(conn.orderItems, order.id))
      && Refundable(conn.orderItems) && OnlyRefunds(old(conn.orderItems), conn.orderItems, order.id)
      && Refunds(old(StateOf(conn)), StateOf(conn), items, order.id, conn.now)
      && SameHomes(old(conn.tickets), conn.tickets)
      && TakesBack(old(conn.tickets), conn.tickets, old(conn.history), conn.history)
      && FreedByBuyers(old(conn.tickets), conn.tickets, old(conn.orderItems), conn.orders, conn.wallets)
  {
    hide Refundable, OnlyRefunds, IsRun, CanRefund, Refused, TakesBack, FreedByBuyers, OneFeeEach, OrderTotal;
    var refund, trace, fees, _ := Refund(conn, order, items);
    r := refund;
    if r.Ok? {
      RefundsLeaveWalletsAlone(trace, items, fees, order.id, conn.now, |items|);
      IsRefunded(old(StateOf(conn)), StateOf(conn), trace, items, fees, conn.tickets, order.id, conn.now);
    }
  }

  /** The transfers and the payout, and if they fail, the way back. `refunded` are the tickets grouped in `t`. */
  method TransferPayOrReturn(conn: Connection, ledger: TokenLedger, processor: PaymentProcessor, orderId: Id, refundDue: u32,
                             t: Transfers, ghost refunded: set<Id>, orgWallets: map<Id, Id>, onChain: set<Id>)
    returns (r: Result<RefundResponse>, ghost saga: Saga)
    requires GroupsOnly(t, conn.tickets, refunded) && GroupsAll(t, conn.tickets, refunded)
    modifies conn`tickets, conn`payments, ledger, processor
    ensures Unfolded(saga, r.Ok?, orgWallets, old(ledger.calls), ledger.calls)
    ensures processor.refunds == old(processor.refunds) + saga.paid
    ensures r.Ok? ==>
      var rows := OrderPayments(old(conn.payments), orderId);
      && CanPayOut(rows, refundDue) && r.value.amountRefunded == refundDue
      && conn.payments == old(conn.payments) + LoggedRows(refundDue, rows, rows, conn.now)
      && saga.paid == CardRefunds(LoggedRows(refundDue, rows, rows, conn.now))
      && t.tokens.Keys <= orgWallets.Keys && Rehoused(old(conn.tickets), conn.tickets, t, t.tokens.Keys, orgWallets, conn.now)
      && BroughtHome(conn.tickets, refunded, orgWallets, old(ledger.owner), ledger.owner)
    ensures r.Err? ==>
      && conn.tickets == old(conn.tickets) && conn.payments == old(conn.payments)
      && (|| AnyRefused(saga.out) || processor.declined != old(processor.declined)
          || !(t.tokens.Keys <= orgWallets.Keys && t.tokens.Keys <= onChain)
          || !CanPayOut(OrderPayments(conn.payments, orderId), refundDue))
    ensures r.Err? && !AnyRefused(saga.home) && WalletsAgree(conn.tickets, refunded, old(ledger.owner)) ==> ledger.owner == old(ledger.owner)
  {
    hide Relocated, WalletsAgree, LoggedRows, TotalReach, OrderPayments, CanPayOut, Unfolded, AreCalls, AnyRefused, CardRefunds, Rehoused,
      BroughtHome, GroupsOnly, GroupsAll, ListedByAsset, IsBreakdownOf;
    ghost var between := conn.tickets;
    GroupedAreListed(t, between, refunded);
    var modified;
    ghost var sent, paid;
    r, modified, sent, paid := TransferAndPay(conn, ledger, processor, orderId, refundDue, t, orgWallets, onChain);
    saga := Saga(t, modified, sent, {}, [], paid);
    if r.Ok? {
      SentAndPaid(saga, orgWallets, old(ledger.calls), ledger.calls);
      AllBroughtHome(between, conn.tickets, refunded, t, orgWallets, old(ledger.owner), ledger.owner, conn.now);
    } else {
      ghost var away, calls := ledger.owner, ledger.calls;
      var returned, back, home := Compensate(ledger, t, modified, onChain);
      saga := saga.(back := back, home := home);
      SentAndReturned(saga, orgWallets, old(ledger.calls), calls, ledger.calls);
      if returned.Err? {
        Stranded(saga, orgWallets, old(ledger.calls), ledger.calls);
        return Err(returned.error), saga;
      }
      if WalletsAgree(between, refunded, old(ledger.owner)) {
        AgreeingWalletsAreOnePerAsset(t, between, refunded, old(ledger.owner));
        CompensationRestores(t, old(ledger.owner), away, ledger.owner, modified, orgWallets);
      }
    }
  }

  /** What a payout of the amount due does to the payments, and to the books. */
  lemma PaidOut(payments: seq<Payment>, payments': seq<Payment>, items: map<Id, OrderItem>, items': map<Id, OrderItem>, orderId: Id,
                due: u32, now: Time)
    requires due == ToU32(OrderTotal(items, orderId) - OrderTotal(items', orderId)) && OnlyRefunds(items, items', orderId) && Refundable(items')
    requires CanPayOut(OrderPayments(payments, orderId), due)
    requires payments' == payments + LoggedRows(due, OrderPayments(payments, orderId), OrderPayments(payments, orderId), now)
    ensures OnlyRefundRows(payments, payments') && forall p :: p in payments' ==> p in payments || p.orderId == orderId
    ensures payments'[|payments|..] == LoggedRows(due, OrderPayments(payments, orderId), OrderPayments(payments, orderId), now)
    ensures Countable(items) ==>
      Countable(items') && BooksKept(payments, items, payments', items') && due == OrderTotal(items, orderId) - OrderTotal(items', orderId)
  {
    hide Countable, Refundable, OnlyRefunds, OnlyRefundRows, BooksKept, LoggedRows, OrderPayments, ToU32, TotalReach, OrderTotal;
    var rows := OrderPayments(payments, orderId);
    LoggedRowsAreRefunds(due, rows, rows, now);
    OrderPaymentsBelong(payments, orderId);
    LoggedRowsBelong(due, rows, rows, now, orderId);
    AppendingRefunds(payments, LoggedRows(due, rows, rows, now));
    if Countable(items) {
      RefundKeepsTheBooks(payments, items, items', orderId, due, now);
      RefundsKeepCountable(items, items', orderId);
    }
  }

  /** Tickets may go to other wallets afterwards. */
  lemma RefundedElsewhere(s: RefundState, between: RefundState, after: RefundState, lines: seq<RefundItem>, orderId: Id, now: Time)
    requires Refunds(s, between, lines, orderId, now) && after == between.(tickets := after.tickets)
    ensures Refunds(s, after, lines, orderId, now)
  {
    hide IsRefund;
    var trace, fees, tickets :| RefundsBy(s, between, trace, lines, fees, tickets, orderId, now);
    assert RefundsBy(s, after, trace, lines, fees, tickets, orderId, now);
  }

  lemma RehomingFreesNothing(before: seq<Ticket>, between: seq<Ticket>, after: seq<Ticket>, items: map<Id, OrderItem>, orders: map<Id, Order>,
                             wallets: map<Id, Option<Id>>)
    requires FreedByBuyers(before, between, items, orders, wallets) && OnlyRehomed(between, after)
    ensures FreedByBuyers(before, after, items, orders, wallets)
  {
    hide BuyerHasIt;
    forall i: Id | i < |after| && before[i].orderItemId.Some? && after[i].orderItemId.None? ensures BuyerHasIt(before[i], items, orders, wallets) {
      assert Rehomed(between[i], after[i]);
    }
  }

  lemma IsRefunded(s: RefundState, s': RefundState, trace: seq<RefundState>, lines: seq<RefundItem>, fees: seq<Option<Id>>,
                   tickets: seq<Ticket>, orderId: Id, now: Time)
    requires IsRefund(trace, lines, fees, s'.(tickets := tickets), orderId, now) && trace[0] == s
    ensures Refunds(s, s', lines, orderId, now)
  {
    hide IsRefund;
    assert RefundsBy(s, s', trace, lines, fees, tickets, orderId, now);
  }

  lemma NowhereIfUnknown(tickets: seq<Ticket>, records: seq<RefundedTicket>, ids: set<Id>, orgWallets: map<Id, Id>, onChain: set<Id>)
    ensures (exists record :: record in records && InRequest(record, ids) && record.ticketInstanceId >= |tickets|)
      ==> NowhereToGo(tickets, records, ids, orgWallets, onChain)
  {
  }

  lemma Stranded(saga: Saga, orgWallets: map<Id, Id>, calls: seq<Call>, calls': seq<Call>)
    requires Unfolded(saga, false, orgWallets, calls, calls') && saga.back != saga.gone
    ensures AnyRefused(saga.home)
  {
  }

  lemma GroupedAreListed(t: Transfers, tickets: seq<Ticket>, refunded: set<Id>)
    requires GroupsOnly(t, tickets, refunded)
    ensures Consistent(t) && ListedByAsset(t, tickets)
  {
  }

  lemma SameRefundedTickets(before: seq<Ticket>, after: seq<Ticket>, records: seq<RefundedTicket>, ids: set<Id>)
    requires |before| == |after|
    ensures RefundedTickets(before, records, ids) == RefundedTickets(after, records, ids)
  {
  }

  /** What a payout adds to the payments are refunds. */
  ghost predicate OnlyRefundRows(before: seq<Payment>, after: seq<Payment>) {
    && |before| <= |after| && after[..|before|] == before
    && forall p :: p in after[|before|..] ==> p.status == Refunded
  }

  lemma AppendingRefunds(before: seq<Payment>, rows: seq<Payment>)
    requires forall p :: p in rows ==> p.status == Refunded
    ensures OnlyRefundRows(before, before + rows)
  {
    assert (before + rows)[..|before|] == before;
    assert (before + rows)[|before|..] == rows;
  }

  lemma CountableIsRefundable(items: map<Id, OrderItem>)
    requires Countable(items)
    ensures Refundable(items)
  {
  }

  // ------------------------------------------------------------ requests as transactions

  datatype RefundRequest = RefundRequest(orderId: Id, items: seq<RefundItem>, authorized: bool)

  /** What holds between requests: nothing is pending, and refunds can be counted. */
  ghost predicate Idle(conn: Connection)
    reads conn
  {
    && conn.committed == conn.Snapshot() && conn.committedHistory == conn.history
    && Countable(conn.orderItems) && OrdersKeyed(conn.orders)
  }

  /** One request: commits what the handler did, or rolls all of it back. */
  method ServeRefund(conn: Connection, ledger: TokenLedger, processor: PaymentProcessor, request: RefundRequest,
                     orgWallets: map<Id, Id>, onChain: set<Id>)
    returns (r: Result<RefundResponse>, ghost saga: Saga)
    requires Idle(conn)
    modifies conn, ledger, processor
    ensures Idle(conn)
    ensures r.Err? ==> conn.Snapshot() == old(conn.Snapshot())
    ensures Unfolded(saga, r.Ok?, orgWallets, old(ledger.calls), ledger.calls)
    ensures r.Err? && !AnyRefused(saga.home) && WalletsAgree(old(conn.tickets), RequestedTickets(request.items), old(ledger.owner)) ==>
      ledger.owner == old(ledger.owner)
    ensures processor.refunds == old(processor.refunds) + saga.paid
    ensures r.Ok? ==> |old(conn.payments)| <= |conn.payments| && saga.paid == CardRefunds(conn.payments[|old(conn.payments)|..])
    ensures r.Ok? ==>
      r.value.amountRefunded == OrderTotal(old(conn.orderItems), request.orderId) - OrderTotal(conn.orderItems, request.orderId)
    ensures BooksKept(old(conn.payments), old(conn.orderItems), conn.payments, conn.orderItems)
  {
    hide Countable, OnlyRefunds, WalletsAgree, Books, Unfolded, AnyRefused, CardRefunds, BroughtHome;
    CountableIsRefundable(conn.orderItems);
    r, saga := HandleRefund(conn, ledger, processor, request.orderId, request.items, request.authorized, orgWallets, onChain);
    if r.Ok? {
      conn.CommitTransaction();
    } else {
      conn.RollbackTransaction();
    }
  }

  /** Over any sequence of refund requests, successful or not, the books of every order stay where they were. */
  method ServeRefunds(conn: Connection, ledger: TokenLedger, processor: PaymentProcessor, requests: seq<RefundRequest>,
                      orgWallets: map<Id, Id>, onChain: set<Id>)
    requires Idle(conn)
    modifies conn, ledger, processor
    ensures Idle(conn)
    ensures BooksKept(old(conn.payments), old(conn.orderItems), conn.payments, conn.orderItems)
  {
    for i := 0 to |requests|
      invariant Idle(conn)
      invariant BooksKept(old(conn.payments), old(conn.orderItems), conn.payments, conn.orderItems)
    {
      hide Countable, WalletsAgree, Books;
      var _, _ := ServeRefund(conn, ledger, processor, requests[i], orgWallets, onChain);
    }
  }
}
