/**
  Requests as transactions (api/src/middleware/database_transaction.rs:30-58): each runs on the tables as last committed,
  and commits if it succeeds or is rolled back. Between requests time passes, prices change, and other transactions hold
  locks. What every request keeps holds over every run.
 */
module Runs {
  import opened Schema
  import opened Capacity
  import opened Cart
  import opened CartLines
  import opened Holds
  import opened Inventory
  import opened OrderFees
  import opened OrderItems
  import opened OrderRefunds
  import opened Payouts
  import opened RaisedRows
  import opened RefundController
  import opened RefundSaga
  import opened RefundUnits
  import opened Requests
  import opened Sales

  // ------------------------------------------------------------ serving requests

  datatype Request =
    | UpdateCart(userId: Id, items: seq<UpdateOrderItem>, boxOfficePricing: bool, removeOthers: bool)
    | Checkout(userId: Id, amount: int, how: CheckoutMethod, authorized: bool)
    | Capture(paymentId: Id, stamp: Time)
    | Redeem(ticketId: Id, keyMatches: bool)
    | RefundOrder(orderId: Id, refunds: seq<RefundItem>, authorized: bool)
    | ChangeHold(request: HoldRequest)
    | SetCapacity(ticketTypeId: Id, requested: u32, walletId: Id)

  /** What a request finds: the time, the prices in force, and what other transactions have locked. */
  datatype Moment = Moment(now: Time, pricings: map<(Id, bool), Pricing>, lockedRows: set<Id>)

  /** The world outside the database. */
  datatype Outside = Outside(ledger: TokenLedger, processor: PaymentProcessor, chain: AssetRegistry, orgWallets: map<Id, Id>, onChain: set<Id>)

  // ------------------------------------------------------------ what one request does

  function KindOf(request: Request): (kind: Kind) {
    match request
    case UpdateCart(_, _, _, _) => ForCarts
    case RefundOrder(_, _, _) => ForRefunds
    case Redeem(_, _) => ForRedemptions
    case _ => ForOthers
  }

  /** The part of the state that a run's conclusions are about. */
  datatype Shop = Shop(world: World, holds: map<Id, Hold>, payments: seq<Payment>, users: map<Id, User>, records: seq<RefundedTicket>)

  ghost function ShopOf(conn: Connection): (s: Shop)
    reads conn
  {
    Shop(WorldOf(conn), conn.holds, conn.payments, conn.users, conn.refundedTickets)
  }

  /** The tables that refunds write. */
  function RefundStateOf(s: Shop): (r: RefundState) {
    RefundState(s.world.items, s.world.tickets, s.records)
  }

  /** The shop as a request finds it. */
  function At(s: Shop, now: Time): (r: Shop) {
    s.(world := s.world.(now := now))
  }

  /** Payments are never deleted, and only a capture changes one that is there: it completes it. */
  ghost predicate PaymentsStand(before: seq<Payment>, after: seq<Payment>, request: Request) {
    && |before| <= |after|
    && forall i: nat {:trigger before[i]} {:trigger after[i]} :: i < |before| ==>
       || after[i] == before[i]
       || (request.Capture? && request.paymentId == i && before[i].status != Refunded && after[i] == Complete(before[i], after[i].updatedAt))
  }

  /** The request raises a row of a cart at a price that has changed. */
  ghost predicate MayReprice(s: Shop, request: Request, pricings: map<(Id, bool), Pricing>) {
    request.UpdateCart?
    && RaisesAtOtherPrice(s.world, s.users, pricings, request.userId, request.items, request.boxOfficePricing)
  }

  /**
    What a cart update makes of the cart: the lines asked for and those it keeps. `twins` are the rows put beside those of the cart, loaded as `rows`, that it raises at a
    price that has changed, and each is short by the quantity of the row it was put beside.
   */
  ghost predicate RaisesBeside(s: Shop, s': Shop, request: Request, pricings: map<(Id, bool), Pricing>, self: Order,
                               wanted: seq<MappedLine>, rows: seq<OrderItem>, twins: seq<Option<Id>>) {
    && request.UpdateCart? && IsCartFor(s.world, s.users, request.userId, self)
    && CartUpdated(s.world, s.users, s'.world, s'.users, request.userId, self, request.boxOfficePricing)
    && IsMapping(request.items, wanted, s.holds) && AreMerged(rows, s.world.items, self, request.boxOfficePricing)
    && |twins| == |rows|
    && AreTwins(s.world.history.repriced, s'.world.history.repriced, s'.world.items, s.world.nextId, pricings, request.boxOfficePricing,
                wanted, rows, twins)
    && Lines(s'.world.items, self.id)
       == Pending(wanted) + KeptLines(pricings, request.boxOfficePricing, wanted, rows, request.removeOthers)
  }

  ghost predicate ShortsExactly(s: Shop, s': Shop, request: Request, pricings: map<(Id, bool), Pricing>) {
    request.UpdateCart? ==> exists self, wanted, rows, twins :: RaisesBeside(s, s', request, pricings, self, wanted, rows, twins)
  }

  /** The request is a refund, and there is a negative price. */
  ghost predicate MeetsNegativePrice(s: Shop, request: Request) {
    request.RefundOrder? && !NonNegativePrices(s.world.items)
  }

  /** The request sets a capacity for which there are not enough tokens. */
  ghost predicate OutgrowsTokens(s: Shop, request: Request) {
    request.SetCapacity? && !TokensFit(s.world.tickets, request.ticketTypeId, request.requested)
  }

  /** Only a refund touches the records of refunded tickets, and it does with items and records what `Order::refund` does. */
  ghost predicate RefundsOnly(s: Shop, s': Shop, request: Request) {
    if request.RefundOrder?
    then Refunds(RefundStateOf(s), RefundStateOf(s'), request.refunds, request.orderId, s.world.now)
    else s'.records == s.records
  }

  /** Orders past draft keep their rows, of which a refund raises the refunded quantities. */
  ghost predicate RowsStand(w: World, after: World, request: Request) {
    if request.RefundOrder? then OnlyRefunds(w.items, after.items, request.orderId)
    else forall o :: IsPastDraft(w, o) ==> KeepsRows(w.items, after.items, o)
  }

  /** The user's last cart, which is a draft that has not expired. */
  ghost predicate IsLastCart(s: Shop, userId: Id, o: Id) {
    && userId in s.users && s.users[userId].lastCartId == Some(o)
    && o in s.world.orders && s.world.orders[o].userId == userId && s.world.orders[o].status == Draft
    && (s.world.orders[o].expiresAt.Some? ==> s.world.now <= s.world.orders[o].expiresAt.value)
  }

  /** The effect a request is for. Of carts and refunds, `ShortsExactly` and `RefundsOnly` say it. */
  ghost predicate Answers(s: Shop, s': Shop, request: Request) {
    match request
    case UpdateCart(_, _, _, _) => s' == s.(world := s'.world, users := s'.users)
    case Checkout(userId, amount, how, _) =>
      && |s'.payments| == |s.payments| + 1 && s'.payments == s.payments + [s'.payments[|s.payments|]]
      && IsLastCart(s, userId, s'.payments[|s.payments|].orderId)
      && CheckedOut(s.world, s.users, s'.world, s'.users, s'.payments, |s.payments|, amount, how)
    case Capture(paymentId, stamp) =>
      && paymentId < |s.payments|
      && s'.payments == Captured(s.payments, paymentId, AsInserted(s.payments[paymentId], stamp), s.world.now)
      && OnlyPaysFor(s.world, s'.world, s.payments[paymentId].orderId)
    case Redeem(ticketId, keyMatches) =>
      && ticketId < |s.world.tickets| && keyMatches && s.world.tickets[ticketId].status == Purchased
      && s' == s.(world := s.world.(tickets := s.world.tickets[ticketId := s.world.tickets[ticketId].(status := Redeemed)]))
    case RefundOrder(orderId, _, _) =>
      && s' == s.(world := s.world.(items := s'.world.items, tickets := s'.world.tickets, history := s'.world.history),
                  payments := s'.payments, records := s'.records)
    case ChangeHold(change) =>
      && s' == s.(world := s.world.(tickets := s'.world.tickets, nextId := s'.world.nextId), holds := s'.holds)
      && HoldChanged(s.world, s.holds, s'.world, s'.holds, change)
    case SetCapacity(t, requested, _) =>
      && s' == s.(world := s.world.(tickets := s'.world.tickets))
      && (|Valid(s.world.tickets, t)| < U32_SIZE ==> |Valid(s'.world.tickets, t)| == requested)
      && exists step :: Stepped(s.world.tickets, s'.world.tickets, t, step)
  }

  /** What a successful request makes of the shop it finds. */
  ghost predicate Evolves(s: Shop, s': Shop, request: Request, pricings: map<(Id, bool), Pricing>) {
    && s'.world.now == s.world.now
    && OrdersAdvance(s.world.orders, s'.world.orders) && RowsStand(s.world, s'.world, request)
    && PaymentsStand(s.payments, s'.payments, request)
    && Remembers(s.world, s'.world, KindOf(request))
    && ShortsExactly(s, s', request, pricings) && RefundsOnly(s, s', request)
    && (!MayReprice(s, request, pricings) ==> s'.world.history.repriced == s.world.history.repriced)
    && (CartsAtPrice(s.world, pricings) ==> CartsAtPrice(s'.world, pricings))
    && (!MeetsNegativePrice(s, request) && BooksOk(s.world, s.payments) ==> BooksOk(s'.world, s'.payments))
    && (!OutgrowsTokens(s, request) ==> NumberingKept(s.world.tickets, s'.world.tickets))
  }

  ghost predicate NumberingKept(before: seq<Ticket>, after: seq<Ticket>) {
    forall t :: Numbered(before, t) ==> Numbered(after, t)
  }

  /** A request that leaves orders, items and payments as they were. */
  lemma SameBooks(s: Shop, s': Shop, request: Request, pricings: map<(Id, bool), Pricing>)
    requires s'.world.orders == s.world.orders && s'.world.items == s.world.items && s'.payments == s.payments
    requires s'.world.now == s.world.now && s'.world.history == s.world.history && !request.RefundOrder? && s'.records == s.records
    requires Remembers(s.world, s'.world, KindOf(request))
    requires !request.UpdateCart? && (!OutgrowsTokens(s, request) ==> NumberingKept(s.world.tickets, s'.world.tickets))
    ensures Evolves(s, s', request, pricings)
  {
    hide Remembers, NumberingKept, OutgrowsTokens;
    assert CartsAtPrice(s.world, pricings) ==> CartsAtPrice(s'.world, pricings) by {
      if CartsAtPrice(s.world, pricings) {
        forall k | IsLiveItem(s'.world, k) && s'.world.orders[s'.world.items[k].orderId].status == Draft
          ensures PriceHolds(pricings, s'.world.orders[s'.world.items[k].orderId].boxOfficePricing, s'.world.items[k])
        {
          assert IsLiveItem(s.world, k);
        }
      }
    }
  }

  lemma SameNumbersKeepNumbering(before: seq<Ticket>, after: seq<Ticket>)
    requires SameNumbers(before, after)
    ensures NumberingKept(before, after)
  {
    forall t | Numbered(before, t) ensures Numbered(after, t) {
      SameNumbersSameNumbering(before, after, t);
    }
  }

  lemma SamePlacesKeepNumbering(before: seq<Ticket>, after: seq<Ticket>)
    requires SamePlaces(before, after)
    ensures NumberingKept(before, after)
  {
    SameNumbersKeepNumbering(before, after);
  }

  /** Taking a payment for one order. */
  lemma PayingEvolves(s: Shop, s': Shop, o: Id, request: Request, pricings: map<(Id, bool), Pricing>)
    requires OnlyPaysFor(s.world, s'.world, o) && SamePlaces(s.world.tickets, s'.world.tickets) && s'.records == s.records
    requires OrdersAdvance(s.world.orders, s'.world.orders) && PaymentsStand(s.payments, s'.payments, request)
    requires KindOf(request) == ForOthers && Remembers(s.world, s'.world, ForOthers)
    requires BooksOk(s.world, s.payments) ==> BooksOk(s'.world, s'.payments)
    ensures Evolves(s, s', request, pricings)
  {
    hide BooksOk, OrdersAdvance, SamePlaces, Numbered, NumberingKept, Remembers, PaymentsStand;
    SamePlacesKeepNumbering(s.world.tickets, s'.world.tickets);
    if CartsAtPrice(s.world, pricings) {
      PayingKeepsPrices(s.world, s'.world, o, pricings);
    }
    RemembersNoShortage(s.world, s'.world);
  }

  lemma RemembersNoShortage(w: World, after: World)
    requires Remembers(w, after, ForOthers)
    ensures after.history.repriced == w.history.repriced
  {
    assert after.history.repriced.Keys == w.history.repriced.Keys;
  }

  lemma RefundsEvolve(s: Shop, s': Shop, request: Request, pricings: map<(Id, bool), Pricing>)
    requires request.RefundOrder? && OnlyRefunds(s.world.items, s'.world.items, request.orderId) && RefundsOnly(s, s', request)
    requires s'.world.orders == s.world.orders && s'.world.now == s.world.now
    requires SamePlaces(s.world.tickets, s'.world.tickets) && PaymentsStand(s.payments, s'.payments, request)
    requires Remembers(s.world, s'.world, ForRefunds) && s'.world.history.repriced == s.world.history.repriced
    requires NonNegativePrices(s.world.items) && BooksOk(s.world, s.payments) ==> BooksOk(s'.world, s'.payments)
    ensures Evolves(s, s', request, pricings)
  {
    hide BooksOk, SamePlaces, Numbered, NumberingKept, Remembers, PaymentsStand, NonNegativePrices, RefundsOnly;
    SamePlacesKeepNumbering(s.world.tickets, s'.world.tickets);
    assert CartsAtPrice(s.world, pricings) ==> CartsAtPrice(s'.world, pricings) by {
      if CartsAtPrice(s.world, pricings) {
        forall k | IsLiveItem(s'.world, k) && s'.world.orders[s'.world.items[k].orderId].status == Draft
          ensures PriceHolds(pricings, s'.world.orders[s'.world.items[k].orderId].boxOfficePricing, s'.world.items[k])
        {
          assert s'.world.items[k] == s.world.items[k].(refundedQuantity := s'.world.items[k].refundedQuantity);
          assert IsLiveItem(s.world, k);
        }
      }
    }
  }

  lemma RefundRowsLetStand(before: seq<Payment>, after: seq<Payment>, request: Request)
    requires OnlyRefundRows(before, after)
    ensures PaymentsStand(before, after, request)
  {
    forall i | 0 <= i < |before| ensures after[i] == before[i] {
      assert after[i] == after[..|before|][i];
    }
  }

  lemma CartsAreLastCarts(conn: Connection, userId: Id)
    ensures forall o :: IsCartOf(conn, userId, o) ==> IsLastCart(ShopOf(conn), userId, o)
  {
  }

  lemma CheckedOutPays(w: World, users: map<Id, User>, after: World, users': map<Id, User>, payments: seq<Payment>, paymentId: Id, amount: int,
                       how: CheckoutMethod)
    requires paymentId < |payments| && CheckedOut(w, users, after, users', payments, paymentId, amount, how)
    ensures OnlyPaysFor(w, after, payments[paymentId].orderId) && payments[paymentId].orderId in w.orders
  {
  }

  /** A cart update, as a request. */
  method HandleCart(conn: Connection, request: Request) returns (r: Result<()>)
    requires ShopOk(WorldOf(conn), conn.holds, conn.payments) && SchedulesAscend(conn.ticketTypes) && request.UpdateCart?
    modifies conn`orders, conn`orderItems, conn`tickets, conn`nextId, conn`history, conn`users
    ensures r.Ok? ==>
      && ShopOk(WorldOf(conn), conn.holds, conn.payments) && Evolves(old(ShopOf(conn)), ShopOf(conn), request, conn.pricings)
      && Answers(old(ShopOf(conn)), ShopOf(conn), request)
  {
    hide ShopOk, BooksOk, OrdersAdvance, SchedulesAscend, SamePlaces, NumberingKept, Remembers, CartsAtPrice, RaisesAtOtherPrice, KeepsRows,
      Lines, Pending, KeptLines, NoneRepriced, IsMapping, AreMerged, IsCartFor, AreTwins, Evolves, CartUpdated, CanFinish, CanServeLines,
      SoldAtPrice, HasCart, IsDone, AreCleared, FeesUpdated;
    ghost var start := ShopOf(conn);
    var updated, self, wanted, rows, twins, _, _ :=
      HandleUpdateCart(conn, request.userId, request.items, request.boxOfficePricing, request.removeOthers);
    r := updated;
    if r.Ok? {
      assert RaisesBeside(start, ShopOf(conn), request, conn.pricings, self, wanted, rows, twins);
      SamePlacesKeepNumbering(start.world.tickets, conn.tickets);
      CartsEvolve(start, ShopOf(conn), request, conn.pricings);
    }
  }

  /** What a request needs that is neither a cart update nor a refund; the chain may refuse it nevertheless. */
  ghost predicate CanServe(conn: Connection, onChain: set<Id>, request: Request)
    requires !request.UpdateCart? && !request.RefundOrder?
    reads conn
  {
    match request
    case Checkout(userId, amount, how, authorized) => exists o :: CanCheckout(conn, userId, o, amount, how, authorized)
    case Capture(paymentId, stamp) => CanCapture(WorldOf(conn), conn.payments, conn.wallets, paymentId, stamp)
    case Redeem(ticketId, keyMatches) => ticketId < |conn.tickets| && keyMatches && conn.tickets[ticketId].status == Purchased
    case ChangeHold(change) => CanChangeHold(conn, change)
    case SetCapacity(t, requested, _) => CanUpdate(conn.tickets, conn.lockedRows, t, requested, onChain)
  }

  /** A request, whatever it is for. */
  method Handle(conn: Connection, outside: Outside, request: Request) returns (r: Result<()>)
    requires ShopOk(WorldOf(conn), conn.holds, conn.payments) && SchedulesAscend(conn.ticketTypes)
    modifies conn`orders, conn`orderItems, conn`tickets, conn`holds, conn`payments, conn`refundedTickets, conn`users, conn`nextId,
      conn`history, outside.ledger, outside.processor, outside.chain
    ensures r.Ok? ==>
      && ShopOk(WorldOf(conn), conn.holds, conn.payments) && Evolves(old(ShopOf(conn)), ShopOf(conn), request, conn.pricings)
      && Answers(old(ShopOf(conn)), ShopOf(conn), request)
    ensures !request.UpdateCart? && !request.RefundOrder? ==>
      (r.Ok? <==> old(CanServe(conn, outside.onChain, request)) && outside.chain.refused == old(outside.chain.refused))
  {
    hide ShopOk, BooksOk, OrdersAdvance, SchedulesAscend, SamePlaces, SameNumbers, Numbered, NumberingKept, Remembers, OnlyRefunds,
      NonNegativePrices, TokensFit, CartsAtPrice, RaisesAtOtherPrice, OnlyRefundRows, KeepsRows, Unfolded, OnlyPaysFor,
      Lines, Pending, KeptLines, NoneRepriced, IsMapping, AreMerged, Refunds, IsCartOf, IsCartFor, AreTwins, Evolves, OrderTotal, TotalPaid,
      CheckedOut, HoldChanged, Valid, Stepped, CanCapture, CanChangeHold, CanUpdate, CanFinish, CanServeLines, SoldAtPrice, IsLastCart, CanCheckout;
    ghost var start := ShopOf(conn);
    match request {
      case UpdateCart(_, _, _, _) =>
        r := HandleCart(conn, request);
      case Checkout(userId, amount, how, authorized) =>
        CartsAreLastCarts(conn, userId);
        var paid := HandleCheckout(conn, userId, amount, how, authorized);
        r := if paid.Ok? then Ok(()) else Err(paid.error);
        if paid.Ok? {
          CheckedOutPays(start.world, start.users, WorldOf(conn), conn.users, conn.payments, paid.value, amount, how);
          PayingEvolves(start, ShopOf(conn), conn.payments[paid.value].orderId, request, conn.pricings);
        }
      case Capture(paymentId, stamp) =>
        r := HandleCapture(conn, paymentId, stamp);
        if r.Ok? {
          PayingEvolves(start, ShopOf(conn), start.payments[paymentId].orderId, request, conn.pricings);
        }
      case Redeem(ticketId, keyMatches) =>
        r := HandleRedeem(conn, ticketId, keyMatches);
        if r.Ok? {
          SamePlacesKeepNumbering(start.world.tickets, conn.tickets);
          SameBooks(start, ShopOf(conn), request, conn.pricings);
        }
      case RefundOrder(orderId, refunds, authorized) =>
        var refunded, _ := HandleRefundOrder(conn, outside.ledger, outside.processor, orderId, refunds, authorized,
                                             outside.orgWallets, outside.onChain);
        r := if refunded.Ok? then Ok(()) else Err(refunded.error);
        if r.Ok? {
          RefundRowsLetStand(start.payments, conn.payments, request);
          RefundsShortenNothing(start.world, WorldOf(conn));
          RefundsEvolve(start, ShopOf(conn), request, conn.pricings);
        }
      case ChangeHold(change) =>
        r := HandleHold(conn, change);
        if r.Ok? {
          SameNumbersKeepNumbering(start.world.tickets, conn.tickets);
          SameBooks(start, ShopOf(conn), request, conn.pricings);
        }
      case SetCapacity(ticketTypeId, requested, walletId) =>
        r := HandleCapacity(conn, outside.chain, ticketTypeId, requested, walletId, outside.onChain);
        if r.Ok? {
          NumberingIsKept(start.world.tickets, conn.tickets);
          SameBooks(start, ShopOf(conn), request, conn.pricings);
        }
    }
  }

  lemma RefundsShortenNothing(w: World, after: World)
    requires Remembers(w, after, ForRefunds)
    ensures after.history.repriced == w.history.repriced
  {
    assert after.history.repriced.Keys == w.history.repriced.Keys;
  }

  lemma NumberingIsKept(before: seq<Ticket>, after: seq<Ticket>)
    ensures NumberingKept(before, after) <==> forall t :: Numbered(before, t) ==> Numbered(after, t)
  {
  }

  lemma CartsEvolve(s: Shop, s': Shop, request: Request, pricings: map<(Id, bool), Pricing>)
    requires request.UpdateCart? && s'.payments == s.payments && s'.world.now == s.world.now && s'.records == s.records
    requires OrdersAdvance(s.world.orders, s'.world.orders) && Remembers(s.world, s'.world, ForCarts)
    requires forall o :: IsPastDraft(s.world, o) ==> KeepsRows(s.world.items, s'.world.items, o)
    requires !MayReprice(s, request, pricings) ==> s'.world.history.repriced == s.world.history.repriced
    requires CartsAtPrice(s.world, pricings) ==> CartsAtPrice(s'.world, pricings)
    requires BooksOk(s.world, s.payments) ==> BooksOk(s'.world, s.payments)
    requires NumberingKept(s.world.tickets, s'.world.tickets) && ShortsExactly(s, s', request, pricings)
    ensures Evolves(s, s', request, pricings)
  {
    hide OrdersAdvance, Remembers, KeepsRows, MayReprice, ShortsExactly, CartsAtPrice, BooksOk, NumberingKept;
  }

  // ------------------------------------------------------------ serving requests

  /** Reservations only lapse as time goes by. */
  lemma WaitingIsSafe(w: World, now: Time)
    requires Inv(w) && w.now <= now
    ensures Inv(w.(now := now))
  {
    var after := w.(now := now);
    assert Frame(after);
    hide Frame;
    forall k | k in w.items && w.items[k].itemType == Tickets ensures ItemOk(after, k) {
      assert ItemOk(w, k);
    }
  }

  /** Between requests nothing is pending, and what every request keeps holds. */
  ghost predicate Steady(conn: Connection)
    reads conn
  {
    && conn.committed == conn.Snapshot() && conn.committedHistory == conn.history
    && ShopOk(WorldOf(conn), conn.holds, conn.payments)
  }

  /** One request in one transaction: it does what it does, or nothing. */
  method Serve(conn: Connection, outside: Outside, request: Request, moment: Moment) returns (r: Result<()>)
    requires Steady(conn) && SchedulesAscend(conn.ticketTypes) && conn.now <= moment.now
    modifies conn, outside.ledger, outside.processor, outside.chain
    ensures Steady(conn) && conn.now == moment.now
    ensures r.Ok? ==>
      && Evolves(At(old(ShopOf(conn)), moment.now), ShopOf(conn), request, moment.pricings)
      && Answers(At(old(ShopOf(conn)), moment.now), ShopOf(conn), request)
    ensures r.Err? ==> ShopOf(conn) == At(old(ShopOf(conn)), moment.now) && conn.Snapshot() == old(conn.Snapshot())
  {
    hide Inv, HoldsOk, PaymentsBelong, Evolves, Answers, SchedulesAscend;
    WaitingIsSafe(WorldOf(conn), moment.now);
    conn.now, conn.pricings, conn.lockedRows := moment.now, moment.pricings, moment.lockedRows;
    assert ShopOf(conn) == At(old(ShopOf(conn)), moment.now);
    r := Handle(conn, outside, request);
    if r.Ok? {
      conn.CommitTransaction();
    } else {
      conn.RollbackTransaction();
    }
  }

  /** Time does not run backwards. */
  ghost predicate InOrder(now: Time, moments: seq<Moment>) {
    && (moments != [] ==> now <= moments[0].now)
    && forall i, j :: 0 <= i < j < |moments| ==> moments[i].now <= moments[j].now
  }

  lemma NextMoment(now: Time, moments: seq<Moment>, i: nat)
    requires InOrder(now, moments) && i < |moments|
    ensures (if i == 0 then now else moments[i - 1].now) <= moments[i].now
  {
  }

  /** The request succeeded, or nothing has changed but the time. */
  ghost predicate Served(s: Shop, s': Shop, request: Request, moment: Moment) {
    || s' == At(s, moment.now)
    || (Evolves(At(s, moment.now), s', request, moment.pricings) && Answers(At(s, moment.now), s', request))
  }

  /** The shop before the first request, and after each of them. */
  ghost predicate IsRunOf(trace: seq<Shop>, requests: seq<Request>, moments: seq<Moment>) {
    && |trace| == |requests| + 1 && |moments| == |requests|
    && (forall i :: 0 <= i < |trace| ==> ShopOk(trace[i].world, trace[i].holds, trace[i].payments))
    && (forall i :: 0 <= i < |requests| ==> Served(trace[i], trace[i + 1], requests[i], moments[i]))
  }

  lemma RunGoesOn(trace: seq<Shop>, requests: seq<Request>, moments: seq<Moment>, i: nat, s: Shop)
    requires i < |requests| == |moments| && IsRunOf(trace, requests[..i], moments[..i])
    requires Served(trace[i], s, requests[i], moments[i]) && ShopOk(s.world, s.holds, s.payments)
    ensures IsRunOf(trace + [s], requests[..i + 1], moments[..i + 1])
  {
    hide Served, ShopOk;
    var more := trace + [s];
    forall j | 0 <= j < i + 1 ensures Served(more[j], more[j + 1], requests[..i + 1][j], moments[..i + 1][j]) {
      if j < i {
        assert requests[..i][j] == requests[j] && moments[..i][j] == moments[j];
      }
    }
  }

  /** Any run of requests, with any delays between them: what every request keeps holds all along. `trace` is what happened. */
  method ServeAll(conn: Connection, outside: Outside, requests: seq<Request>, moments: seq<Moment>) returns (ghost trace: seq<Shop>)
    requires Steady(conn) && SchedulesAscend(conn.ticketTypes)
    requires |moments| == |requests| && InOrder(conn.now, moments)
    modifies conn, outside.ledger, outside.processor, outside.chain
    ensures Steady(conn)
    ensures IsRunOf(trace, requests, moments)
    ensures trace[0] == old(ShopOf(conn)) && trace[|requests|] == ShopOf(conn)
    ensures conn.now == if requests == [] then old(conn.now) else moments[|requests| - 1].now
  {
    hide Evolves, Answers, SchedulesAscend, IsRunOf, ShopOk;
    trace := [ShopOf(conn)];
    RunStarts(ShopOf(conn));
    for i := 0 to |requests|
      invariant Steady(conn) && |trace| == i + 1 && IsRunOf(trace, requests[..i], moments[..i])
      invariant trace[0] == old(ShopOf(conn)) && trace[i] == ShopOf(conn)
      invariant conn.now == if i == 0 then old(conn.now) else moments[i - 1].now
    {
      assert conn.now <= moments[i].now by { NextMoment(old(conn.now), moments, i); }
      var _ := Serve(conn, outside, requests[i], moments[i]);
      RunGoesOn(trace, requests, moments, i, ShopOf(conn));
      trace := trace + [ShopOf(conn)];
    }
    assert requests[..|requests|] == requests && moments[..|moments|] == moments;
  }

  lemma RunStarts(s: Shop)
    requires ShopOk(s.world, s.holds, s.payments)
    ensures IsRunOf([s], [], [])
  {
  }
}
