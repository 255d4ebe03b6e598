/** What each kind of request does to the shop as a whole: carts, orders, payments, holds and capacity. */
module Requests {
  import opened Schema
  import opened Capacity
  import opened Cart
  import opened CartLines
  import opened CartSteps
  import opened Holds
  import opened Inventory
  import OptimisticLocking
  import opened OrderFees
  import opened OrderItems
  import opened OrderRefunds
  import opened OrderRows
  import opened Payouts
  import opened RaisedRows
  import opened RefundController
  import opened RefundSaga
  import opened RefundUnits
  import opened Sales
  import opened Sets
  import opened Sums
  import opened TicketInstances

  // ------------------------------------------------------------ what every request keeps

  /** Payments are taken on orders that are past draft. */
  ghost predicate PaymentsBelong(payments: seq<Payment>, orders: map<Id, Order>) {
    forall p :: p in payments ==> p.orderId in orders && orders[p.orderId].status in {PartiallyPaid, Paid}
  }

  ghost predicate ShopOk(w: World, holds: map<Id, Hold>, payments: seq<Payment>) {
    Inv(w) && HoldsOk(holds, w.tickets, w.nextId) && PaymentsBelong(payments, w.orders)
  }

  /** Orders are never deleted, and their statuses only move forward. */
  ghost predicate OrdersAdvance(before: map<Id, Order>, after: map<Id, Order>) {
    forall o :: o in before ==> o in after && Advances(before[o].status, after[o].status)
  }

  lemma AdvancingTwice(a: map<Id, Order>, b: map<Id, Order>, c: map<Id, Order>)
    requires OrdersAdvance(a, b) && OrdersAdvance(b, c)
    ensures OrdersAdvance(a, c)
  {
  }

  lemma AdvancingKeepsPayments(payments: seq<Payment>, before: map<Id, Order>, after: map<Id, Order>)
    requires PaymentsBelong(payments, before) && OrdersAdvance(before, after)
    ensures PaymentsBelong(payments, after)
  {
  }

  // ------------------------------------------------------------ what the history remembers of a request

  /** What a request may do to tickets that have been sold. */
  datatype Kind = ForCarts | ForRefunds | ForRedemptions | ForOthers

  /** The orders that were live, and have now been paid. */
  ghost function PaidInTime(before: map<Id, Order>, after: map<Id, Order>, now: Time): (orders: set<Id>) {
    set o | o in before && Live(before[o], now) && o in after && after[o].status == Paid
  }

  /** A ticket that was Purchased went back to the pool. */
  predicate IsRefundedLoss(before: seq<Ticket>, after: seq<Ticket>, loss: (Id, Id)) {
    && loss.1 < |before| && before[loss.1].orderItemId == Some(loss.0) && before[loss.1].status == Purchased
    && loss.1 < |after| && after[loss.1].orderItemId.None?
  }

  /**
    The losses put on record are those of sold tickets: in a cart update, redeemed ones whose reservation has run out; in
    a refund, purchased ones that went back to the pool; otherwise none.
   */
  ghost predicate LossesRemembered(w: World, after: World, kind: Kind) {
    && w.history.lost <= after.history.lost && SoldStay(w.tickets, after.tickets, after.history.lost)
    && forall loss :: loss in after.history.lost - w.history.lost ==>
       match kind
       case ForCarts => IsRedeemedLoss(w.tickets, loss, w.now)
       case ForRefunds => IsRefundedLoss(w.tickets, after.tickets, loss)
       case _ => false
  }

  /** Only redeeming redeems. */
  ghost predicate NobodyRedeems(before: seq<Ticket>, after: seq<Ticket>) {
    && |before| <= |after|
    && forall i: Id {:trigger after[i]} :: i < |after| && after[i].status == Redeemed ==> i < |before| && before[i].status == Redeemed
  }

  /** Shortages stay on record, and only items inserted by a cart update are short. */
  ghost predicate ShortagesRemembered(w: World, after: World, kind: Kind) {
    && w.nextId <= after.nextId
    && (forall k :: k in w.history.repriced ==> k in after.history.repriced && after.history.repriced[k] == w.history.repriced[k])
    && (forall k :: k in after.history.repriced && k !in w.history.repriced ==> kind.ForCarts? && w.nextId <= k < after.nextId)
  }

  /** Exactly the orders that were paid while live have been settled. */
  ghost predicate SalesRemembered(w: World, after: World) {
    after.history.settled == w.history.settled + PaidInTime(w.orders, after.orders, w.now)
  }

  ghost predicate Remembers(w: World, after: World, kind: Kind) {
    && SalesRemembered(w, after) && LossesRemembered(w, after, kind) && ShortagesRemembered(w, after, kind)
    && (kind.ForRedemptions? || NobodyRedeems(w.tickets, after.tickets))
  }

  /** A request that leaves the orders and the history as they were. */
  lemma NothingRemembered(w: World, after: World, kind: Kind)
    requires Inv(w) && after.orders == w.orders && after.history == w.history && w.nextId <= after.nextId
    requires SoldStay(w.tickets, after.tickets, {})
    requires kind.ForRedemptions? || NobodyRedeems(w.tickets, after.tickets)
    ensures Remembers(w, after, kind)
  {
    assert PaidInTime(w.orders, after.orders, w.now) == {};
    SoldStaysWithMore(w.tickets, after.tickets, {}, after.history.lost);
    hide Inv, SoldStay;
  }

  lemma SoldStaysWithMore(before: seq<Ticket>, after: seq<Ticket>, lost: set<(Id, Id)>, lost': set<(Id, Id)>)
    requires SoldStay(before, after, lost) && lost <= lost'
    ensures SoldStay(before, after, lost')
  {
  }

  lemma LittleIsRemembered(w: World, after: World)
    requires RecordsLittle(w, after)
    ensures LossesRemembered(w, after, ForCarts) && NobodyRedeems(w.tickets, after.tickets)
    ensures w.nextId <= after.nextId ==> ShortagesRemembered(w, after, ForCarts)
  {
  }

  lemma SamePlacesSameHolds(holds: map<Id, Hold>, before: seq<Ticket>, after: seq<Ticket>, nextId: Id, nextId': Id)
    requires HoldsOk(holds, before, nextId) && SamePlaces(before, after) && nextId <= nextId'
    ensures HoldsOk(holds, after, nextId')
  {
  }

  /** A step that leaves the paid orders alone leaves them covered. */
  lemma UndisturbedStaysCovered(w: World, after: World, payments: seq<Payment>, except: set<Id>)
    requires Undisturbed(w, after, except) && Covered(w.orders, payments, w.items)
    requires forall o :: o in after.orders && after.orders[o].status == Paid ==> o in w.orders && w.orders[o].status == Paid
    ensures Covered(after.orders, payments, after.items)
  {
    forall o | o in after.orders && after.orders[o].status == Paid ensures OrderTotal(after.items, o) == OrderTotal(w.items, o) {
      assert IsPastDraft(w, o);
      assert KeepsRows(w.items, after.items, o);
      SumOfSharedRows(w.items, after.items, Due(o));
    }
  }

  // ------------------------------------------------------------ carts

  lemma SkippingIdsIsSafe(w: World, nextId: Id)
    requires Inv(w) && w.nextId <= nextId
    ensures Inv(w.(nextId := nextId))
  {
    var after := w.(nextId := nextId);
    assert Frame(after);
    hide Frame;
    forall k | k in w.items && w.items[k].itemType == Tickets ensures ItemOk(after, k) {
      assert ItemOk(w, k);
    }
  }

  /** A new cart has no expiry and no items. */
  lemma InsertingCartIsSafe(w: World, row: Order)
    requires Inv(w) && row.id == w.nextId && row.status == Draft && row.expiresAt.None?
    ensures
      var after := w.(orders := w.orders[row.id := row], nextId := w.nextId + 1);
      Inv(after) && Undisturbed(w, after, {}) && row.id !in w.orders
  {
    var after := w.(orders := w.orders[row.id := row], nextId := w.nextId + 1);
    assert row.id !in w.orders;
    assert Frame(after) by {
      hide ItemOk;
    }
    hide Frame;
    forall k | k in w.items && w.items[k].itemType == Tickets ensures ItemOk(after, k) {
      assert ItemOk(w, k);
      FrameKeys(w, k);
    }
  }

  /** `find_cart_for_user`: the user's last cart, if it is theirs, still a draft and not expired. */
  predicate IsCartOf(conn: Connection, userId: Id, o: Id)
    reads conn
  {
    && userId in conn.users && conn.users[userId].lastCartId == Some(o)
    && o in conn.orders && conn.orders[o].userId == userId && conn.orders[o].status == Draft
    && (conn.orders[o].expiresAt.None? || conn.now <= conn.orders[o].expiresAt.value)
  }

  method FindCartForUser(conn: Connection, userId: Id) returns (cart: Option<Order>)
    requires Inv(WorldOf(conn))
    ensures cart.Some? ==>
      IsCartOf(conn, userId, cart.value.id) && IsCart(WorldOf(conn), cart.value) && cart.value.userId == userId
    ensures cart.None? ==> forall o :: !IsCartOf(conn, userId, o)
    ensures cart.Some? <==>
      && userId in conn.users && conn.users[userId].lastCartId.Some? && conn.users[userId].lastCartId.value in conn.orders
      && var order := conn.orders[conn.users[userId].lastCartId.value];
      && order.userId == userId && order.status == Draft && (order.expiresAt.Some? ==> conn.now <= order.expiresAt.value)
  {
    if userId in conn.users && conn.users[userId].lastCartId.Some? {
      var o := conn.users[userId].lastCartId.value;
      if IsCartOf(conn, userId, o) {
        OrderKeys(WorldOf(conn), o);
        return Some(conn.orders[o]);
      }
    }
    return None;
  }

  /** `find_or_create_cart`. */
  method FindOrCreateCart(conn: Connection, userId: Id) returns (r: Result<Order>)
    requires Inv(WorldOf(conn))
    modifies conn`orders, conn`users, conn`nextId
    ensures r.Ok? ==>
      && Inv(WorldOf(conn)) && Undisturbed(old(WorldOf(conn)), WorldOf(conn), {})
      && IsCart(WorldOf(conn), r.value) && r.value.userId == userId
      && conn.orders == old(conn.orders)[r.value.id := r.value]
      && (if r.value.id in old(conn.orders)
          then old(conn.orders)[r.value.id] == r.value && old(IsCartOf(conn, userId, r.value.id)) && conn.users == old(conn.users)
          else r.value == Order(old(conn.nextId), userId, Draft, None, 0, None, false)
               && conn.users == old(conn.users)[userId := User(Some(r.value.id), conn.now)])
    ensures r.Ok? <==> old(HasCart(conn, userId))
  {
    NothingChanged(WorldOf(conn), {});
    hide Inv, Undisturbed, IsCartOf;
    var found := FindCartForUser(conn, userId);
    if found.Some? {
      assert conn.orders[found.value.id := found.value] == conn.orders;
      return Ok(found.value);
    }
    forall o ensures !old(IsCartOf(conn, userId, o)) {
      assert !IsCartOf(conn, userId, o);
    }
    if userId !in conn.users || HasOpenCart(conn.orders, userId, conn.now) {
      return Err(if userId in conn.users then ConcurrencyError else QueryError);
    }
    var cart := Order(conn.nextId, userId, Draft, None, 0, None, false);
    InsertingCartIsSafe(WorldOf(conn), cart);
    conn.orders := conn.orders[cart.id := cart];
    conn.nextId := conn.nextId + 1;
    var _ := OptimisticLocking.UpdateLastCart(conn, userId, conn.users[userId], Some(cart.id));
    return Ok(cart);
  }

  /** A draft of the user's that has not expired, whether or not it is the last one they had. */
  predicate HasOpenCart(orders: map<Id, Order>, userId: Id, now: Time) {
    exists o :: o in orders && orders[o].userId == userId && orders[o].status == Draft
                && orders[o].expiresAt.Some? && now < orders[o].expiresAt.value
  }

  /** A line of the request asks for more tickets than a row of the user's cart has, at a price that has changed. */
  ghost predicate RaisesAtOtherPrice(w: World, users: map<Id, User>, pricings: map<(Id, bool), Pricing>, userId: Id,
                                     items: seq<UpdateOrderItem>, boxOfficePricing: bool) {
    exists k, i :: 0 <= i < |items| && IsRowOfCart(w, users, userId, k, boxOfficePricing)
                   && RaisesRow(items[i], w.items[k]) && !PriceHolds(pricings, boxOfficePricing, w.items[k])
  }

  /** A row of the user's last cart, which is still a draft and still sold the same way. */
  ghost predicate IsRowOfCart(w: World, users: map<Id, User>, userId: Id, k: Id, boxOfficePricing: bool) {
    && userId in users && IsLiveItem(w, k) && users[userId].lastCartId == Some(w.items[k].orderId)
    && w.orders[w.items[k].orderId].status == Draft && w.orders[w.items[k].orderId].boxOfficePricing == boxOfficePricing
  }

  /** The cart that an update of the user's is about: the last one while it is good, or else a new one. */
  ghost predicate IsCartFor(w: World, users: map<Id, User>, userId: Id, self: Order) {
    if self.id in w.orders
    then
      && userId in users && users[userId].lastCartId == Some(self.id) && w.orders[self.id] == self
      && self.userId == userId && self.status == Draft && (self.expiresAt.Some? ==> w.now <= self.expiresAt.value)
    else self == Order(self.id, userId, Draft, None, 0, None, false)
  }

  ghost predicate RaisesRow(line: UpdateOrderItem, row: OrderItem) {
    Some(line.ticketTypeId) == row.ticketTypeId && row.quantity < line.quantity
  }

  /** Every row of a cart that is still good was sold at the price in force. */
  ghost predicate CartsAtPrice(w: World, pricings: map<(Id, bool), Pricing>) {
    forall k :: IsLiveItem(w, k) && w.orders[w.items[k].orderId].status == Draft ==>
      PriceHolds(pricings, w.orders[w.items[k].orderId].boxOfficePricing, w.items[k])
  }

  /** The user has a current cart, or may have a new one. */
  ghost predicate HasCart(conn: Connection, userId: Id)
    reads conn
  {
    || (exists o :: IsCartOf(conn, userId, o))
    || (userId in conn.users
        && !exists o :: o in conn.orders && conn.orders[o].userId == userId && conn.orders[o].status == Draft
                        && conn.orders[o].expiresAt.Some? && conn.now < conn.orders[o].expiresAt.value)
  }

  /** The codes of the request are known, and all of its lines can be served. */
  ghost predicate CanServeLines(conn: Connection, items: seq<UpdateOrderItem>, wanted: seq<MappedLine>, rows: seq<OrderItem>,
                                cleared: seq<OrderItem>, boxOfficePricing: bool, removeOthers: bool)
    reads conn`holds, conn`orderItems, conn`tickets, conn`pricings, conn`now, conn`lockedRows, conn`refundedTickets
  {
    && CanMergeAll(conn, conn.orderItems, conn.tickets, [], cleared, false, true)
    && (forall i :: 0 <= i < |items| ==> !UnknownCode(items[i], conn.holds))
    && CanSell(conn, wanted, rows, cleared, boxOfficePricing, removeOthers)
  }

  /** What holds before the limits and the fees are looked at, as seen from the start of the request. */
  lemma DoneSinceTheStart(start: World, ready: World, done: World, self: Order, wanted: seq<MappedLine>, rows: seq<OrderItem>,
                          twins: seq<Option<Id>>, pricings: map<(Id, bool), Pricing>, boxOfficePricing: bool, removeOthers: bool)
    requires ready == start.(orders := start.orders[self.id := self], nextId := ready.nextId) && Undisturbed(start, ready, {})
    requires IsDone(ready, done, self, wanted, rows, twins, pricings, boxOfficePricing, removeOthers)
    ensures IsDone(start, done, self, wanted, rows, twins, pricings, boxOfficePricing, removeOthers)
  {
    hide Undisturbed, Inv, Lines, Pending, KeptLines, AreTwins;
    IdsGoUp(start, ready);
    UndisturbedTwice(start, ready, done, {}, ItemsOf(ready.items, self.id));
    assert {} + ItemsOf(ready.items, self.id) == ItemsOf(start.items, self.id);
    TwinsFromEarlier(start.history.repriced, done.history.repriced, done.items, ready.nextId, start.nextId, pricings, boxOfficePricing,
                     wanted, rows, twins);
  }

  /**
    What an update does to the row of the cart and to the user's last cart: the version is locked once, the expiry is a quarter
    of an hour ahead where there was none, or goes; a cart that was made becomes the user's last one. Other live carts and
    orders past draft are undisturbed.
   */
  ghost predicate CartUpdated(w: World, users: map<Id, User>, after: World, users': map<Id, User>, userId: Id, self: Order,
                              boxOfficePricing: bool) {
    && self.id in after.orders && after.orders == w.orders[self.id := after.orders[self.id]]
    && after.orders[self.id]
       == self.(version := self.version + 1, boxOfficePricing := boxOfficePricing, expiresAt := after.orders[self.id].expiresAt)
    && (after.orders[self.id].expiresAt == None
        || after.orders[self.id].expiresAt == if self.expiresAt.None? then Some(w.now + 15 * 60) else self.expiresAt)
    && users' == (if self.id in w.orders then users else users[userId := User(Some(self.id), w.now)])
    && Undisturbed(w, after, ItemsOf(w.items, self.id))
  }

  lemma UpdatesTheCart(start: World, users: map<Id, User>, ready: World, w: World, users': map<Id, User>, userId: Id, self: Order,
                       cart: Order, wanted: seq<MappedLine>, boxOfficePricing: bool, removeOthers: bool)
    requires Undisturbed(start, ready, {}) && ready == start.(orders := start.orders[self.id := self], nextId := ready.nextId)
    requires users' == (if self.id in start.orders then users else users[userId := User(Some(self.id), start.now)])
    requires Updated(ready, w, self, cart, wanted, boxOfficePricing, removeOthers)
    ensures CartUpdated(start, users, w, users', userId, self, boxOfficePricing)
    ensures w.orders[self.id].expiresAt == cart.expiresAt
  {
    UndisturbedTwice(start, ready, w, {}, ItemsOf(ready.items, self.id));
    assert {} + ItemsOf(ready.items, self.id) == ItemsOf(start.items, self.id);
    assert start.orders[self.id := self][self.id := cart] == start.orders[self.id := cart];
    hide Undisturbed;
  }

  /**
    The cart update. `self` is the cart as it was found or made, `wanted` the request with its holds, and `rows` are the
    rows of the cart as they were loaded. Each row that is raised at a price that has changed gets a twin, which is short by
    the quantity of that row; nothing else is sold short.
   */
  method HandleUpdateCart(conn: Connection, userId: Id, items: seq<UpdateOrderItem>, boxOfficePricing: bool, removeOthers: bool)
    returns (r: Result<()>, ghost self: Order, ghost wanted: seq<MappedLine>, ghost rows: seq<OrderItem>, ghost twins: seq<Option<Id>>,
             ghost cleared: seq<OrderItem>, ghost done: World)
    requires ShopOk(WorldOf(conn), conn.holds, conn.payments) && SchedulesAscend(conn.ticketTypes)
    modifies conn`orders, conn`orderItems, conn`tickets, conn`nextId, conn`history, conn`users
    ensures old(HasCart(conn, userId)) ==>
      IsCartFor(old(WorldOf(conn)), old(conn.users), userId, self) && AreCleared(cleared, old(conn.orderItems), self, boxOfficePricing)
    ensures old(HasCart(conn, userId)) && old(CanServeLines(conn, items, wanted, rows, cleared, boxOfficePricing, removeOthers)) ==>
      && IsMapping(items, wanted, conn.holds) && AreMerged(rows, old(conn.orderItems), self, boxOfficePricing)
      && IsDone(old(WorldOf(conn)), done, self, wanted, rows, twins, conn.pricings, boxOfficePricing, removeOthers)
    ensures r.Ok? <==>
      && old(HasCart(conn, userId)) && old(CanServeLines(conn, items, wanted, rows, cleared, boxOfficePricing, removeOthers))
      && CanFinish(conn, done, Opened(self, boxOfficePricing, conn.now), RaisedTypes(wanted, rows) + AddedTypes(TakenByAll(wanted, rows)))
    ensures r.Ok? ==>
      && ShopOk(WorldOf(conn), conn.holds, conn.payments)
      && OrdersAdvance(old(conn.orders), conn.orders)
      && (BooksOk(old(WorldOf(conn)), conn.payments) ==> BooksOk(WorldOf(conn), conn.payments))
      && SamePlaces(old(conn.tickets), conn.tickets)
      && Remembers(old(WorldOf(conn)), WorldOf(conn), ForCarts)
      && SoldAtPrice(old(conn.orderItems), conn.orderItems, TermsOf(conn), boxOfficePricing, self.id)
      && (CartsAtPrice(old(WorldOf(conn)), conn.pricings) ==> CartsAtPrice(WorldOf(conn), conn.pricings))
      && (forall o :: old(IsPastDraft(WorldOf(conn), o)) ==> KeepsRows(old(conn.orderItems), conn.orderItems, o))
    ensures r.Ok? ==>
      && IsCartFor(old(WorldOf(conn)), old(conn.users), userId, self)
      && CartUpdated(old(WorldOf(conn)), old(conn.users), WorldOf(conn), conn.users, userId, self, boxOfficePricing)
      && (conn.orders[self.id].expiresAt.None? <==> ItemsOf(done.items, self.id) == {})
      && (exists feeRows ::
            FeesUpdated(done.items, conn.orderItems, conn.nextId, feeRows, self.id, conn.ticketTypes, conn.holds, conn.events))
      && IsMapping(items, wanted, conn.holds) && AreMerged(rows, old(conn.orderItems), self, boxOfficePricing)
      && |twins| == |rows|
      && AreTwins(old(conn.history.repriced), conn.history.repriced, conn.orderItems, old(conn.nextId), conn.pricings, boxOfficePricing,
                  wanted, rows, twins)
      && (conn.history.repriced == old(conn.history.repriced) <==> NoneRepriced(conn.pricings, boxOfficePricing, wanted, rows))
      && Lines(conn.orderItems, self.id)
           == Pending(wanted) + KeptLines(conn.pricings, boxOfficePricing, wanted, rows, removeOthers)
    ensures r.Ok? && !RaisesAtOtherPrice(old(WorldOf(conn)), old(conn.users), conn.pricings, userId, items, boxOfficePricing) ==>
      conn.history.repriced == old(conn.history.repriced)
  {
    hide Inv, Undisturbed, HoldsOk, Updated, Lines, Pending, IsMapping, SchedulesAscend, Covered, PendingAmountsCount,
      PaymentsBelong, OrdersAdvance, SamePlaces, NoneRepriced, KeptLines, AreMerged, TakenByAll, RaisedTypes, AddedTypes, WithinLimit,
      FeesUpdated, SoldAtPrice, AllAtPrice, KeepsRows, Remembers, BooksOk, CartsAtPrice, RaisesAtOtherPrice, HasCart, CanMergeAll, CanSell,
      CanFinish, UnknownCode, IsDone, AreCleared, AreTwins, CartUpdated, ItemsOf, IsCart, Opened;
    ghost var start, users := WorldOf(conn), conn.users;
    self, wanted, rows, twins, cleared, done := Order(0, userId, Draft, None, 0, None, false), [], [], [], [], start;
    var cart := FindOrCreateCart(conn, userId);
    if cart.Err? {
      return Err(cart.error), self, wanted, rows, twins, cleared, done;
    }
    self := cart.value;
    ghost var ready := WorldOf(conn);
    var updated, after, wanted', rows', twins', cleared', done', _ := UpdateQuantities(conn, cart.value, items, boxOfficePricing, removeOthers);
    wanted, rows, twins, cleared, done := wanted', rows', twins', cleared', done';
    if old(CanServeLines(conn, items, wanted, rows, cleared, boxOfficePricing, removeOthers)) {
      DoneSinceTheStart(start, ready, done, self, wanted, rows, twins, conn.pricings, boxOfficePricing, removeOthers);
    }
    if updated.Err? {
      return updated, self, wanted, rows, twins, cleared, done;
    }
    IdsGoUp(start, ready);
    TwinsFromEarlier(start.history.repriced, conn.history.repriced, conn.orderItems, ready.nextId, start.nextId, conn.pricings,
                     boxOfficePricing, wanted, rows, twins);
    UpdatesTheCart(start, users, ready, WorldOf(conn), conn.users, userId, self, after, wanted, boxOfficePricing, removeOthers);
    CartUpdateIsServed(start, ready, WorldOf(conn), conn.holds, conn.payments, self, after, wanted, boxOfficePricing, removeOthers);
    CartUpdateKeepsPrices(start, ready, WorldOf(conn), self, after, wanted, TermsOf(conn), boxOfficePricing, removeOthers);
    if !NoneRepriced(conn.pricings, boxOfficePricing, wanted, rows) {
      RepricingRaises(conn, start, users, userId, self, items, wanted, rows, boxOfficePricing);
    }
    return Ok(()), self, wanted, rows, twins, cleared, done;
  }

  lemma IdsGoUp(w: World, after: World)
    requires Undisturbed(w, after, {})
    ensures w.nextId <= after.nextId
  {
  }

  lemma CartUpdateKeepsTheRest(start: World, ready: World, w: World, holds: map<Id, Hold>, payments: seq<Payment>, self: Order, cart: Order,
                               wanted: seq<MappedLine>, boxOfficePricing: bool, removeOthers: bool)
    requires HoldsOk(holds, start.tickets, start.nextId) && PaymentsBelong(payments, start.orders)
    requires Undisturbed(start, ready, {}) && ready.orders == start.orders[self.id := self]
    requires self.id in start.orders ==> start.orders[self.id] == self
    requires IsCart(ready, self) && Updated(ready, w, self, cart, wanted, boxOfficePricing, removeOthers)
    ensures HoldsOk(holds, w.tickets, w.nextId) && PaymentsBelong(payments, w.orders)
    ensures OrdersAdvance(start.orders, w.orders) && SamePlaces(start.tickets, w.tickets)
    ensures Covered(start.orders, payments, start.items) ==> Covered(w.orders, payments, w.items)
    ensures forall o :: IsPastDraft(start, o) ==> KeepsRows(start.items, w.items, o)
  {
    UndisturbedTwice(start, ready, w, {}, ItemsOf(ready.items, self.id));
    hide KeepsItem, KeepsRows, HoldsOk;
    assert SamePlaces(start.tickets, w.tickets) && start.nextId <= w.nextId;
    SamePlacesSameHolds(holds, start.tickets, w.tickets, start.nextId, w.nextId);
    if Covered(start.orders, payments, start.items) {
      UndisturbedStaysCovered(start, w, payments, {} + ItemsOf(ready.items, self.id));
    }
    assert OrdersAdvance(ready.orders, w.orders);
    AdvancingTwice(start.orders, ready.orders, w.orders);
    AdvancingKeepsPayments(payments, start.orders, w.orders);
  }

  lemma CartUpdateIsRemembered(start: World, ready: World, w: World, self: Order, cart: Order, wanted: seq<MappedLine>,
                               boxOfficePricing: bool, removeOthers: bool)
    requires Undisturbed(start, ready, {}) && ready.orders == start.orders[self.id := self]
    requires self.id in start.orders ==> start.orders[self.id] == self
    requires IsCart(ready, self) && Updated(ready, w, self, cart, wanted, boxOfficePricing, removeOthers)
    requires w.history.settled == start.history.settled
    ensures Remembers(start, w, ForCarts)
  {
    UndisturbedTwice(start, ready, w, {}, ItemsOf(ready.items, self.id));
    LittleIsRemembered(start, w);
    hide Undisturbed, RecordsLittle, LossesRemembered, NobodyRedeems, ShortagesRemembered;
    assert PaidInTime(start.orders, w.orders, start.now) == {};
  }

  lemma CartUpdateIsServed(start: World, ready: World, w: World, holds: map<Id, Hold>, payments: seq<Payment>, self: Order, cart: Order,
                           wanted: seq<MappedLine>, boxOfficePricing: bool, removeOthers: bool)
    requires ShopOk(start, holds, payments) && Inv(w) && Undisturbed(start, ready, {}) && ready.orders == start.orders[self.id := self]
    requires self.id in start.orders ==> start.orders[self.id] == self
    requires IsCart(ready, self) && Updated(ready, w, self, cart, wanted, boxOfficePricing, removeOthers)
    requires w.history.settled == start.history.settled
    ensures ShopOk(w, holds, payments) && OrdersAdvance(start.orders, w.orders) && SamePlaces(start.tickets, w.tickets)
    ensures BooksOk(start, payments) ==> BooksOk(w, payments)
    ensures forall o :: IsPastDraft(start, o) ==> KeepsRows(start.items, w.items, o)
    ensures Remembers(start, w, ForCarts)
  {
    hide Inv, Undisturbed, HoldsOk, PaymentsBelong, Updated, OrdersAdvance, SamePlaces, KeepsRows, Remembers, Covered, PendingAmountsCount;
    CartUpdateKeepsTheRest(start, ready, w, holds, payments, self, cart, wanted, boxOfficePricing, removeOthers);
    CartUpdateIsRemembered(start, ready, w, self, cart, wanted, boxOfficePricing, removeOthers);
  }

  /** Rows of other carts are the same, and those of this one are new or were there before. */
  lemma CartUpdateKeepsPrices(start: World, ready: World, w: World, self: Order, cart: Order, wanted: seq<MappedLine>,
                              terms: Terms, boxOfficePricing: bool, removeOthers: bool)
    requires Inv(start) && ready == start.(orders := start.orders[self.id := self], nextId := ready.nextId) && IsCart(ready, self)
    requires self.id in start.orders ==> start.orders[self.id] == self
    requires Updated(ready, w, self, cart, wanted, boxOfficePricing, removeOthers)
    requires SoldAtPrice(ready.items, w.items, terms, boxOfficePricing, self.id)
    requires boxOfficePricing != self.boxOfficePricing || AllAtPrice(ready.items, terms.pricings, boxOfficePricing, self.id)
      ==> AllAtPrice(w.items, terms.pricings, boxOfficePricing, self.id)
    ensures CartsAtPrice(start, terms.pricings) ==> CartsAtPrice(w, terms.pricings)
  {
    if CartsAtPrice(start, terms.pricings) {
      CartAtPrice(start, self, terms.pricings);
      hide Inv, KeepsItem, KeepsRows, NoMatch, RecordsLittle, SamePlaces;
      forall k | IsLiveItem(w, k) && w.orders[w.items[k].orderId].status == Draft
        ensures PriceHolds(terms.pricings, w.orders[w.items[k].orderId].boxOfficePricing, w.items[k])
      {
        if w.items[k].orderId != self.id {
          assert IsLiveItem(start, k);
        }
      }
    }
  }

  lemma CartAtPrice(w: World, self: Order, pricings: map<(Id, bool), Pricing>)
    requires Inv(w) && CartsAtPrice(w, pricings) && self.status == Draft && (self.expiresAt.Some? ==> w.now <= self.expiresAt.value)
    requires self.id in w.orders ==> w.orders[self.id] == self
    ensures AllAtPrice(w.items, pricings, self.boxOfficePricing, self.id)
  {
    forall k | k in w.items && w.items[k].itemType == Tickets && w.items[k].orderId == self.id
      ensures PriceHolds(pricings, self.boxOfficePricing, w.items[k])
    {
      assert IsLiveItem(w, k);
    }
  }

  /** A repriced row is a row of the cart that some line of the request raises. */
  lemma RepricingRaises(conn: Connection, start: World, users: map<Id, User>, userId: Id, self: Order, items: seq<UpdateOrderItem>,
                        wanted: seq<MappedLine>, rows: seq<OrderItem>, boxOfficePricing: bool)
    requires Inv(start) && AreMerged(rows, start.items, self, boxOfficePricing) && IsMapping(items, wanted, conn.holds)
    requires IsCartFor(start, users, userId, self)
    requires !NoneRepriced(conn.pricings, boxOfficePricing, wanted, rows)
    ensures RaisesAtOtherPrice(start, users, conn.pricings, userId, items, boxOfficePricing)
  {
    var j :| 0 <= j < |rows| && IsRepriced(conn.pricings, boxOfficePricing, TakenByAll(wanted, rows[..j]), rows[j]);
    var row, mapped := rows[j], TakenByAll(wanted, rows[..j]);
    TakenByAllOnlyTakes(wanted, rows[..j]);
    var i := MatchOf(mapped, row).value;
    assert row in rows && row.itemType == Tickets;
    RowIsStored(rows, start.items, self, row, boxOfficePricing);
    assert mapped[i].item == items[i];
    assert IsLiveItem(start, row.id) by { assert ItemsHaveOrders(start); }
    assert IsRowOfCart(start, users, userId, row.id, boxOfficePricing) && RaisesRow(items[i], start.items[row.id]);
  }

  lemma RowIsStored(rows: seq<OrderItem>, items: map<Id, OrderItem>, self: Order, row: OrderItem, boxOfficePricing: bool)
    requires AreMerged(rows, items, self, boxOfficePricing) && row in rows && row.itemType == Tickets
    ensures boxOfficePricing == self.boxOfficePricing && row.id in items && items[row.id] == row && row.orderId == self.id
  {
    assert row.id in Ids(rows);
  }

  lemma {:induction false} TakenByAllOnlyTakes(mapped: seq<MappedLine>, rows: seq<OrderItem>)
    ensures OnlyTaken(mapped, TakenByAll(mapped, rows))
  {
    if rows != [] {
      TakenByAllOnlyTakes(mapped, rows[..|rows| - 1]);
      TakenOnce(TakenByAll(mapped, rows[..|rows| - 1]), rows[|rows| - 1]);
      TakenTwice(mapped, TakenByAll(mapped, rows[..|rows| - 1]), TakenByAll(mapped, rows));
    }
  }

  // ------------------------------------------------------------ paying

  datatype CheckoutMethod = FreeCheckout | ExternalCheckout(reference: Option<string>, guest: Id) | CardCheckout(charge: string)

  /** The payment a checkout makes. A free one is an external payment of nothing; a card is authorized first. */
  function PaymentFor(orderId: Id, amount: int, how: CheckoutMethod, now: Time): (p: Payment) {
    match how
    case FreeCheckout => Payment(orderId, Completed, External, 0, Some("Free Checkout"), now)
    case ExternalCheckout(reference, _) => Payment(orderId, Completed, External, amount, reference, now)
    case CardCheckout(charge) => Payment(orderId, Authorized, CreditCard, amount, Some(charge), now)
  }

  lemma PaymentKeepsTheRest(start: World, w: World, holds: map<Id, Hold>, payments: seq<Payment>, payments': seq<Payment>, o: Id,
                            wallets: map<Id, Option<Id>>, userId: Id)
    requires ShopOk(start, holds, payments) && Inv(w) && PaymentTaken(start, w, payments', o, wallets, userId)
    requires forall p :: p in payments' ==> p.orderId == o || p in payments
    ensures ShopOk(w, holds, payments') && OrdersAdvance(start.orders, w.orders) && SamePlaces(start.tickets, w.tickets)
  {
    assert SamePlaces(start.tickets, w.tickets) && start.nextId <= w.nextId;
    hide Inv, KeepsItem, KeepsRows, HoldsOk, SoldTo, SameLinks, SamePlaces, OrderTotal, TotalPaid;
    SamePlacesSameHolds(holds, start.tickets, w.tickets, start.nextId, w.nextId);
  }

  /** A payment settles exactly the order that it completes while it is live, and loses nobody a ticket. */
  lemma PaymentIsRemembered(w: World, after: World, payments: seq<Payment>, o: Id, wallets: map<Id, Option<Id>>, userId: Id)
    requires Inv(w) && PaymentTaken(w, after, payments, o, wallets, userId)
    ensures Remembers(w, after, ForOthers)
  {
    OrderKeys(w, o);
    assert RecordsLittle(w, after) && w.nextId <= after.nextId;
    LittleIsRemembered(w, after);
    hide Inv, Undisturbed, RecordsLittle, SameLinks, SoldTo, OrderTotal, TotalPaid;
    if OrderTotal(after.items, o) <= TotalPaid(payments, o) && Live(w.orders[o], w.now) {
      assert PaidInTime(w.orders, after.orders, w.now) == {o};
    } else {
      assert PaidInTime(w.orders, after.orders, w.now) == {};
    }
  }

  /** Only whether an order is live counts for what is remembered of it. */
  lemma RememberedFromBefore(start: World, w: World, after: World, o: Id)
    requires o in start.orders && o in w.orders && w == start.(orders := start.orders[o := w.orders[o]])
    requires Live(start.orders[o], start.now) <==> Live(w.orders[o], start.now)
    requires Remembers(w, after, ForOthers)
    ensures Remembers(start, after, ForOthers)
  {
    assert PaidInTime(start.orders, after.orders, start.now) == PaidInTime(w.orders, after.orders, w.now);
  }

  /** The order a checkout starts from: locked, so that no other request has a claim on this version of it. */
  method LockCart(conn: Connection, userId: Id) returns (r: Result<Order>)
    requires Inv(WorldOf(conn))
    modifies conn`orders
    ensures r.Ok? ==>
      && r.value.id in conn.orders && conn.orders[r.value.id] == r.value && r.value.status == Draft && r.value.userId == userId
      && Inv(WorldOf(conn)) && Undisturbed(old(WorldOf(conn)), WorldOf(conn), {})
      && r.value.id in old(conn.orders) && old(conn.orders)[r.value.id].status == Draft
      && old(IsCartOf(conn, userId, r.value.id)) && r.value == old(conn.orders)[r.value.id].(version := r.value.version)
      && r.value.version == old(conn.orders)[r.value.id].version + 1
      && conn.orders == old(conn.orders)[r.value.id := r.value]
    ensures r.Ok? <==> exists o :: old(IsCartOf(conn, userId, o))
    ensures r.Err? ==> unchanged(conn)
  {
    var cart := FindCartForUser(conn, userId);
    if cart.None? {
      forall o ensures !old(IsCartOf(conn, userId, o)) {
        assert !IsCartOf(conn, userId, o);
      }
      return Err(ValidationError);
    }
    hide Inv, Undisturbed;
    var _, locked := LockVersion(conn, cart.value);
    ReplacingOrderIsSafe(old(WorldOf(conn)), locked);
    return Ok(locked);
  }

  /** `set_behalf_of_user`, on a draft: locks the version once more. */
  method SetBehalfOfUser(conn: Connection, self: Order, guest: Id) returns (order: Order)
    requires Inv(WorldOf(conn)) && self.id in conn.orders && conn.orders[self.id] == self
    modifies conn`orders
    ensures order == self.(version := self.version + 1, onBehalfOfUserId := Some(guest))
    ensures conn.orders == old(conn.orders)[self.id := order]
    ensures Inv(WorldOf(conn)) && Undisturbed(old(WorldOf(conn)), WorldOf(conn), {})
  {
    hide Inv, Undisturbed;
    var _, locked := LockVersion(conn, self);
    order := locked.(onBehalfOfUserId := Some(guest));
    ReplacingOrderIsSafe(old(WorldOf(conn)), order);
    conn.orders := conn.orders[self.id := order];
  }

  lemma CheckoutKeepsTheRest(start: World, ready: World, between: World, w: World, holds: map<Id, Hold>, payments: seq<Payment>,
                             payment: Payment, o: Id, wallets: map<Id, Option<Id>>, userId: Id)
    requires ShopOk(start, holds, payments) && Undisturbed(start, ready, {}) && Inv(between)
    requires ready == between || Undisturbed(ready, between, {})
    requires o in start.orders && o in between.orders && start.orders[o].status == between.orders[o].status == Draft
    requires start.orders[o].expiresAt == between.orders[o].expiresAt
    requires between == start.(orders := start.orders[o := between.orders[o]])
    requires Inv(w) && PaymentTaken(between, w, payments + [payment], o, wallets, userId) && payment.orderId == o
    ensures ShopOk(w, holds, payments + [payment]) && OrdersAdvance(start.orders, w.orders) && SamePlaces(start.tickets, w.tickets)
    ensures BooksOk(start, payments) ==> BooksOk(between, payments)
    ensures Remembers(start, w, ForOthers)
  {
    hide Inv, Undisturbed, HoldsOk, PaymentTaken, Remembers, PaymentsBelong, Covered;
    if ready != between {
      UndisturbedStill(start, ready, between);
    }
    PaymentIsRemembered(between, w, payments + [payment], o, wallets, userId);
    RememberedFromBefore(start, between, w, o);
    if Covered(start.orders, payments, start.items) {
      UndisturbedStaysCovered(start, between, payments, {});
    }
    assert OrdersAdvance(start.orders, between.orders);
    AdvancingKeepsPayments(payments, start.orders, between.orders);
    PaymentKeepsTheRest(between, w, holds, payments, payments + [payment], o, wallets, userId);
    AdvancingTwice(start.orders, between.orders, w.orders);
  }

  /** Only what costs nothing is free; an external payment and a charge must be authorized. */
  predicate IsPrepared(how: CheckoutMethod, total: int, amount: int, authorized: bool) {
    match how
    case FreeCheckout => total <= 0
    case ExternalCheckout(_, _) => authorized
    case CardCheckout(_) => authorized && 0 <= amount
  }

  /** The user has a cart, with an expiry, the payment can be made, and the buyer has a wallet if it completes the order. */
  ghost predicate CanCheckout(conn: Connection, userId: Id, o: Id, amount: int, how: CheckoutMethod, authorized: bool)
    reads conn
  {
    && IsCartOf(conn, userId, o) && conn.orders[o].expiresAt.Some?
    && IsPrepared(how, OrderTotal(conn.orderItems, o), amount, authorized)
    && CanPay(conn.orders[o], conn.orderItems, conn.payments, conn.wallets, PaymentFor(o, amount, how, conn.now), conn.now)
  }

  /** What the kinds of checkout do before they pay. */
  method PrepareCheckout(conn: Connection, self: Order, amount: int, how: CheckoutMethod, authorized: bool) returns (r: Result<Order>)
    requires Inv(WorldOf(conn)) && self.id in conn.orders && conn.orders[self.id] == self
    modifies conn`orders
    ensures r.Ok? <==> IsPrepared(how, OrderTotal(conn.orderItems, self.id), amount, authorized)
    ensures r.Ok? ==>
      && r.value == (if how.ExternalCheckout? then self.(version := self.version + 1, onBehalfOfUserId := Some(how.guest)) else self)
      && conn.orders == old(conn.orders)[self.id := r.value]
      && Inv(WorldOf(conn)) && (WorldOf(conn) == old(WorldOf(conn)) || Undisturbed(old(WorldOf(conn)), WorldOf(conn), {}))
  {
    InvIsKeyed(WorldOf(conn));
    hide Inv, Undisturbed, OrderTotal;
    assert conn.orders[self.id := self] == conn.orders;
    match how {
      case FreeCheckout =>
        var total := CalculateTotal(conn, self.id);
        r := if total > 0 then Err(ValidationError) else Ok(self);
      case ExternalCheckout(_, guest) =>
        if !authorized {
          return Err(ValidationError);
        }
        var order := SetBehalfOfUser(conn, self, guest);
        r := Ok(order);
      case CardCheckout(_) =>
        r := if authorized && 0 <= amount then Ok(self) else Err(InternalError);
    }
  }

  /** The order as a checkout has it ready for payment. */
  function ReadyFor(order: Order, how: CheckoutMethod): (r: Order) {
    match how
    case ExternalCheckout(_, guest) => order.(version := order.version + 2, onBehalfOfUserId := Some(guest))
    case _ => order.(version := order.version + 1)
  }

  /** The order is not expired, the payment can be recorded, and the buyer has a wallet if it completes the order. */
  ghost predicate CanPay(order: Order, items: map<Id, OrderItem>, payments: seq<Payment>, wallets: map<Id, Option<Id>>, payment: Payment, now: Time) {
    && Live(order, now) && (payment.externalReference.Some? || payment.paymentMethod != External)
    && (OrderTotal(items, order.id) <= TotalPaid(payments + [payment], order.id) ==>
          ItemsOf(items, order.id) == {} || HasWallet(wallets, order.userId))
  }

  lemma PayingIgnoresTheVersion(order: Order, how: CheckoutMethod, items: map<Id, OrderItem>, payments: seq<Payment>,
                                wallets: map<Id, Option<Id>>, payment: Payment, now: Time)
    ensures CanPay(ReadyFor(order, how), items, payments, wallets, payment, now) <==> CanPay(order, items, payments, wallets, payment, now)
    ensures CanPay(order, items, payments, wallets, payment, now) ==> order.expiresAt.Some?
  {
  }

  /** A user has one cart at most. */
  lemma OneCart(conn: Connection, userId: Id, o: Id)
    requires IsCartOf(conn, userId, o)
    ensures forall other :: IsCartOf(conn, userId, other) ==> other == o
  {
  }

  /** Pays for an order made ready since `start`. */
  method PayFor(conn: Connection, order: Order, amount: int, how: CheckoutMethod, ghost start: World, ghost ready: World) returns (r: Result<Id>)
    requires ShopOk(start, conn.holds, conn.payments) && Undisturbed(start, ready, {}) && Inv(WorldOf(conn))
    requires ready == WorldOf(conn) || Undisturbed(ready, WorldOf(conn), {})
    requires order.id in start.orders && start.orders[order.id].status == Draft && order == ReadyFor(start.orders[order.id], how)
    requires WorldOf(conn) == start.(orders := start.orders[order.id := order])
    requires how.CardCheckout? ==> 0 <= amount
    modifies conn`orders, conn`tickets, conn`users, conn`history, conn`payments
    ensures r.Ok? <==>
      CanPay(order, conn.orderItems, old(conn.payments), conn.wallets, PaymentFor(order.id, amount, how, conn.now), conn.now)
    ensures r.Ok? ==>
      && ShopOk(WorldOf(conn), conn.holds, conn.payments)
      && OrdersAdvance(start.orders, conn.orders)
      && (BooksOk(start, old(conn.payments)) ==> BooksOk(WorldOf(conn), conn.payments))
      && Remembers(start, WorldOf(conn), ForOthers)
      && SamePlaces(start.tickets, conn.tickets)
      && r.value == |old(conn.payments)| && |conn.payments| == r.value + 1
      && conn.payments == old(conn.payments) + [conn.payments[r.value]] && conn.payments[r.value].orderId == order.id
      && CheckedOut(start, old(conn.users), WorldOf(conn), conn.users, conn.payments, r.value, amount, how)
  {
    hide Inv, Undisturbed, HoldsOk, BooksOk, PaymentsBelong, OrdersAdvance, SamePlaces, OrderTotal, TotalPaid, HasWallet,
      ItemsOf, SoldTo, SameLinks, Remembers, Forgotten;
    ghost var between, payments := WorldOf(conn), conn.payments;
    var payment := PaymentFor(order.id, amount, how, conn.now);
    r := AddPayment(conn, order, payment);
    if r.Ok? {
      CheckoutKeepsTheRest(start, ready, between, WorldOf(conn), conn.holds, payments, payment, order.id, conn.wallets, order.userId);
    }
  }

  /** No order but `o` changes, and no item; and `o` is no draft any more. */
  ghost predicate OnlyPaysFor(w: World, after: World, o: Id) {
    && after.items == w.items && after.now == w.now && (forall x :: x in after.orders && x != o ==> x in w.orders && after.orders[x] == w.orders[x])
    && o in after.orders && after.orders[o].status != Draft
  }

  lemma PayingKeepsPrices(w: World, after: World, o: Id, pricings: map<(Id, bool), Pricing>)
    requires OnlyPaysFor(w, after, o) && CartsAtPrice(w, pricings)
    ensures CartsAtPrice(after, pricings)
  {
    forall k | IsLiveItem(after, k) && after.orders[after.items[k].orderId].status == Draft
      ensures PriceHolds(pricings, after.orders[after.items[k].orderId].boxOfficePricing, after.items[k])
    {
      assert IsLiveItem(w, k);
    }
  }

  /** The order of the payment is paid for and no draft any more, and the payment's row is `paymentId`, which is new. */
  ghost predicate CheckedOut(w: World, users: map<Id, User>, after: World, users': map<Id, User>, payments: seq<Payment>, paymentId: Id,
                             amount: int, how: CheckoutMethod)
    requires paymentId < |payments|
  {
    var payment, o := payments[paymentId], payments[paymentId].orderId;
    && payment.updatedAt == w.now
    && (match how
        case FreeCheckout => payment.status == Completed && payment.paymentMethod == External && payment.amount == 0
        case ExternalCheckout(reference, _) =>
          && payment.status == Completed && payment.paymentMethod == External
          && payment.amount == amount && payment.externalReference == reference
        case CardCheckout(charge) =>
          && payment.status == Authorized && payment.paymentMethod == CreditCard
          && payment.amount == amount && payment.externalReference == Some(charge))
    && OnlyPaysFor(w, after, o) && o in w.orders
    && after.orders[o] == w.orders[o].(
         version := w.orders[o].version + (if how.ExternalCheckout? then 2 else 1),
         status := if OrderTotal(after.items, o) <= TotalPaid(payments, o) then Paid else PartiallyPaid,
         expiresAt := Some(w.now + 24 * 60 * 60),
         onBehalfOfUserId := if how.ExternalCheckout? then Some(how.guest) else w.orders[o].onBehalfOfUserId)
    && (if after.orders[o].status == Paid then Forgotten(users, users', o, w.now) else users' == users)
  }

  /**
    `checkout` up to the capture of a card. `authorized` says whether the processor accepts, which accepts no negative charge,
    or whether the user may take external payments. An external checkout locks the version twice, and puts the order on behalf
    of the guest.
   */
  method HandleCheckout(conn: Connection, userId: Id, amount: int, how: CheckoutMethod, authorized: bool) returns (r: Result<Id>)
    requires ShopOk(WorldOf(conn), conn.holds, conn.payments)
    modifies conn`orders, conn`tickets, conn`users, conn`history, conn`payments
    ensures r.Ok? <==> exists o :: old(CanCheckout(conn, userId, o, amount, how, authorized))
    ensures r.Ok? ==>
      && ShopOk(WorldOf(conn), conn.holds, conn.payments)
      && OrdersAdvance(old(conn.orders), conn.orders)
      && (BooksOk(old(WorldOf(conn)), old(conn.payments)) ==> BooksOk(WorldOf(conn), conn.payments))
      && Remembers(old(WorldOf(conn)), WorldOf(conn), ForOthers)
      && SamePlaces(old(conn.tickets), conn.tickets)
      && r.value == |old(conn.payments)| && |conn.payments| == r.value + 1
      && conn.payments == old(conn.payments) + [conn.payments[r.value]]
      && (var o := conn.payments[r.value].orderId; old(IsCartOf(conn, userId, o)))
      && CheckedOut(old(WorldOf(conn)), old(conn.users), WorldOf(conn), conn.users, conn.payments, r.value, amount, how)
  {
    hide Inv, Undisturbed, HoldsOk, BooksOk, PaymentsBelong, OrdersAdvance, SamePlaces, OrderTotal, TotalPaid, Remembers, HasWallet, ItemsOf,
      Forgotten, CheckedOut;
    ghost var start := WorldOf(conn);
    var locked := LockCart(conn, userId);
    if locked.Err? {
      return Err(locked.error);
    }
    forall o | old(CanCheckout(conn, userId, o, amount, how, authorized)) ensures o == locked.value.id {
    }
    ghost var ready := WorldOf(conn);
    var prepared := PrepareCheckout(conn, locked.value, amount, how, authorized);
    if prepared.Err? {
      return Err(prepared.error);
    }
    r := PayFor(conn, prepared.value, amount, how, start, ready);
    assert r.Ok? <==> old(CanCheckout(conn, userId, locked.value.id, amount, how, authorized));
  }

  // ------------------------------------------------------------ captures, redemptions and refunds

  /** A payment row as it was when it was inserted at `stamp`. */
  function AsInserted(payment: Payment, stamp: Time): (p: Payment) {
    payment.(status := Authorized, updatedAt := stamp)
  }

  /** The payment is there and not a refund, and if its order is covered with it, the buyer has a wallet for the tickets. */
  ghost predicate CanCapture(w: World, payments: seq<Payment>, wallets: map<Id, Option<Id>>, paymentId: Id, stamp: Time) {
    && paymentId < |payments| && payments[paymentId].status != Refunded
    && var o := payments[paymentId].orderId;
    && (OrderTotal(w.items, o) <= TotalPaid(Captured(payments, paymentId, AsInserted(payments[paymentId], stamp), w.now), o) ==>
          ItemsOf(w.items, o) == {} || (o in w.orders && HasWallet(wallets, w.orders[o].userId)))
  }

  /** The second half of a card checkout: `mark_complete`, on the payment row as it was inserted at `stamp`. */
  method HandleCapture(conn: Connection, paymentId: Id, stamp: Time) returns (r: Result<()>)
    requires ShopOk(WorldOf(conn), conn.holds, conn.payments)
    modifies conn`orders, conn`tickets, conn`users, conn`history, conn`payments
    ensures r.Ok? <==> CanCapture(old(WorldOf(conn)), old(conn.payments), conn.wallets, paymentId, stamp)
    ensures r.Ok? ==>
      && ShopOk(WorldOf(conn), conn.holds, conn.payments)
      && OrdersAdvance(old(conn.orders), conn.orders)
      && (BooksOk(old(WorldOf(conn)), old(conn.payments)) ==> BooksOk(WorldOf(conn), conn.payments))
      && Remembers(old(WorldOf(conn)), WorldOf(conn), ForOthers)
      && SamePlaces(old(conn.tickets), conn.tickets)
    ensures r.Ok? ==>
      && paymentId < |old(conn.payments)| && old(conn.payments)[paymentId].status != Refunded
      && conn.payments == Captured(old(conn.payments), paymentId, AsInserted(old(conn.payments)[paymentId], stamp), conn.now)
      && conn.payments ==
           (if old(conn.payments)[paymentId].updatedAt == stamp
            then old(conn.payments)[paymentId := old(conn.payments)[paymentId].(status := Completed, updatedAt := conn.now)]
            else old(conn.payments))
      && var o := old(conn.payments)[paymentId].orderId;
      && OnlyPaysFor(old(WorldOf(conn)), WorldOf(conn), o)
      && (if OrderTotal(conn.orderItems, o) <= TotalPaid(conn.payments, o)
          then conn.orders[o] == old(conn.orders)[o].(status := Paid) && Forgotten(old(conn.users), conn.users, o, conn.now)
          else conn.orders == old(conn.orders) && conn.users == old(conn.users))
  {
    if paymentId >= |conn.payments| || conn.payments[paymentId].status == Refunded {
      return Err(InternalError);
    }
    ghost var start, payments := WorldOf(conn), conn.payments;
    assert conn.payments[paymentId] in conn.payments;
    hide Inv, HoldsOk, BooksOk, OrdersAdvance, SamePlaces, OrderTotal, TotalPaid, HasWallet, ItemsOf, PaymentTaken, Remembers,
      Forgotten, ShopOk;
    var self := AsInserted(conn.payments[paymentId], stamp);
    r := MarkComplete(conn, paymentId, self);
    if r.Ok? {
      PaymentKeepsTheRest(start, WorldOf(conn), conn.holds, payments, conn.payments, self.orderId, conn.wallets, start.orders[self.orderId].userId);
      PaymentIsRemembered(start, WorldOf(conn), conn.payments, self.orderId, conn.wallets, start.orders[self.orderId].userId);
      TakenPaysFor(start, WorldOf(conn), conn.payments, self.orderId, conn.wallets, start.orders[self.orderId].userId);
    }
  }

  lemma TakenPaysFor(start: World, w: World, payments: seq<Payment>, o: Id, wallets: map<Id, Option<Id>>, userId: Id)
    requires PaymentTaken(start, w, payments, o, wallets, userId)
    ensures OnlyPaysFor(start, w, o)
    ensures OrderTotal(w.items, o) <= TotalPaid(payments, o) ==> w.orders[o].status == Paid
  {
  }

  lemma RedeemingIsSafe(w: World, after: World, i: Id)
    requires Inv(w) && i < |w.tickets| && w.tickets[i].status == Purchased
    requires after == w.(tickets := w.tickets[i := w.tickets[i].(status := Redeemed)])
    ensures Inv(after) && SamePlaces(w.tickets, after.tickets)
  {
    assert Frame(after) by {
      hide ItemOk, Structured, OneFeeEach;
    }
    forall k | k in w.items && w.items[k].itemType == Tickets ensures ItemOk(after, k) {
      assert ItemOk(w, k);
      FrameKeys(w, k);
      assert Linked(after.tickets, k) == Linked(w.tickets, k);
    }
    hide Frame, ItemOk;
  }

  lemma RedeemingSellsNothing(before: seq<Ticket>, after: seq<Ticket>, i: Id)
    requires i < |before| && before[i].status == Purchased && after == before[i := before[i].(status := Redeemed)]
    ensures SoldStay(before, after, {})
  {
  }

  method HandleRedeem(conn: Connection, ticketId: Id, keyMatches: bool) returns (r: Result<()>)
    requires ShopOk(WorldOf(conn), conn.holds, conn.payments)
    modifies conn`tickets
    ensures r.Ok? <==> ticketId < |old(conn.tickets)| && keyMatches && old(conn.tickets)[ticketId].status == Purchased
    ensures r.Ok? ==> conn.tickets == old(conn.tickets)[ticketId := old(conn.tickets)[ticketId].(status := Redeemed)]
    ensures r.Ok? ==>
      && ShopOk(WorldOf(conn), conn.holds, conn.payments) && SamePlaces(old(conn.tickets), conn.tickets)
      && Remembers(old(WorldOf(conn)), WorldOf(conn), ForRedemptions)
  {
    if ticketId >= |conn.tickets| || !keyMatches {
      return Err(ValidationError);
    }
    ghost var start := WorldOf(conn);
    var redeemed := RedeemTicket(conn, ticketId);
    if !redeemed {
      return Err(BusinessProcessError);
    }
    RedeemingIsSafe(start, WorldOf(conn), ticketId);
    RedeemingSellsNothing(start.tickets, conn.tickets, ticketId);
    NothingRemembered(start, WorldOf(conn), ForRedemptions);
    hide Inv, HoldsOk, SamePlaces, PaymentsBelong;
    SamePlacesSameHolds(conn.holds, start.tickets, conn.tickets, conn.nextId, conn.nextId);
    return Ok(());
  }

  lemma TakingBackKeepsItem(w: World, after: World, orderId: Id, k: Id)
    requires Frame(w) && after == w.(items := after.items, tickets := after.tickets, history := after.history)
    requires OnlyRefunds(w.items, after.items, orderId) && TakesBack(w.tickets, after.tickets, w.history, after.history)
    requires k in w.items && w.items[k].itemType == Tickets && ItemOk(w, k)
    ensures ItemOk(after, k)
  {
    FrameKeys(w, k);
    assert after.items[k] == w.items[k].(refundedQuantity := after.items[k].refundedQuantity);
    TakingBackUnlinks(w.tickets, after.tickets, w.history, after.history, k);
    hide Frame, OnlyRefunds, LostBy;
    if IsLiveItem(w, k) {
      assert Linked(after.tickets, k) == Linked(w.tickets, k);
    }
    if w.items[k].orderId in w.history.settled {
      SoldThenTakenBack(w.tickets, after.tickets, w.items[k], after.items[k], w.history, after.history);
    }
  }

  /** The tickets an item has no more are those it has lost; live items lose none, having none that are Purchased. */
  lemma TakingBackUnlinks(before: seq<Ticket>, after: seq<Ticket>, h: History, h': History, k: Id)
    requires TakesBack(before, after, h, h')
    ensures Linked(after, k) <= Linked(before, k)
    ensures LostBy(h', k) == LostBy(h, k) + (Linked(before, k) - Linked(after, k))
    ensures forall i :: i in Linked(before, k) - Linked(after, k) ==> before[i].status == Purchased
    ensures forall i :: i in Linked(after, k) ==> Rehomed(before[i], after[i])
  {
    forall i ensures i in LostBy(h', k) <==> i in LostBy(h, k) + (Linked(before, k) - Linked(after, k)) {
      if i in Linked(before, k) - Linked(after, k) {
        assert (k, i) in TakenBack(before, after);
      }
      if i in LostBy(h, k) {
        assert (k, i) in h'.lost;
      }
      if i in LostBy(h', k) {
        assert (k, i) in h'.lost;
      }
    }
  }

  lemma SoldThenTakenBack(before: seq<Ticket>, after: seq<Ticket>, item: OrderItem, item': OrderItem, h: History, h': History)
    requires Sold(before, item, h) && TakesBack(before, after, h, h')
    requires item' == item.(refundedQuantity := item'.refundedQuantity)
    ensures Sold(after, item', h')
  {
    TakingBackUnlinks(before, after, h, h', item.id);
    hide LostBy, TakesBack;
    var gone := Linked(before, item.id) - Linked(after, item.id);
    assert Short(h', item.id) == Short(h, item.id) by { ShortagesUntouched(before, after, h, h', item.id); }
    DisjointUnionSize(LostBy(h, item.id), gone);
    SubsetSize(Linked(after, item.id), Linked(before, item.id));
  }

  lemma ShortagesUntouched(before: seq<Ticket>, after: seq<Ticket>, h: History, h': History, k: Id)
    requires TakesBack(before, after, h, h')
    ensures Short(h', k) == Short(h, k)
  {
  }

  /** Refunds take tickets from the items they were sold to, where they are put on record, and from nobody else. */
  lemma TakingBackIsSafe(w: World, after: World, orderId: Id)
    requires Inv(w) && after == w.(items := after.items, tickets := after.tickets, history := after.history)
    requires OnlyRefunds(w.items, after.items, orderId) && TakesBack(w.tickets, after.tickets, w.history, after.history)
    ensures Inv(after) && SamePlaces(w.tickets, after.tickets) && Remembers(w, after, ForRefunds)
  {
    TakingBackKeepsFrame(w, after, orderId);
    TakingBackIsRemembered(w, after);
    forall k | k in after.items && after.items[k].itemType == Tickets ensures ItemOk(after, k) {
      assert after.items[k] == w.items[k].(refundedQuantity := after.items[k].refundedQuantity);
      TakingBackKeepsItem(w, after, orderId, k);
    }
    hide Frame, ItemOk, OnlyRefunds, Remembers, TakenBack;
  }

  lemma TakingBackIsRemembered(w: World, after: World)
    requires TakesBack(w.tickets, after.tickets, w.history, after.history)
    requires after.orders == w.orders && after.now == w.now && after.nextId == w.nextId
    ensures Remembers(w, after, ForRefunds)
  {
    assert PaidInTime(w.orders, after.orders, w.now) == {};
    assert SoldStay(w.tickets, after.tickets, after.history.lost) by {
      forall i: Id | i < |w.tickets| && IsSold(w.tickets[i])
        ensures (IsSold(after.tickets[i]) && after.tickets[i].orderItemId == w.tickets[i].orderItemId)
             || (w.tickets[i].orderItemId.value, i) in after.history.lost
      {
        var _ := after.tickets[i];
      }
    }
  }

  lemma TakingBackKeepsFrame(w: World, after: World, orderId: Id)
    requires Frame(w) && after == w.(items := after.items, tickets := after.tickets, history := after.history)
    requires OnlyRefunds(w.items, after.items, orderId) && TakesBack(w.tickets, after.tickets, w.history, after.history)
    ensures Frame(after)
  {
    assert after.items.Keys == w.items.Keys;
    forall k | k in after.items ensures after.items[k] == w.items[k].(refundedQuantity := after.items[k].refundedQuantity) {
    }
    hide OnlyRefunds;
    forall f, g, k | f in after.items && g in after.items && IsFeeOf(after.items[f], k) && IsFeeOf(after.items[g], k) ensures f == g {
      assert IsFeeOf(w.items[f], k) && IsFeeOf(w.items[g], k);
    }
    assert Structured(after.items, after.nextId) && OneFeeEach(after.items);
    hide Structured, OneFeeEach;
    ItemsAreOld(w);
  }

  /** Refunds lower totals, and what they pay back does not count against what was paid. */
  lemma RefundingStaysCovered(w: World, items: map<Id, OrderItem>, payments: seq<Payment>, payments': seq<Payment>, orderId: Id)
    requires BooksOk(w, payments) && OnlyRefunds(w.items, items, orderId) && OnlyRefundRows(payments, payments')
    requires NonNegativePrices(w.items)
    ensures BooksOk(w.(items := items), payments')
  {
    forall o ensures OrderTotal(items, o) <= OrderTotal(w.items, o) && TotalPaid(payments', o) == TotalPaid(payments, o) {
      if o == orderId {
        RefundsLowerTheTotal(w.items, items, o);
      } else {
        TotalOfAnotherOrder(w.items, items, orderId, o);
      }
      RefundRowsPayNothing(payments, payments', o);
    }
    assert payments' == payments + payments'[|payments|..];
  }

  lemma {:induction false} RefundRowsPayNothing(payments: seq<Payment>, payments': seq<Payment>, o: Id)
    requires OnlyRefundRows(payments, payments')
    ensures TotalPaid(payments', o) == TotalPaid(payments, o)
    decreases |payments'|
  {
    if |payments'| == |payments| {
      assert payments' == payments;
    } else {
      var front, last := payments'[..|payments'| - 1], payments'[|payments'| - 1];
      assert last == payments'[|payments|..][|payments'| - 1 - |payments|];
      assert front[..|payments|] == payments'[..|payments|];
      assert forall p :: p in front[|payments|..] ==> p in payments'[|payments|..];
      RefundRowsPayNothing(payments, front, o);
    }
  }

  /** Before anything is paid back, what the payout goes by is what has been paid. */
  lemma {:induction false} NetPaidIsPaid(payments: seq<Payment>, o: Id)
    requires forall p :: p in payments ==> p.status != Refunded
    ensures NetPaid(OrderPayments(payments, o)) == TotalPaid(payments, o)
  {
    if payments != [] {
      var front, last := payments[..|payments| - 1], payments[|payments| - 1];
      assert forall p :: p in front ==> p in payments;
      NetPaidIsPaid(front, o);
      assert payments == front + [last] && last in payments;
      OrderPaymentsOfAppend(front, [last], o);
      NetPaidOfAppend(OrderPayments(front, o), OrderPayments([last], o));
      PaidByOne(last, o);
    }
  }

  lemma PaidByOne(p: Payment, o: Id)
    requires p.status != Refunded
    ensures NetPaid(OrderPayments([p], o)) == if p.orderId == o && p.status == Completed then p.amount else 0
  {
    assert [p][..0] == [];
    assert OrderPayments([], o) == [];
    assert OrderPayments([p], o) == if p.orderId == o then [p] else [];
    assert NetPaid([]) == 0;
  }

  lemma RefundRowsBelong(payments: seq<Payment>, payments': seq<Payment>, orders: map<Id, Order>, orderId: Id)
    requires PaymentsBelong(payments, orders) && orderId in orders && orders[orderId].status in {PartiallyPaid, Paid}
    requires forall p :: p in payments' ==> p in payments || p.orderId == orderId
    ensures PaymentsBelong(payments', orders)
  {
  }

  /** The refund request. */
  method HandleRefundOrder(conn: Connection, ledger: TokenLedger, processor: PaymentProcessor, orderId: Id, items: seq<RefundItem>,
                           authorized: bool, orgWallets: map<Id, Id>, onChain: set<Id>)
    returns (r: Result<RefundResponse>, ghost saga: Saga)
    requires ShopOk(WorldOf(conn), conn.holds, conn.payments)
    modifies conn`orderItems, conn`refundedTickets, conn`tickets, conn`history, conn`payments, ledger, processor
    ensures r.Ok? ==>
      && Refunds(old(StateOf(conn)), StateOf(conn), items, orderId, conn.now)
      && ShopOk(WorldOf(conn), conn.holds, conn.payments)
      && (NonNegativePrices(old(conn.orderItems)) && BooksOk(old(WorldOf(conn)), old(conn.payments)) ==>
            BooksOk(WorldOf(conn), conn.payments))
      && Remembers(old(WorldOf(conn)), WorldOf(conn), ForRefunds)
      && SamePlaces(old(conn.tickets), conn.tickets)
      && OnlyRefunds(old(conn.orderItems), conn.orderItems, orderId)
      && OnlyRefundRows(old(conn.payments), conn.payments)
    ensures r.Err? ==>
      || !authorized || !OrderTakesRefunds(conn.orders, orderId) || NoWayToRefund(conn, old(StateOf(conn)), items, orderId)
      || (&& Refunds(old(StateOf(conn)), StateOf(conn), items, orderId, conn.now)
          && (|| NowhereToGo(conn.tickets, conn.refundedTickets, RequestedTickets(items), orgWallets, onChain)
              || AnyRefused(saga.out) || processor.declined != old(processor.declined)
              || !CanPayOut(OrderPayments(conn.payments, orderId),
                            ToU32(OrderTotal(old(conn.orderItems), orderId) - OrderTotal(conn.orderItems, orderId)))))
    ensures r.Ok? ==>
      && authorized && OrderTakesRefunds(conn.orders, orderId)
      && FreedByBuyers(old(conn.tickets), conn.tickets, old(conn.orderItems), conn.orders, conn.wallets)
      && BroughtHome(conn.tickets, RefundedTickets(conn.tickets, conn.refundedTickets, RequestedTickets(items)), orgWallets,
                     old(ledger.owner), ledger.owner)
      && |old(conn.payments)| <= |conn.payments| && saga.paid == CardRefunds(conn.payments[|old(conn.payments)|..])
    ensures r.Ok? && Countable(old(conn.orderItems)) ==>
      BooksKept(old(conn.payments), old(conn.orderItems), conn.payments, conn.orderItems)
    ensures processor.refunds == old(processor.refunds) + saga.paid
    ensures Unfolded(saga, r.Ok?, orgWallets, old(ledger.calls), ledger.calls)
  {
    ghost var start, payments := WorldOf(conn), conn.payments;
    InvIsStructured(start);
    StructuredIsKeyed(conn.orderItems, conn.nextId);
    InvOrdersKeyed(start);
    InvIsRefundable(start);
    hide Inv, HoldsOk, BooksOk, PaymentsBelong, SamePlaces, OnlyRefunds, TakesBack, OnlyRefundRows, NonNegativePrices, Structured,
      Remembers, Unfolded, BroughtHome, CardRefunds, AnyRefused, Refunds, NowhereToGo, CanPayOut, CanRefund, FreedByBuyers, Countable,
      BooksKept, NoWayToRefund, RefundedTickets, OneFeeEach, OrderTakesRefunds, Refundable, WalletsAgree, Keyed;
    var handled, saga' := HandleRefund(conn, ledger, processor, orderId, items, authorized, orgWallets, onChain);
    r, saga := handled, saga';
    if r.Ok? {
      RefundIsServed(start, WorldOf(conn), conn.holds, payments, conn.payments, orderId);
    }
  }

  lemma RefundIsServed(start: World, w: World, holds: map<Id, Hold>, payments: seq<Payment>, payments': seq<Payment>, orderId: Id)
    requires ShopOk(start, holds, payments) && w == start.(items := w.items, tickets := w.tickets, history := w.history)
    requires OnlyRefunds(start.items, w.items, orderId) && TakesBack(start.tickets, w.tickets, start.history, w.history)
    requires OnlyRefundRows(payments, payments') && OrderTakesRefunds(start.orders, orderId)
    requires forall p :: p in payments' ==> p in payments || p.orderId == orderId
    ensures ShopOk(w, holds, payments') && Remembers(start, w, ForRefunds) && SamePlaces(start.tickets, w.tickets)
    ensures NonNegativePrices(start.items) && BooksOk(start, payments) ==> BooksOk(w, payments')
  {
    hide Inv, HoldsOk, BooksOk, PaymentsBelong, SamePlaces, OnlyRefunds, TakesBack, OnlyRefundRows, NonNegativePrices, Remembers;
    TakingBackIsSafe(start, w, orderId);
    SamePlacesSameHolds(holds, start.tickets, w.tickets, w.nextId, w.nextId);
    RefundRowsBelong(payments, payments', w.orders, orderId);
    if NonNegativePrices(start.items) && BooksOk(start, payments) {
      RefundingStaysCovered(start, w.items, payments, payments', orderId);
      BooksIgnoreTickets(start.(items := w.items), w, payments');
    }
  }

  lemma InvIsRefundable(w: World)
    requires Inv(w)
    ensures Refundable(w.items) && OneFeeEach(w.items)
  {
  }

  lemma InvOrdersKeyed(w: World)
    requires Inv(w)
    ensures OrdersKeyed(w.orders)
  {
  }

  lemma BooksIgnoreTickets(w: World, after: World, payments: seq<Payment>)
    requires BooksOk(w, payments) && after.orders == w.orders && after.items == w.items
    ensures BooksOk(after, payments)
  {
  }

  // ------------------------------------------------------------ holds and capacity

  /** Unclaimed tickets went into, out of or between holds. */
  lemma RehousingKeepsTheShop(w: World, after: World, holds: map<Id, Hold>, holds': map<Id, Hold>, payments: seq<Payment>, moved: set<Id>,
                              from: Option<Id>, to: Option<Id>, t: Id)
    requires ShopOk(w, holds, payments) && w.nextId <= after.nextId && HoldsOk(holds', after.tickets, after.nextId)
    requires after == w.(tickets := after.tickets, nextId := after.nextId)
    requires Moved(w.tickets, after.tickets, moved, from, to, t, w.now) && AllUnclaimed(w.tickets, moved, w.now)
    ensures ShopOk(after, holds', payments) && SameNumbers(w.tickets, after.tickets) && Remembers(w, after, ForOthers)
  {
    NothingRemembered(w, after, ForOthers);
    var mid := w.(tickets := after.tickets);
    RehousingIsSafe(w, mid, moved, to);
    SkippingIdsIsSafe(mid, after.nextId);
    assert SameNumbers(w.tickets, after.tickets);
    hide Inv, HoldsOk, Moved, AllUnclaimed, SameNumbers, Remembers;
  }

  /** The tickets of every type keep their tokens. */
  ghost predicate SameNumbers(before: seq<Ticket>, after: seq<Ticket>) {
    && |after| == |before|
    && forall i: Id {:trigger after[i]} {:trigger before[i]} :: i < |after| ==>
       after[i].ticketTypeId == before[i].ticketTypeId && after[i].tokenId == before[i].tokenId
  }

  lemma SameNumbersSameNumbering(before: seq<Ticket>, after: seq<Ticket>, t: Id)
    requires SameNumbers(before, after) && Numbered(before, t)
    ensures Numbered(after, t)
  {
    assert Issued(after, t) == Issued(before, t);
  }

  datatype HoldRequest =
    | CreateHoldOf(eventId: Id, code: string, discountInCents: Option<u32>, holdType: HoldType, ticketTypeId: Id, quantity: u32)
    | CompForPerson(holdId: Id, code: string, quantity: u32)
    | SplitHold(holdId: Id, code: string, quantity: u32, discountInCents: Option<u32>, holdType: HoldType)
    | SetHoldQuantity(holdId: Id, quantity: u32)
    | DestroyHold(holdId: Id)

  /** Ticket movement is possible: enough unclaimed and unlocked tickets to fill the hold from, or in it to give back. */
  ghost predicate CanSetQuantity(conn: Connection, hold: Hold, quantity: u32)
    reads conn
  {
    var count := ToU32(|Housed(conn.tickets, Some(hold.id), hold.ticketTypeId)|);
    && quantity - count <= Supply(conn.tickets, TakeableWhere(hold.ticketTypeId, hold.parentHoldId, conn.now), conn.lockedRows)
    && count - quantity <= Supply(conn.tickets, LeavableWhere(hold, conn.now), conn.lockedRows)
  }

  /** The hold's tickets are as many as asked for, and went between it and its parent or the pool. */
  ghost predicate HasQuantity(before: seq<Ticket>, after: seq<Ticket>, hold: Hold, quantity: u32, now: Time) {
    var t, housed := hold.ticketTypeId, Housed(before, Some(hold.id), hold.ticketTypeId);
    && (|housed| < U32_SIZE ==> |Housed(after, Some(hold.id), t)| == quantity)
    && exists moved :: QuantitySet(before, after, hold, ToU32(|housed|), quantity, moved, now)
  }

  /** `hold` is new, and what it holds is `quantity` tickets that came from one place; no other ticket was written. */
  ghost predicate IsAdded(w: World, holds: map<Id, Hold>, after: World, holds': map<Id, Hold>, hold: Hold, quantity: u32, from: Option<Id>) {
    && hold.id !in holds && holds' == holds[hold.id := hold]
    && |Housed(after.tickets, Some(hold.id), hold.ticketTypeId)| == quantity
    && Moved(w.tickets, after.tickets, Housed(after.tickets, Some(hold.id), hold.ticketTypeId), from, Some(hold.id), hold.ticketTypeId, w.now)
  }

  ghost predicate CanChangeHold(conn: Connection, request: HoldRequest)
    reads conn
  {
    match request
    case CreateHoldOf(eventId, code, discountInCents, holdType, t, quantity) =>
      && CanCommit(conn, code, discountInCents.Some?, holdType, eventId, t)
      && quantity <= Supply(conn.tickets, TakeableWhere(t, None, conn.now), conn.lockedRows)
    case CompForPerson(holdId, code, quantity) =>
      && holdId in conn.holds && CanCommit(conn, code, false, Comp, conn.holds[holdId].eventId, conn.holds[holdId].ticketTypeId)
      && quantity <= Supply(conn.tickets, TakeableWhere(conn.holds[holdId].ticketTypeId, Some(holdId), conn.now), conn.lockedRows)
    case SplitHold(holdId, code, quantity, discountInCents, holdType) =>
      && holdId in conn.holds
      && CanCommit(conn, code, discountInCents.Some?, holdType, conn.holds[holdId].eventId, conn.holds[holdId].ticketTypeId)
      && quantity <= Supply(conn.tickets, TakeableWhere(conn.holds[holdId].ticketTypeId, Some(holdId), conn.now), conn.lockedRows)
    case SetHoldQuantity(holdId, quantity) => holdId in conn.holds && CanSetQuantity(conn, conn.holds[holdId], quantity)
    case DestroyHold(holdId) =>
      && holdId in conn.holds && |Housed(conn.tickets, Some(holdId), conn.holds[holdId].ticketTypeId)| < U32_SIZE
      && |Housed(conn.tickets, Some(holdId), conn.holds[holdId].ticketTypeId)|
           <= Supply(conn.tickets, LeavableWhere(conn.holds[holdId], conn.now), conn.lockedRows)
      && (forall h :: h in conn.holds ==> conn.holds[h].parentHoldId != Some(holdId))
      && (forall k :: k in conn.orderItems ==> conn.orderItems[k].holdId != Some(holdId))
  }

  /** What a change of holds makes of the holds and the tickets. */
  ghost predicate HoldChanged(w: World, holds: map<Id, Hold>, after: World, holds': map<Id, Hold>, request: HoldRequest) {
    match request
    case CreateHoldOf(eventId, code, discountInCents, holdType, t, quantity) =>
      exists hold: Hold ::
        && hold == Hold(hold.id, None, eventId, code, hold.discountInCents, holdType, t) && HasDiscount(hold, discountInCents)
        && IsAdded(w, holds, after, holds', hold, quantity, None)
    case CompForPerson(holdId, code, quantity) =>
      exists comp: Hold :: holdId in holds
        && comp == Hold(comp.id, Some(holdId), holds[holdId].eventId, code, None, Comp, holds[holdId].ticketTypeId)
        && IsAdded(w, holds, after, holds', comp, quantity, Some(holdId))
    case SplitHold(holdId, code, quantity, discountInCents, holdType) =>
      exists split: Hold :: holdId in holds
        && split == Hold(split.id, holds[holdId].parentHoldId, holds[holdId].eventId, code, split.discountInCents, holdType,
                         holds[holdId].ticketTypeId)
        && HasDiscount(split, discountInCents)
        && IsAdded(w, holds, after, holds', split, quantity, Some(holdId))
    case SetHoldQuantity(holdId, quantity) =>
      holdId in holds && holds' == holds && HasQuantity(w.tickets, after.tickets, holds[holdId], quantity, w.now)
    case DestroyHold(holdId) =>
      && holdId in holds && holds' == holds - {holdId}
      && var t := holds[holdId].ticketTypeId;
      && Moved(w.tickets, after.tickets, Housed(w.tickets, Some(holdId), t), Some(holdId), holds[holdId].parentHoldId, t, w.now)
  }

  method HandleSetQuantity(conn: Connection, hold: Hold, quantity: u32) returns (r: Result<()>)
    requires ShopOk(WorldOf(conn), conn.holds, conn.payments) && IsHold(conn, hold)
    modifies conn`tickets
    ensures r.Ok? <==> old(CanSetQuantity(conn, hold, quantity))
    ensures r.Ok? ==> HasQuantity(old(conn.tickets), conn.tickets, hold, quantity, conn.now)
    ensures r.Ok? ==>
      && ShopOk(WorldOf(conn), conn.holds, conn.payments) && SameNumbers(old(conn.tickets), conn.tickets)
      && Remembers(old(WorldOf(conn)), WorldOf(conn), ForOthers)
  {
    hide Inv, HoldsOk, Moved, AllUnclaimed, SameNumbers, Housed, Supply, TakeableWhere, LeavableWhere, PaymentsBelong, Remembers;
    ghost var start := WorldOf(conn);
    ghost var moved;
    r, moved := SetQuantity(conn, hold, quantity);
    if r.Ok? {
      ghost var count := ToU32(|Housed(start.tickets, Some(hold.id), hold.ticketTypeId)|);
      assert QuantitySet(start.tickets, conn.tickets, hold, count, quantity, moved, conn.now);
      if count <= quantity {
        RehousingKeepsTheShop(start, WorldOf(conn), conn.holds, conn.holds, conn.payments, moved, hold.parentHoldId, Some(hold.id), hold.ticketTypeId);
      } else {
        RehousingKeepsTheShop(start, WorldOf(conn), conn.holds, conn.holds, conn.payments, moved, Some(hold.id), hold.parentHoldId, hold.ticketTypeId);
      }
    }
  }

  lemma HoldKeys(holds: map<Id, Hold>, tickets: seq<Ticket>, nextId: Id, h: Id)
    requires HoldsOk(holds, tickets, nextId) && h in holds
    ensures holds[h].id == h
  {
  }

  lemma RememberedSinceSkipping(start: World, skipped: World, after: World)
    requires skipped == start.(nextId := skipped.nextId) && start.nextId <= skipped.nextId && Remembers(skipped, after, ForOthers)
    ensures Remembers(start, after, ForOthers)
  {
  }

  /** A new hold that is given its quantity. */
  lemma NewHoldIsFilled(w: World, holds: map<Id, Hold>, after: World, holds': map<Id, Hold>, hold: Hold, quantity: u32)
    requires hold.id !in holds && holds' == holds[hold.id := hold] && hold.parentHoldId.None?
    requires Housed(w.tickets, Some(hold.id), hold.ticketTypeId) == {}
    requires HasQuantity(w.tickets, after.tickets, hold, quantity, w.now)
    ensures IsAdded(w, holds, after, holds', hold, quantity, None)
  {
    var moved :| QuantitySet(w.tickets, after.tickets, hold, 0, quantity, moved, w.now);
    MovingRehouses(w.tickets, after.tickets, moved, None, Some(hold.id), hold.ticketTypeId, w.now);
    hide Moved;
  }

  /** An empty hold can be given as many tickets as can be taken. */
  lemma NewHoldCanBeFilled(conn: Connection, hold: Hold, quantity: u32)
    requires Housed(conn.tickets, Some(hold.id), hold.ticketTypeId) == {}
    ensures CanSetQuantity(conn, hold, quantity) <==>
      quantity <= Supply(conn.tickets, TakeableWhere(hold.ticketTypeId, hold.parentHoldId, conn.now), conn.lockedRows)
  {
  }

  method HandleCreateHold(conn: Connection, request: HoldRequest) returns (r: Result<()>)
    requires ShopOk(WorldOf(conn), conn.holds, conn.payments) && request.CreateHoldOf?
    modifies conn`holds, conn`nextId, conn`tickets
    ensures r.Ok? <==> old(CanChangeHold(conn, request))
    ensures r.Ok? ==> HoldChanged(old(WorldOf(conn)), old(conn.holds), WorldOf(conn), conn.holds, request)
    ensures r.Ok? ==>
      && ShopOk(WorldOf(conn), conn.holds, conn.payments) && SameNumbers(old(conn.tickets), conn.tickets)
      && Remembers(old(WorldOf(conn)), WorldOf(conn), ForOthers)
  {
    hide Inv, HoldsOk, SameNumbers, PaymentsBelong, Remembers, CanCommit, HasDiscount, HasQuantity, CanSetQuantity, Housed, Supply,
      TakeableWhere, IsAdded;
    ghost var start, holds := WorldOf(conn), conn.holds;
    var hold := CreateHold(conn, request.eventId, request.code, request.discountInCents, request.holdType, request.ticketTypeId);
    if hold.Err? {
      return Err(hold.error);
    }
    SkippingIdsIsSafe(start, conn.nextId);
    ghost var skipped := WorldOf(conn);
    assert start.(nextId := conn.nextId) == skipped;
    NewHoldCanBeFilled(conn, hold.value, request.quantity);
    r := HandleSetQuantity(conn, hold.value, request.quantity);
    if r.Ok? {
      NewHoldIsFilled(start, holds, WorldOf(conn), conn.holds, hold.value, request.quantity);
      RememberedSinceSkipping(start, skipped, WorldOf(conn));
    }
  }

  method HandleHold(conn: Connection, request: HoldRequest) returns (r: Result<()>)
    requires ShopOk(WorldOf(conn), conn.holds, conn.payments)
    modifies conn`holds, conn`nextId, conn`tickets
    ensures r.Ok? <==> old(CanChangeHold(conn, request))
    ensures r.Ok? ==> HoldChanged(old(WorldOf(conn)), old(conn.holds), WorldOf(conn), conn.holds, request)
    ensures r.Ok? ==>
      && ShopOk(WorldOf(conn), conn.holds, conn.payments) && SameNumbers(old(conn.tickets), conn.tickets)
      && Remembers(old(WorldOf(conn)), WorldOf(conn), ForOthers)
  {
    hide Inv, HoldsOk, Moved, AllUnclaimed, SameNumbers, Housed, PaymentsBelong, Remembers;
    ghost var start, holds := WorldOf(conn), conn.holds;
    if request.CreateHoldOf? {
      r := HandleCreateHold(conn, request);
    } else if request.holdId !in conn.holds {
      r := Err(QueryError);
    } else {
      var hold := conn.holds[request.holdId];
      HoldKeys(conn.holds, conn.tickets, conn.nextId, request.holdId);
      r := HandleHoldOf(conn, request, hold);
    }
  }

  method HandleHoldOf(conn: Connection, request: HoldRequest, hold: Hold) returns (r: Result<()>)
    requires ShopOk(WorldOf(conn), conn.holds, conn.payments) && IsHold(conn, hold) && !request.CreateHoldOf?
    requires request.holdId == hold.id
    modifies conn`holds, conn`nextId, conn`tickets
    ensures r.Ok? <==> old(CanChangeHold(conn, request))
    ensures r.Ok? ==> HoldChanged(old(WorldOf(conn)), old(conn.holds), WorldOf(conn), conn.holds, request)
    ensures r.Ok? ==>
      && ShopOk(WorldOf(conn), conn.holds, conn.payments) && SameNumbers(old(conn.tickets), conn.tickets)
      && Remembers(old(WorldOf(conn)), WorldOf(conn), ForOthers)
  {
    hide Inv, HoldsOk, Moved, AllUnclaimed, SameNumbers, Housed, PaymentsBelong, Remembers;
    ghost var start, holds := WorldOf(conn), conn.holds;
    match request {
      case CompForPerson(holdId, code, quantity) =>
        var comp, went := CreateCompForPerson(conn, holdId, code, quantity);
        if comp.Err? {
          return Err(comp.error);
        }
        RehousingKeepsTheShop(start, WorldOf(conn), holds, conn.holds, conn.payments, went, Some(holdId), Some(comp.value.id), hold.ticketTypeId);
        r := Ok(());
      case SplitHold(_, code, quantity, discountInCents, holdType) =>
        var split, went := Split(conn, hold, code, quantity, discountInCents, holdType);
        if split.Err? {
          return Err(split.error);
        }
        RehousingKeepsTheShop(start, WorldOf(conn), holds, conn.holds, conn.payments, went, Some(hold.id), Some(split.value.id), hold.ticketTypeId);
        r := Ok(());
      case SetHoldQuantity(_, quantity) =>
        r := HandleSetQuantity(conn, hold, quantity);
      case DestroyHold(_) =>
        var destroyed, went := Destroy(conn, hold);
        r := destroyed;
        if r.Ok? {
          RehousingKeepsTheShop(start, WorldOf(conn), holds, conn.holds, conn.payments, went, Some(hold.id), hold.parentHoldId, hold.ticketTypeId);
        }
    }
  }

  lemma StepKeepsRightHolds(holds: map<Id, Hold>, before: seq<Ticket>, after: seq<Ticket>, nextId: Id, t: Id, step: CapacityStep)
    requires HoldsOk(holds, before, nextId) && Stepped(before, after, t, step)
    ensures HoldsOk(holds, after, nextId)
  {
    if step.Issue? {
      assert forall i: Id :: |before| <= i < |after| ==> after[i] == step.rows[i - |before|];
    }
  }

  lemma SteppingSellsNothing(before: seq<Ticket>, after: seq<Ticket>, t: Id, step: CapacityStep)
    requires Stepped(before, after, t, step)
    ensures SoldStay(before, after, {}) && NobodyRedeems(before, after)
  {
    forall i: Id | i < |before| && IsSold(before[i]) ensures after[i] == before[i] {
    }
    if step.Issue? {
      assert forall i: Id :: |before| <= i < |after| ==> after[i] == step.rows[i - |before|];
    }
  }

  method HandleCapacity(conn: Connection, chain: AssetRegistry, t: Id, requested: u32, walletId: Id, onChain: set<Id>) returns (r: Result<()>)
    requires ShopOk(WorldOf(conn), conn.holds, conn.payments)
    modifies conn`tickets, chain
    ensures r.Ok? <==>
      CanUpdate(old(conn.tickets), conn.lockedRows, t, requested, onChain) && chain.refused == old(chain.refused)
    ensures r.Ok? && |Valid(old(conn.tickets), t)| < U32_SIZE ==> |Valid(conn.tickets, t)| == requested
    ensures r.Ok? ==> exists step :: Stepped(old(conn.tickets), conn.tickets, t, step)
    ensures r.Ok? ==>
      && ShopOk(WorldOf(conn), conn.holds, conn.payments)
      && Remembers(old(WorldOf(conn)), WorldOf(conn), ForOthers)
      && (TokensFit(old(conn.tickets), t, requested) ==> forall other :: Numbered(old(conn.tickets), other) ==> Numbered(conn.tickets, other))
  {
    hide Inv, HoldsOk, Stepped, Numbered, Valid, Issued, PaymentsBelong, TokensFit, Remembers, CanUpdate;
    ghost var start := WorldOf(conn);
    ghost var step;
    r, step := UpdateCapacity(conn, chain, t, requested, walletId, onChain);
    if r.Ok? {
      CapacityStepIsSafe(start, WorldOf(conn), t, step);
      StepKeepsRightHolds(conn.holds, start.tickets, conn.tickets, conn.nextId, t, step);
      SteppingSellsNothing(start.tickets, conn.tickets, t, step);
      NothingRemembered(start, WorldOf(conn), ForOthers);
    }
  }
}
