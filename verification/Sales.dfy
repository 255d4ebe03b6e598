/** Paying for an order (db/src/models/orders.rs:916-1079, db/src/models/payments.rs:83-122). */
module Sales {
  import opened Schema
  import opened CartLines
  import opened Inventory
  import OptimisticLocking
  import opened OrderItems
  import opened OrderRows
  import opened Sums
  import opened TicketInstances

  const ONE_DAY: Time := 24 * 60 * 60

  // ------------------------------------------------------------ amounts

  /** `total_paid`: completed payments only; refunds are rows of their own and do not count against it. */
  function TotalPaid(payments: seq<Payment>, orderId: Id): (cents: int) {
    if payments == [] then 0
    else
      var last := payments[|payments| - 1];
      TotalPaid(payments[..|payments| - 1], orderId)
        + if last.orderId == orderId && last.status == Completed then last.amount else 0
  }

  ghost function SeqDue(rows: seq<OrderItem>, orderId: Id): (cents: int) {
    if rows == [] then 0 else SeqDue(rows[..|rows| - 1], orderId) + Due(orderId)(rows[|rows| - 1])
  }

  lemma {:induction false} ListedTotal(rows: seq<OrderItem>, items: map<Id, OrderItem>, orderId: Id)
    requires IsListing(rows, items, orderId)
    ensures SeqDue(rows, orderId) == OrderTotal(items, orderId)
    decreases |rows|
  {
    if rows == [] {
      forall k | k in items ensures Due(orderId)(items[k]) == 0 {
        assert k !in ItemsOf(items, orderId);
      }
      SumZero(items, Due(orderId));
    } else {
      var last, front := rows[|rows| - 1], rows[..|rows| - 1];
      assert last in rows;
      FrontIsListing(rows, items, orderId);
      ListedTotal(front, items - {last.id}, orderId);
      SumSplit(items, Due(orderId), last.id);
    }
  }

  lemma RowsAreListed(rows: seq<OrderItem>, items: map<Id, OrderItem>, orderId: Id)
    requires AreRowsOf(rows, items, orderId)
    ensures IsListing(rows, items, orderId)
    ensures forall row :: row in rows ==> row.orderId == orderId
  {
    forall row | row in rows ensures row.orderId == orderId {
      assert row.id in Ids(rows);
    }
  }

  method CalculateTotal(conn: Connection, orderId: Id) returns (total: int)
    requires Keyed(conn.orderItems)
    ensures total == OrderTotal(conn.orderItems, orderId)
  {
    var orderItems := FindForOrder(conn, orderId);
    RowsAreListed(orderItems, conn.orderItems, orderId);
    hide OrderTotal, AreRowsOf;
    total := 0;
    for i := 0 to |orderItems|
      invariant total == SeqDue(orderItems[..i], orderId)
    {
      assert orderItems[..i + 1][..i] == orderItems[..i];
      var item := orderItems[i];
      assert item in orderItems;
      total := total + item.unitPriceInCents * (item.quantity - item.refundedQuantity);
    }
    assert orderItems[..|orderItems|] == orderItems;
    ListedTotal(orderItems, conn.orderItems, orderId);
  }

  /** Every order marked paid has been paid for. */
  ghost predicate Covered(orders: map<Id, Order>, payments: seq<Payment>, items: map<Id, OrderItem>) {
    forall o :: o in orders && orders[o].status == Paid ==> OrderTotal(items, o) <= TotalPaid(payments, o)
  }

  /** Draft, partially paid, paid: an order never goes back. */
  predicate Advances(before: OrderStatus, after: OrderStatus) {
    match before
    case Draft => after in {Draft, PartiallyPaid, Paid}
    case PartiallyPaid => after in {PartiallyPaid, Paid}
    case _ => after == before
  }

  // ------------------------------------------------------------ becoming partially paid

  predicate LinkedToAny(t: Ticket, ids: set<Id>) {
    t.orderItemId.Some? && t.orderItemId.value in ids
  }

  /** The tickets linked to `ids`, and no others, are reserved until `expiresAt`. */
  ghost predicate OrderExtended(before: seq<Ticket>, after: seq<Ticket>, ids: set<Id>, expiresAt: Time, now: Time) {
    && |after| == |before|
    && forall i: Id {:trigger after[i]} {:trigger before[i]} :: i < |after| ==>
       after[i] == if LinkedToAny(before[i], ids) then ExtendRow(expiresAt, now)(before[i]) else before[i]
  }

  method ExtendReservations(conn: Connection, rows: seq<OrderItem>, expiresAt: Time)
    modifies conn`tickets
    ensures OrderExtended(old(conn.tickets), conn.tickets, Ids(rows), expiresAt, conn.now)
  {
    ghost var start := conn.tickets;
    for i := 0 to |rows|
      invariant OrderExtended(start, conn.tickets, Ids(rows[..i]), expiresAt, conn.now)
    {
      assert rows[..i + 1] == rows[..i] + [rows[i]];
      assert Ids(rows[..i + 1]) == Ids(rows[..i]) + {rows[i].id};
      ghost var before := conn.tickets;
      UpdateReservedTime(conn, rows[i].id, expiresAt);
      ExtendedNext(start, before, conn.tickets, Ids(rows[..i]), rows[i].id, expiresAt, conn.now);
    }
    assert rows[..|rows|] == rows;
  }

  lemma ExtendedNext(start: seq<Ticket>, before: seq<Ticket>, after: seq<Ticket>, ids: set<Id>, k: Id, expiresAt: Time, now: Time)
    requires OrderExtended(start, before, ids, expiresAt, now)
    requires Rewritten(before, after, Linked(before, k), ExtendRow(expiresAt, now))
    ensures OrderExtended(start, after, ids + {k}, expiresAt, now)
  {
    forall i: Id | i < |after| ensures
      after[i] == if LinkedToAny(start[i], ids + {k}) then ExtendRow(expiresAt, now)(start[i]) else start[i]
    {
      assert before[i].orderItemId == start[i].orderItemId;
    }
  }

  lemma ExtendingKeepsLinks(before: seq<Ticket>, after: seq<Ticket>, ids: set<Id>, expiresAt: Time, now: Time, k: Id)
    requires OrderExtended(before, after, ids, expiresAt, now)
    ensures Linked(after, k) == Linked(before, k)
    ensures k !in ids ==> forall i :: i in Linked(before, k) ==> after[i] == before[i]
  {
  }

  /** A live order takes a new status and expiry, and its tickets follow. */
  lemma OpeningPaymentIsSafe(w: World, after: World, row: Order)
    requires Inv(w) && row.id in w.orders && Live(w.orders[row.id], w.now)
    requires row.status == PartiallyPaid && row.expiresAt.Some?
    requires after == w.(orders := w.orders[row.id := row], tickets := after.tickets)
    requires OrderExtended(w.tickets, after.tickets, ItemsOf(w.items, row.id), row.expiresAt.value, w.now)
    ensures Inv(after) && Undisturbed(w, after, ItemsOf(w.items, row.id))
  {
    OpeningKeepsFrame(w, after, row);
    assert row.id !in w.history.settled;
    hide Frame;
    forall k | k in w.items && w.items[k].itemType == Tickets
      ensures ItemOk(after, k)
      ensures IsLiveItem(w, k) && k !in ItemsOf(w.items, row.id) ==> KeepsItem(w, after, k) && IsLiveItem(after, k)
    {
      assert ItemOk(w, k);
      FrameKeys(w, k);
      ExtendingKeepsLinks(w.tickets, after.tickets, ItemsOf(w.items, row.id), row.expiresAt.value, w.now, k);
    }
    ExtendingRecordsNothing(w, after, row);
    hide ItemOk, OrderExtended, KeepsItem, RecordsLittle;
  }

  /** None of the order's tickets has been redeemed, since all of them are reserved. */
  lemma ExtendingRecordsNothing(w: World, after: World, row: Order)
    requires Inv(w) && row.id in w.orders && Live(w.orders[row.id], w.now) && row.expiresAt.Some?
    requires after == w.(orders := w.orders[row.id := row], tickets := after.tickets)
    requires OrderExtended(w.tickets, after.tickets, ItemsOf(w.items, row.id), row.expiresAt.value, w.now)
    ensures RecordsLittle(w, after) && SamePlaces(w.tickets, after.tickets)
  {
    forall i: Id | i < |w.tickets| && LinkedToAny(w.tickets[i], ItemsOf(w.items, row.id)) ensures w.tickets[i].status == Reserved {
      var k := w.tickets[i].orderItemId.value;
      assert w.items[k].itemType == Tickets && ItemOk(w, k);
      assert i in Linked(w.tickets, k);
    }
    hide Inv;
  }

  lemma OpeningKeepsFrame(w: World, after: World, row: Order)
    requires Frame(w) && row.id in w.orders && w.orders[row.id].status in {Draft, PartiallyPaid} && row.expiresAt.Some?
    requires after == w.(orders := w.orders[row.id := row], tickets := after.tickets)
    requires OrderExtended(w.tickets, after.tickets, ItemsOf(w.items, row.id), row.expiresAt.value, w.now)
    ensures Frame(after)
  {
    hide Structured, OneFeeEach;
  }

  /**
    `mark_partially_paid`: an unexpired order gets another day, together with its tickets, whatever its status. `paying` is
    the order as the caller goes on with it: its expiry is not refreshed.
   */
  method MarkPartiallyPaid(conn: Connection, self: Order) returns (r: Result<()>, paying: Order)
    requires Inv(WorldOf(conn)) && self.id in conn.orders
    modifies conn`orders, conn`tickets
    ensures
      var row := old(conn.orders)[self.id];
      && (r.Ok? <==> row.version == self.version && row.expiresAt.Some? && conn.now <= row.expiresAt.value)
      && (r.Err? ==>
            && unchanged(conn) && paying == self
            && r == Err(if row.version != self.version then ConcurrencyError else BusinessProcessError))
      && (r.Ok? ==>
            && paying == self.(status := PartiallyPaid)
            && conn.orders == old(conn.orders)[self.id := row.(status := PartiallyPaid, expiresAt := Some(conn.now + ONE_DAY))]
            && OrderExtended(old(conn.tickets), conn.tickets, ItemsOf(conn.orderItems, self.id), conn.now + ONE_DAY, conn.now))
      && (r.Ok? && row.status in {Draft, PartiallyPaid} ==>
            && Inv(WorldOf(conn)) && SameLinks(old(conn.tickets), conn.tickets)
            && Undisturbed(old(WorldOf(conn)), WorldOf(conn), ItemsOf(conn.orderItems, self.id)))
  {
    hide Inv, Undisturbed, OrderExtended, AreRowsOf, SameLinks;
    ghost var start := WorldOf(conn);
    paying := self;
    var row := conn.orders[self.id];
    if row.version != self.version {
      return Err(ConcurrencyError), paying;
    }
    if row.expiresAt.None? || row.expiresAt.value < conn.now {
      return Err(BusinessProcessError), paying;
    }
    InvIsKeyed(start);
    OrderKeys(start, self.id);
    var updated := row.(status := PartiallyPaid, expiresAt := Some(conn.now + ONE_DAY));
    conn.orders := conn.orders[self.id := updated];
    paying := self.(status := PartiallyPaid);
    var rows := FindForOrder(conn, self.id);
    assert Ids(rows) == ItemsOf(conn.orderItems, self.id) by { RowsAreListed(rows, conn.orderItems, self.id); }
    ExtendReservations(conn, rows, conn.now + ONE_DAY);
    if row.status in {Draft, PartiallyPaid} {
      OpeningPaymentIsSafe(start, WorldOf(conn), updated);
    }
    ExtendingKeepsAllLinks(start.tickets, conn.tickets, Ids(rows), conn.now + ONE_DAY, conn.now);
    return Ok(()), paying;
  }

  lemma InvIsKeyed(w: World)
    requires Inv(w)
    ensures Keyed(w.items)
  {
  }

  /** Nobody's tickets were unlinked or relinked. */
  ghost predicate SameLinks(before: seq<Ticket>, after: seq<Ticket>) {
    |after| == |before| && forall i: Id :: i < |after| ==> after[i].orderItemId == before[i].orderItemId
  }

  lemma ExtendingKeepsAllLinks(before: seq<Ticket>, after: seq<Ticket>, ids: set<Id>, expiresAt: Time, now: Time)
    requires OrderExtended(before, after, ids, expiresAt, now)
    ensures SameLinks(before, after)
  {
  }

  // ------------------------------------------------------------ becoming paid

  /** A wallet of the user's. */
  predicate OwnsWallet(wallets: map<Id, Option<Id>>, w: Id, userId: Id) {
    w in wallets && wallets[w] == Some(userId)
  }

  predicate HasWallet(wallets: map<Id, Option<Id>>, userId: Id) {
    exists w :: w in wallets && wallets[w] == Some(userId)
  }

  /** The tickets linked to `ids`, and no others, have gone to a wallet of the user's. */
  ghost predicate OrderPurchased(before: seq<Ticket>, after: seq<Ticket>, ids: set<Id>, wallets: map<Id, Option<Id>>,
                                 userId: Id, now: Time) {
    && |after| == |before|
    && forall i: Id {:trigger after[i]} {:trigger before[i]} :: i < |after| ==>
       if LinkedToAny(before[i], ids)
       then OwnsWallet(wallets, after[i].walletId, userId) && after[i] == PurchaseRow(after[i].walletId, now)(before[i])
       else after[i] == before[i]
  }

  method MarkAllAsPurchased(conn: Connection, rows: seq<OrderItem>, userId: Id) returns (r: Result<()>)
    modifies conn`tickets
    ensures r.Ok? <==> rows == [] || HasWallet(conn.wallets, userId)
    ensures r.Ok? ==> OrderPurchased(old(conn.tickets), conn.tickets, Ids(rows), conn.wallets, userId, conn.now)
  {
    ghost var start := conn.tickets;
    for i := 0 to |rows|
      invariant i > 0 ==> HasWallet(conn.wallets, userId)
      invariant OrderPurchased(start, conn.tickets, Ids(rows[..i]), conn.wallets, userId, conn.now)
    {
      assert rows[..i + 1] == rows[..i] + [rows[i]];
      assert Ids(rows[..i + 1]) == Ids(rows[..i]) + {rows[i].id};
      ghost var before := conn.tickets;
      var walletId :- MarkAsPurchased(conn, rows[i].id, userId);
      PurchasedNext(start, before, conn.tickets, Ids(rows[..i]), rows[i].id, conn.wallets, userId, walletId, conn.now);
    }
    assert rows[..|rows|] == rows;
    return Ok(());
  }

  lemma PurchasedNext(start: seq<Ticket>, before: seq<Ticket>, after: seq<Ticket>, ids: set<Id>, k: Id,
                      wallets: map<Id, Option<Id>>, userId: Id, walletId: Id, now: Time)
    requires OrderPurchased(start, before, ids, wallets, userId, now) && OwnsWallet(wallets, walletId, userId)
    requires Rewritten(before, after, Linked(before, k), PurchaseRow(walletId, now))
    ensures OrderPurchased(start, after, ids + {k}, wallets, userId, now)
  {
    forall i: Id | i < |after| ensures
      if LinkedToAny(start[i], ids + {k})
      then OwnsWallet(wallets, after[i].walletId, userId) && after[i] == PurchaseRow(after[i].walletId, now)(start[i])
      else after[i] == start[i]
    {
      assert before[i].orderItemId == start[i].orderItemId;
    }
  }

  /** Every ticket of these items is the user's. */
  ghost predicate SoldTo(tickets: seq<Ticket>, ids: set<Id>, wallets: map<Id, Option<Id>>, userId: Id) {
    forall i: Id :: i < |tickets| && LinkedToAny(tickets[i], ids) ==>
      tickets[i].status == Purchased && OwnsWallet(wallets, tickets[i].walletId, userId)
  }

  lemma PurchasingSells(before: seq<Ticket>, after: seq<Ticket>, ids: set<Id>, wallets: map<Id, Option<Id>>, userId: Id, now: Time)
    requires OrderPurchased(before, after, ids, wallets, userId, now)
    ensures SameLinks(before, after) && SoldTo(after, ids, wallets, userId)
  {
    forall i: Id | i < |after| ensures after[i].orderItemId == before[i].orderItemId {
      assert OwnsWallet(wallets, after[i].walletId, userId) || after[i] == before[i];
    }
  }

  /** The history after order `o` completes: it counts as settled if it was still live. */
  ghost function Settled(history: History, order: Order, now: Time): (h: History) {
    if Live(order, now) then history.(settled := history.settled + {order.id}) else history
  }

  lemma CompletingKeepsItem(w: World, after: World, o: Id, wallets: map<Id, Option<Id>>, userId: Id, k: Id)
    requires Frame(w) && o in w.orders && k in w.items && w.items[k].itemType == Tickets && ItemOk(w, k)
    requires after == w.(orders := w.orders[o := w.orders[o].(status := Paid)], tickets := after.tickets,
                         history := Settled(w.history, w.orders[o], w.now))
    requires OrderPurchased(w.tickets, after.tickets, ItemsOf(w.items, o), wallets, userId, w.now)
    ensures ItemOk(after, k)
    ensures IsLiveItem(w, k) && k !in ItemsOf(w.items, o) ==> KeepsItem(w, after, k) && IsLiveItem(after, k)
  {
    FrameKeys(w, k);
    PurchasingSells(w.tickets, after.tickets, ItemsOf(w.items, o), wallets, userId, w.now);
    assert Linked(after.tickets, k) == Linked(w.tickets, k);
    hide Frame;
    if k in ItemsOf(w.items, o) {
      forall i | i in Linked(w.tickets, k)
        ensures after.tickets[i] == PurchaseRow(after.tickets[i].walletId, w.now)(w.tickets[i])
      {
        assert LinkedToAny(w.tickets[i], ItemsOf(w.items, o));
      }
    } else {
      forall i | i in Linked(w.tickets, k) ensures after.tickets[i] == w.tickets[i] {
        assert !LinkedToAny(w.tickets[i], ItemsOf(w.items, o));
      }
    }
  }

  /** Marking an order paid hands it the tickets it reserved; everybody else keeps theirs. */
  lemma CompletingIsSafe(w: World, after: World, o: Id, wallets: map<Id, Option<Id>>, userId: Id)
    requires Inv(w) && o in w.orders
    requires after == w.(orders := w.orders[o := w.orders[o].(status := Paid)], tickets := after.tickets,
                         history := Settled(w.history, w.orders[o], w.now))
    requires OrderPurchased(w.tickets, after.tickets, ItemsOf(w.items, o), wallets, userId, w.now)
    ensures Inv(after) && Undisturbed(w, after, ItemsOf(w.items, o))
  {
    assert Frame(after) by {
      hide ItemOk, Structured, OneFeeEach;
      forall i: Id | i < |after.tickets|
        ensures after.tickets[i] == w.tickets[i] || after.tickets[i] == PurchaseRow(after.tickets[i].walletId, w.now)(w.tickets[i])
      {
        assert LinkedToAny(w.tickets[i], ItemsOf(w.items, o)) || after.tickets[i] == w.tickets[i];
      }
      CompletingKeepsLinks(w, after, o, wallets, userId);
    }
    forall k | k in w.items && w.items[k].itemType == Tickets
      ensures ItemOk(after, k)
      ensures IsLiveItem(w, k) && k !in ItemsOf(w.items, o) ==> KeepsItem(w, after, k) && IsLiveItem(after, k)
    {
      CompletingKeepsItem(w, after, o, wallets, userId, k);
    }
    hide Frame, ItemOk, OrderPurchased, KeepsItem;
  }

  lemma CompletingKeepsLinks(w: World, after: World, o: Id, wallets: map<Id, Option<Id>>, userId: Id)
    requires LinksOk(w) && after.items == w.items
    requires OrderPurchased(w.tickets, after.tickets, ItemsOf(w.items, o), wallets, userId, w.now)
    ensures LinksOk(after)
  {
    forall i: Id | i < |after.tickets|
      ensures after.tickets[i].orderItemId == w.tickets[i].orderItemId
      ensures after.tickets[i].status == w.tickets[i].status || (after.tickets[i].status == Purchased && w.tickets[i].orderItemId.Some?)
    {
      assert LinkedToAny(w.tickets[i], ItemsOf(w.items, o)) || after.tickets[i] == w.tickets[i];
    }
  }

  /** The user whose cart this was has no cart any more. */
  method ForgetCart(conn: Connection, orderId: Id)
    modifies conn`users
    ensures Forgotten(old(conn.users), conn.users, orderId, conn.now)
  {
    if u :| u in conn.users && conn.users[u].lastCartId == Some(orderId) {
      var _ := OptimisticLocking.UpdateLastCart(conn, u, conn.users[u], None);
      assert ForgetsCart(old(conn.users), conn.users, u, orderId, conn.now);
    } else {
      assert ForgetsCart(old(conn.users), conn.users, 0, orderId, conn.now);
    }
  }

  ghost predicate ForgetsCart(before: map<Id, User>, after: map<Id, User>, u: Id, orderId: Id, now: Time) {
    if u in before && before[u].lastCartId == Some(orderId) then after == before[u := User(None, now)]
    else after == before && forall v :: v in before ==> before[v].lastCartId != Some(orderId)
  }

  /** A user whose cart the order was has none; there may be no such user. */
  ghost predicate Forgotten(before: map<Id, User>, after: map<Id, User>, orderId: Id, now: Time) {
    exists u :: ForgetsCart(before, after, u, orderId, now)
  }

  /**
    `complete_if_fully_paid`. Nothing is asked of the order's status or expiry: completing an order that had expired
    sells whatever tickets it still has, and completing one that was paid already makes redeemed tickets Purchased again.
   */
  method CompleteIfFullyPaid(conn: Connection, self: Order) returns (r: Result<()>)
    requires Keyed(conn.orderItems) && self.id in conn.orders && conn.orders[self.id].id == self.id
    modifies conn`orders, conn`tickets, conn`users, conn`history
    ensures
      var paid := OrderTotal(conn.orderItems, self.id) <= TotalPaid(conn.payments, self.id);
      && (r.Ok? <==> !paid || ItemsOf(conn.orderItems, self.id) == {} || HasWallet(conn.wallets, self.userId))
      && (!paid ==> unchanged(conn))
      && (paid && r.Ok? ==>
            && conn.orders == old(conn.orders)[self.id := old(conn.orders)[self.id].(status := Paid)]
            && OrderPurchased(old(conn.tickets), conn.tickets, ItemsOf(conn.orderItems, self.id), conn.wallets, self.userId, conn.now)
            && Forgotten(old(conn.users), conn.users, self.id, conn.now)
            && conn.history == Settled(old(conn.history), old(conn.orders)[self.id], conn.now))
    ensures r.Ok? && old(Inv(WorldOf(conn))) ==>
      Inv(WorldOf(conn)) && Undisturbed(old(WorldOf(conn)), WorldOf(conn), ItemsOf(conn.orderItems, self.id))
  {
    ghost var start := WorldOf(conn);
    NothingChanged(start, ItemsOf(conn.orderItems, self.id));
    hide Inv, Undisturbed, OrderPurchased, AreRowsOf, OrderTotal, HasWallet, Forgotten;
    var total := CalculateTotal(conn, self.id);
    var paid := SumPaid(conn.payments, self.id);
    if paid >= total {
      conn.orders := conn.orders[self.id := conn.orders[self.id].(status := Paid)];
      var rows := FindForOrder(conn, self.id);
      assert Ids(rows) == ItemsOf(conn.orderItems, self.id) by { RowsAreListed(rows, conn.orderItems, self.id); }
      NoRows(rows);
      r := MarkAllAsPurchased(conn, rows, self.userId);
      if r.Err? {
        return;
      }
      conn.history := Settled(conn.history, start.orders[self.id], conn.now);
      if Inv(start) {
        CompletingIsSafe(start, WorldOf(conn), self.id, conn.wallets, self.userId);
      }
      ForgetCart(conn, self.id);
    }
    return Ok(());
  }

  lemma OrderKeys(w: World, o: Id)
    requires Inv(w) && o in w.orders
    ensures w.orders[o].id == o
  {
  }

  lemma NoRows(rows: seq<OrderItem>)
    ensures rows == [] <==> Ids(rows) == {}
  {
    assert rows != [] ==> rows[0].id in Ids(rows);
  }

  method SumPaid(payments: seq<Payment>, orderId: Id) returns (sum: int)
    ensures sum == TotalPaid(payments, orderId)
  {
    sum := 0;
    for i := 0 to |payments|
      invariant sum == TotalPaid(payments[..i], orderId)
    {
      assert payments[..i + 1][..i] == payments[..i];
      if payments[i].orderId == orderId && payments[i].status == Completed {
        sum := sum + payments[i].amount;
      }
    }
    assert payments[..|payments|] == payments;
  }

  // ------------------------------------------------------------ payments

  /** Payments waiting for their capture can only add to what has been paid. */
  ghost predicate PendingAmountsCount(payments: seq<Payment>) {
    forall p :: p in payments && p.status == Authorized ==> 0 <= p.amount
  }

  ghost predicate BooksOk(w: World, payments: seq<Payment>) {
    Covered(w.orders, payments, w.items) && PendingAmountsCount(payments)
  }

  /** What taking a payment may do to the orders, of which only `o` is concerned. */
  ghost predicate PaymentTaken(before: World, after: World, payments: seq<Payment>, o: Id, wallets: map<Id, Option<Id>>, userId: Id) {
    && after.items == before.items && after.now == before.now
    && o in before.orders && o in after.orders
    && after.orders == before.orders[o := after.orders[o]]
    && after.orders[o] == before.orders[o].(status := after.orders[o].status, expiresAt := after.orders[o].expiresAt)
    && Advances(before.orders[o].status, after.orders[o].status) && after.orders[o].status in {PartiallyPaid, Paid}
    && SameLinks(before.tickets, after.tickets)
    && Undisturbed(before, after, ItemsOf(before.items, o))
    && (if OrderTotal(after.items, o) <= TotalPaid(payments, o)
        then after.orders[o].status == Paid && SoldTo(after.tickets, ItemsOf(after.items, o), wallets, userId)
        else after.orders[o].status == Paid ==> before.orders[o].status == Paid)
    && after.history == (if OrderTotal(after.items, o) <= TotalPaid(payments, o)
                         then Settled(before.history, before.orders[o], before.now) else before.history)
  }

  lemma {:induction false} PaidGrows(payments: seq<Payment>, p: Payment, o: Id)
    ensures TotalPaid(payments + [p], o) == TotalPaid(payments, o) + if p.orderId == o && p.status == Completed then p.amount else 0
  {
    assert (payments + [p])[..|payments|] == payments;
  }

  /** `self` is the order as it was read at some time, and `row` what has become of it. */
  ghost predicate WasRead(self: Order, row: Order) {
    row.id == self.id && row.userId == self.userId && Advances(self.status, row.status)
  }

  /** The order has been paid since it was read as a draft. A payment does not raise the version, so this goes unnoticed. */
  predicate Reopens(self: Order, row: Order) {
    self.status == Draft && row.status == Paid
  }

  /** A payment is accepted for `self`, as read, while this is the row. */
  predicate TakesPayment(self: Order, row: Order, now: Time) {
    || (self.status == Draft && row.version == self.version && row.expiresAt.Some? && now <= row.expiresAt.value)
    || self.status == PartiallyPaid
  }

  /** A draft becomes partially paid with its first payment; the rest is `complete_if_fully_paid`. */
  method OpenForPayment(conn: Connection, self: Order) returns (r: Result<()>, paying: Order)
    requires Inv(WorldOf(conn)) && self.id in conn.orders && WasRead(self, conn.orders[self.id])
    modifies conn`orders, conn`tickets
    ensures
      var row := old(conn.orders)[self.id];
      && (r.Ok? <==> TakesPayment(self, row, conn.now))
      && (r.Ok? ==>
            && paying == self.(status := PartiallyPaid)
            && conn.orders == old(conn.orders)[self.id :=
                 if self.status == Draft then row.(status := PartiallyPaid, expiresAt := Some(conn.now + ONE_DAY)) else row])
      && (r.Ok? && self.status == Draft ==>
            OrderExtended(old(conn.tickets), conn.tickets, ItemsOf(conn.orderItems, self.id), conn.now + ONE_DAY, conn.now))
      && (r.Ok? && !Reopens(self, row) ==>
            && Inv(WorldOf(conn)) && SameLinks(old(conn.tickets), conn.tickets)
            && Undisturbed(old(WorldOf(conn)), WorldOf(conn), ItemsOf(conn.orderItems, self.id)))
  {
    hide Inv, Undisturbed, SameLinks, OrderExtended;
    match self.status {
      case Draft =>
        r, paying := MarkPartiallyPaid(conn, self);
      case PartiallyPaid =>
        NothingChanged(WorldOf(conn), ItemsOf(conn.orderItems, self.id));
        LinksAreKept(conn.tickets);
        assert conn.orders[self.id := conn.orders[self.id]] == conn.orders;
        r, paying := Ok(()), self;
      case _ =>
        r, paying := Err(BusinessProcessError), self;
    }
  }

  lemma LinksAreKept(tickets: seq<Ticket>)
    ensures SameLinks(tickets, tickets)
  {
  }

  /** `NewPayment::commit`: an external payment needs a reference. */
  method InsertPayment(conn: Connection, payment: Payment) returns (r: Result<Id>)
    modifies conn`payments
    ensures r.Ok? <==> payment.externalReference.Some? || payment.paymentMethod != External
    ensures r.Ok? ==> r.value == |old(conn.payments)| && conn.payments == old(conn.payments) + [payment]
    ensures r.Err? ==> unchanged(conn)
  {
    if payment.externalReference.None? && payment.paymentMethod == External {
      return Err(InsertError);
    }
    conn.payments := conn.payments + [payment];
    return Ok(|conn.payments| - 1);
  }

  /** An order opened for payment, or left as it was, and completed if its total is covered. */
  lemma PaymentIsTaken(start: World, open_: World, after: World, payments: seq<Payment>, o: Id, wallets: map<Id, Option<Id>>, userId: Id)
    requires Inv(start) && o in start.orders
    requires open_ == start.(orders := open_.orders, tickets := open_.tickets) && o in open_.orders
    requires open_.orders == start.orders[o := open_.orders[o]] && open_.orders[o].id == o
    requires open_.orders[o] == start.orders[o].(status := open_.orders[o].status, expiresAt := open_.orders[o].expiresAt)
    requires Advances(start.orders[o].status, open_.orders[o].status)
    requires open_.orders[o].status == PartiallyPaid || (open_.orders[o].status == start.orders[o].status == Paid)
    requires Live(open_.orders[o], start.now) <==> Live(start.orders[o], start.now)
    requires SameLinks(start.tickets, open_.tickets) && Undisturbed(start, open_, ItemsOf(start.items, o))
    requires if OrderTotal(start.items, o) <= TotalPaid(payments, o)
             then
               && after == open_.(orders := open_.orders[o := open_.orders[o].(status := Paid)], tickets := after.tickets,
                                  history := Settled(start.history, open_.orders[o], start.now))
               && OrderPurchased(open_.tickets, after.tickets, ItemsOf(start.items, o), wallets, userId, start.now)
             else after == open_
    requires Undisturbed(open_, after, ItemsOf(start.items, o))
    ensures PaymentTaken(start, after, payments, o, wallets, userId)
  {
    UndisturbedTwice(start, open_, after, ItemsOf(start.items, o), ItemsOf(start.items, o));
    assert ItemsOf(start.items, o) + ItemsOf(start.items, o) == ItemsOf(start.items, o);
    if OrderTotal(start.items, o) <= TotalPaid(payments, o) {
      PurchasingSells(open_.tickets, after.tickets, ItemsOf(start.items, o), wallets, userId, start.now);
    }
    hide Inv, Undisturbed, OrderTotal, OrderPurchased, SoldTo, ItemsOf;
  }

  /** Payments that can only add to what was paid keep every paid order covered. */
  lemma CoveredAfterPayment(start: World, after: World, payments: seq<Payment>, payments': seq<Payment>, o: Id,
                            wallets: map<Id, Option<Id>>, userId: Id)
    requires Covered(start.orders, payments, start.items)
    requires PaymentTaken(start, after, payments', o, wallets, userId)
    requires forall x :: x != o ==> TotalPaid(payments', x) == TotalPaid(payments, x)
    requires start.orders[o].status == Paid ==> TotalPaid(payments, o) <= TotalPaid(payments', o)
    ensures Covered(after.orders, payments', after.items)
  {
  }

  /** What a payment makes of an order that has been paid since it was read as a draft: it is opened again, and completed if it is covered. */
  ghost predicate Reopened(before: World, after: World, covered: bool, o: Id, wallets: map<Id, Option<Id>>, userId: Id)
    requires o in before.orders
  {
    && after.items == before.items && after.now == before.now
    && after.orders == before.orders[o :=
         before.orders[o].(status := if covered then Paid else PartiallyPaid, expiresAt := Some(before.now + ONE_DAY))]
    && after.history == (if covered then before.history.(settled := before.history.settled + {before.orders[o].id}) else before.history)
    && exists extended :: ExtendedThenPurchased(before, extended, after, covered, o, wallets, userId)
  }

  ghost predicate ExtendedThenPurchased(before: World, extended: seq<Ticket>, after: World, covered: bool, o: Id,
                                        wallets: map<Id, Option<Id>>, userId: Id) {
    && OrderExtended(before.tickets, extended, ItemsOf(before.items, o), before.now + ONE_DAY, before.now)
    && if covered then OrderPurchased(extended, after.tickets, ItemsOf(before.items, o), wallets, userId, before.now)
       else after.tickets == extended
  }

  /** An order that was paid for is still covered with one payment more, unless that takes money back. */
  lemma CoveredWithOneMore(w: World, payments: seq<Payment>, payment: Payment, o: Id)
    requires Covered(w.orders, payments, w.items) && o in w.orders && w.orders[o].status == Paid
    requires payment.status == Completed ==> 0 <= payment.amount
    ensures OrderTotal(w.items, o) <= TotalPaid(payments + [payment], o)
  {
    PaidGrows(payments, payment, o);
  }

  /**
    `add_payment`. A payment on an order that has been paid since it was read as a draft goes through like a first one: the
    order takes it on top of what has been paid, and is paid again.
   */
  method AddPayment(conn: Connection, self: Order, payment: Payment) returns (r: Result<Id>)
    requires Inv(WorldOf(conn)) && self.id in conn.orders && WasRead(self, conn.orders[self.id]) && payment.orderId == self.id
    modifies conn`orders, conn`tickets, conn`users, conn`history, conn`payments
    ensures
      var covered := OrderTotal(conn.orderItems, self.id) <= TotalPaid(old(conn.payments) + [payment], self.id);
      r.Ok? <==>
        && TakesPayment(self, old(conn.orders)[self.id], conn.now)
        && (payment.externalReference.Some? || payment.paymentMethod != External)
        && (covered ==> ItemsOf(conn.orderItems, self.id) == {} || HasWallet(conn.wallets, self.userId))
    ensures r.Ok? ==> r.value == |old(conn.payments)| && conn.payments == old(conn.payments) + [payment]
    ensures r.Ok? && Reopens(self, old(conn.orders)[self.id]) ==>
      && Reopened(old(WorldOf(conn)), WorldOf(conn), OrderTotal(conn.orderItems, self.id) <= TotalPaid(conn.payments, self.id), self.id,
                  conn.wallets, self.userId)
      && (BooksOk(old(WorldOf(conn)), old(conn.payments)) && 0 <= payment.amount ==>
            BooksOk(WorldOf(conn), conn.payments) && conn.orders[self.id].status == Paid)
    ensures r.Ok? ==>
      && (if OrderTotal(conn.orderItems, self.id) <= TotalPaid(conn.payments, self.id)
          then Forgotten(old(conn.users), conn.users, self.id, conn.now) else conn.users == old(conn.users))
      && self.id in conn.orders
      && conn.orders[self.id].expiresAt
         == (if self.status == Draft then Some(conn.now + 24 * 60 * 60) else old(conn.orders)[self.id].expiresAt)
    ensures r.Ok? && !Reopens(self, old(conn.orders)[self.id]) ==>
      && Inv(WorldOf(conn))
      && (BooksOk(old(WorldOf(conn)), old(conn.payments))
          && (payment.status == Authorized || old(conn.orders)[self.id].status == Paid ==> 0 <= payment.amount) ==>
            BooksOk(WorldOf(conn), conn.payments))
      && PaymentTaken(old(WorldOf(conn)), WorldOf(conn), conn.payments, self.id, conn.wallets, self.userId)
  {
    hide Inv, Undisturbed, OrderTotal, HasWallet, OrderExtended, OrderPurchased, Covered, SameLinks, SoldTo, PendingAmountsCount, ItemsOf,
      PaymentTaken, Settled, Reopened, BooksOk, TotalPaid, Forgotten, Keyed;
    ghost var start := WorldOf(conn);
    InvIsKeyed(start);
    OrderKeys(start, self.id);
    var ready, paying := OpenForPayment(conn, self);
    if ready.Err? {
      return Err(ready.error);
    }
    ghost var open_ := WorldOf(conn);
    var paymentId := InsertPayment(conn, payment);
    if paymentId.Err? {
      return paymentId;
    }
    var completed := CompleteIfFullyPaid(conn, paying);
    if completed.Err? {
      return Err(completed.error);
    }
    if Reopens(self, start.orders[self.id]) {
      PaymentReopens(start, open_, WorldOf(conn), old(conn.payments), payment, self.id, conn.wallets, self.userId);
    } else {
      PaymentIsTaken(start, open_, WorldOf(conn), conn.payments, self.id, conn.wallets, self.userId);
      PaymentKeepsBooks(start, WorldOf(conn), old(conn.payments), payment, self.id, conn.wallets, self.userId);
    }
    return paymentId;
  }

  lemma PaymentKeepsBooks(start: World, after: World, payments: seq<Payment>, payment: Payment, o: Id, wallets: map<Id, Option<Id>>, userId: Id)
    requires o in start.orders
    requires payment.orderId == o && PaymentTaken(start, after, payments + [payment], o, wallets, userId)
    ensures BooksOk(start, payments) && (payment.status == Authorized || start.orders[o].status == Paid ==> 0 <= payment.amount) ==>
      BooksOk(after, payments + [payment])
  {
    hide PaymentTaken, Covered, PendingAmountsCount;
    if BooksOk(start, payments) && (payment.status == Authorized || start.orders[o].status == Paid ==> 0 <= payment.amount) {
      forall x ensures x != o ==> TotalPaid(payments + [payment], x) == TotalPaid(payments, x) {
        PaidGrows(payments, payment, x);
      }
      PaidGrows(payments, payment, o);
      CoveredAfterPayment(start, after, payments, payments + [payment], o, wallets, userId);
      AppendedAmountCounts(payments, payment);
    }
  }

  lemma PaymentReopens(start: World, open_: World, after: World, payments: seq<Payment>, payment: Payment, o: Id,
                       wallets: map<Id, Option<Id>>, userId: Id)
    requires o in start.orders && start.orders[o].status == Paid && start.orders[o].id == o && payment.orderId == o
    requires open_ == start.(orders := start.orders[o := start.orders[o].(status := PartiallyPaid, expiresAt := Some(start.now + ONE_DAY))],
                             tickets := open_.tickets)
    requires OrderExtended(start.tickets, open_.tickets, ItemsOf(start.items, o), start.now + ONE_DAY, start.now)
    requires if OrderTotal(start.items, o) <= TotalPaid(payments + [payment], o)
             then
               && after == open_.(orders := open_.orders[o := open_.orders[o].(status := Paid)], tickets := after.tickets,
                                  history := Settled(start.history, open_.orders[o], start.now))
               && OrderPurchased(open_.tickets, after.tickets, ItemsOf(start.items, o), wallets, userId, start.now)
             else after == open_
    ensures Reopened(start, after, OrderTotal(start.items, o) <= TotalPaid(payments + [payment], o), o, wallets, userId)
    ensures BooksOk(start, payments) && 0 <= payment.amount ==>
      BooksOk(after, payments + [payment]) && after.orders[o].status == Paid
  {
    hide OrderExtended, OrderPurchased, OrderTotal, ItemsOf, TotalPaid, PendingAmountsCount;
    var covered := OrderTotal(start.items, o) <= TotalPaid(payments + [payment], o);
    assert ExtendedThenPurchased(start, open_.tickets, after, covered, o, wallets, userId);
    if BooksOk(start, payments) && 0 <= payment.amount {
      CoveredWithOneMore(start, payments, payment, o);
      AppendedAmountCounts(payments, payment);
      forall x | x in after.orders && after.orders[x].status == Paid ensures OrderTotal(after.items, x) <= TotalPaid(payments + [payment], x) {
        PaidGrows(payments, payment, x);
      }
    }
  }

  lemma AppendedAmountCounts(payments: seq<Payment>, payment: Payment)
    requires PendingAmountsCount(payments) && (payment.status == Authorized ==> 0 <= payment.amount)
    ensures PendingAmountsCount(payments + [payment])
  {
  }

  function Complete(payment: Payment, now: Time): (p: Payment) {
    payment.(status := Completed, updatedAt := now)
  }

  lemma {:induction false} PaidAfterCompletion(payments: seq<Payment>, i: nat, now: Time, o: Id)
    requires i < |payments| && payments[i].status in {Authorized, Completed} && PendingAmountsCount(payments)
    ensures payments[i].orderId != o ==> TotalPaid(payments[i := Complete(payments[i], now)], o) == TotalPaid(payments, o)
    ensures TotalPaid(payments, o) <= TotalPaid(payments[i := Complete(payments[i], now)], o)
  {
    var after := payments[i := Complete(payments[i], now)];
    if i == |payments| - 1 {
      assert after[..i] == payments[..i];
      assert payments[i] in payments;
    } else {
      assert forall p :: p in payments[..|payments| - 1] ==> p in payments;
      PaidAfterCompletion(payments[..|payments| - 1], i, now, o);
      assert after[..|payments| - 1] == payments[..|payments| - 1][i := Complete(payments[i], now)];
    }
  }

  /** `self` as read, now stored as completed unless somebody wrote the row since; which of the two, the caller is not told. */
  function Captured(payments: seq<Payment>, paymentId: Id, self: Payment, now: Time): (r: seq<Payment>)
    requires paymentId < |payments|
  {
    if payments[paymentId].updatedAt == self.updatedAt then payments[paymentId := Complete(payments[paymentId], now)] else payments
  }

  lemma CapturedCounts(payments: seq<Payment>, paymentId: Id, self: Payment, now: Time, orderId: Id)
    requires paymentId < |payments| && payments[paymentId].status in {Authorized, Completed} && payments[paymentId].orderId == orderId
    requires PendingAmountsCount(payments)
    ensures PendingAmountsCount(Captured(payments, paymentId, self, now))
    ensures forall x :: TotalPaid(payments, x) <= TotalPaid(Captured(payments, paymentId, self, now), x)
    ensures forall x :: x != orderId ==> TotalPaid(Captured(payments, paymentId, self, now), x) == TotalPaid(payments, x)
  {
    forall x
      ensures TotalPaid(payments, x) <= TotalPaid(Captured(payments, paymentId, self, now), x)
      ensures x != orderId ==> TotalPaid(Captured(payments, paymentId, self, now), x) == TotalPaid(payments, x)
    {
      PaidAfterCompletion(payments, paymentId, now, x);
    }
  }

  /** `mark_complete`: the order is completed whether or not the row was still the one that was read. */
  method MarkComplete(conn: Connection, paymentId: Id, self: Payment) returns (r: Result<()>)
    requires Inv(WorldOf(conn)) && paymentId < |conn.payments|
    requires conn.payments[paymentId].status in {Authorized, Completed} && conn.payments[paymentId].orderId == self.orderId
    requires self.orderId in conn.orders ==> conn.orders[self.orderId].status in {PartiallyPaid, Paid}
    modifies conn`orders, conn`tickets, conn`users, conn`history, conn`payments
    ensures conn.payments == Captured(old(conn.payments), paymentId, self, conn.now)
    ensures conn.payments ==
      if old(conn.payments)[paymentId].updatedAt == self.updatedAt
      then old(conn.payments)[paymentId := old(conn.payments)[paymentId].(status := Completed, updatedAt := conn.now)]
      else old(conn.payments)
    ensures
      var covered := OrderTotal(conn.orderItems, self.orderId) <= TotalPaid(conn.payments, self.orderId);
      r.Ok? <==>
        && self.orderId in old(conn.orders)
        && (covered ==> ItemsOf(conn.orderItems, self.orderId) == {} || HasWallet(conn.wallets, old(conn.orders)[self.orderId].userId))
    ensures r.Ok? ==>
      && Inv(WorldOf(conn)) && self.orderId in conn.orders && self.orderId in old(conn.orders)
      && (if OrderTotal(conn.orderItems, self.orderId) <= TotalPaid(conn.payments, self.orderId)
          then Forgotten(old(conn.users), conn.users, self.orderId, conn.now) else conn.users == old(conn.users))
      && conn.orders[self.orderId].expiresAt == old(conn.orders)[self.orderId].expiresAt
      && (BooksOk(old(WorldOf(conn)), old(conn.payments)) ==> BooksOk(WorldOf(conn), conn.payments))
      && PaymentTaken(old(WorldOf(conn)), WorldOf(conn), conn.payments, self.orderId, conn.wallets, old(conn.orders)[self.orderId].userId)
  {
    hide Inv, Undisturbed, OrderTotal, HasWallet, OrderPurchased, Covered, SoldTo, PendingAmountsCount, ItemsOf, TotalPaid, Forgotten;
    ghost var start := WorldOf(conn);
    if conn.payments[paymentId].updatedAt == self.updatedAt {
      conn.payments := conn.payments[paymentId := Complete(conn.payments[paymentId], conn.now)];
    }
    if self.orderId !in conn.orders {
      return Err(QueryError);
    }
    var order := conn.orders[self.orderId];
    InvIsKeyed(start);
    OrderKeys(start, self.orderId);
    var completed := CompleteIfFullyPaid(conn, order);
    if completed.Err? {
      return completed;
    }
    NothingChanged(start, ItemsOf(start.items, self.orderId));
    PaymentIsTaken(start, start, WorldOf(conn), conn.payments, self.orderId, conn.wallets, order.userId);
    if BooksOk(start, old(conn.payments)) {
      CapturedCounts(old(conn.payments), paymentId, self, conn.now, self.orderId);
      CoveredAfterPayment(start, WorldOf(conn), old(conn.payments), conn.payments, self.orderId, conn.wallets, order.userId);
    }
    return Ok(());
  }
}
