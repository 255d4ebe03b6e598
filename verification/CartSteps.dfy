/** The steps `update_quantities` is made of (db/src/models/orders.rs): each keeps the reservation invariant. */
module CartSteps {
  import opened Schema
  import opened CartLines
  import opened Inventory
  import opened OrderItems
  import opened OrderRows
  import opened Pools
  import opened TicketInstances

  const CART_EXPIRY_TIME: Time := 15 * 60

  /** `self` is the draft cart as it stands in the table, live or empty. */
  ghost predicate IsCart(w: World, self: Order) {
    && self.id in w.orders && w.orders[self.id] == self && self.status == Draft
    && (self.expiresAt.Some? ==> w.now <= self.expiresAt.value)
  }

  lemma CartIsNotSettled(w: World, self: Order)
    requires Inv(w) && IsCart(w, self)
    ensures self.id !in w.history.settled
  {
  }

  // ------------------------------------------------------------ versions and expiry

  /** `lock_version`: succeeds only if nobody has bumped the version since `self` was read. */
  method LockVersion(conn: Connection, self: Order) returns (r: Result<()>, locked: Order)
    modifies conn`orders
    ensures locked == if r.Ok? then self.(version := self.version + 1) else self
    ensures r.Ok? <==> self.id in old(conn.orders) && old(conn.orders)[self.id].version == self.version
    ensures r.Err? ==> r == Err(ConcurrencyError) && unchanged(conn)
    ensures r.Ok? ==>
      conn.orders == old(conn.orders)[self.id := old(conn.orders)[self.id].(version := self.version + 1)]
  {
    if self.id !in conn.orders || conn.orders[self.id].version != self.version {
      return Err(ConcurrencyError), self;
    }
    conn.orders := conn.orders[self.id := conn.orders[self.id].(version := self.version + 1)];
    return Ok(()), self.(version := self.version + 1);
  }

  /** `set_expiry`: only from no expiry at all. */
  method SetExpiry(conn: Connection, self: Order) returns (r: Result<()>, cart: Order)
    requires Inv(WorldOf(conn)) && IsCart(WorldOf(conn), self)
    modifies conn`orders
    ensures r.Ok? <==> self.expiresAt.None?
    ensures r.Ok? ==>
      && cart == self.(expiresAt := Some(conn.now + CART_EXPIRY_TIME))
      && conn.orders == old(conn.orders)[self.id := cart]
      && Inv(WorldOf(conn)) && IsCart(WorldOf(conn), cart)
      && Undisturbed(old(WorldOf(conn)), WorldOf(conn), {})
  {
    cart := self.(expiresAt := Some(conn.now + CART_EXPIRY_TIME));
    var row := conn.orders[self.id];
    if row.version != self.version || row.expiresAt.Some? {
      return Err(ConcurrencyError), cart;
    }
    NoExpiryNoItems(WorldOf(conn), self.id);
    CartIsNotSettled(WorldOf(conn), self);
    hide Inv, Undisturbed;
    ReplacingOrderIsSafe(WorldOf(conn), cart);
    conn.orders := conn.orders[self.id := cart];
    return Ok(()), cart;
  }

  lemma NoExpiryNoItems(w: World, o: Id)
    requires Inv(w) && o in w.orders && w.orders[o].expiresAt.None?
    ensures ItemsOf(w.items, o) == {}
  {
  }

  /** `remove_expiry`: for a cart that has not expired and, here, has no items. */
  method RemoveExpiry(conn: Connection, self: Order) returns (r: Result<()>, cart: Order)
    requires Inv(WorldOf(conn)) && IsCart(WorldOf(conn), self) && ItemsOf(conn.orderItems, self.id) == {}
    modifies conn`orders
    ensures r.Ok? <==> self.expiresAt.None? || conn.now < self.expiresAt.value
    ensures r.Ok? ==>
      && cart == self.(expiresAt := None)
      && conn.orders == old(conn.orders)[self.id := cart]
      && Inv(WorldOf(conn)) && IsCart(WorldOf(conn), cart)
      && Undisturbed(old(WorldOf(conn)), WorldOf(conn), {})
  {
    cart := self.(expiresAt := None);
    var row := conn.orders[self.id];
    if row.version != self.version || (row.expiresAt.Some? && row.expiresAt.value <= conn.now) {
      return Err(ConcurrencyError), cart;
    }
    CartIsNotSettled(WorldOf(conn), self);
    hide Inv, Undisturbed;
    ReplacingOrderIsSafe(WorldOf(conn), cart);
    conn.orders := conn.orders[self.id := cart];
    return Ok(()), cart;
  }

  method UpdateBoxOfficePricing(conn: Connection, self: Order, boxOfficePricing: bool) returns (cart: Order)
    requires Inv(WorldOf(conn)) && IsCart(WorldOf(conn), self)
    modifies conn`orders
    ensures cart == self.(boxOfficePricing := boxOfficePricing)
    ensures conn.orders == old(conn.orders)[self.id := cart]
    ensures Inv(WorldOf(conn)) && IsCart(WorldOf(conn), cart)
    ensures Undisturbed(old(WorldOf(conn)), WorldOf(conn), {})
  {
    cart := self.(boxOfficePricing := boxOfficePricing);
    hide Inv, Undisturbed;
    ReplacingOrderIsSafe(WorldOf(conn), cart);
    conn.orders := conn.orders[self.id := cart];
  }

  // ------------------------------------------------------------ tickets of one item

  /** `order_items_quantity_in_increments` */
  predicate InIncrements(ticketTypes: map<Id, TicketType>, ticketTypeId: Option<Id>, quantity: int) {
    && ticketTypeId.Some? && ticketTypeId.value in ticketTypes
    && ticketTypes[ticketTypeId.value].increment > 0
    && quantity % ticketTypes[ticketTypeId.value].increment == 0
  }

  /** A Tickets row of the cart, as loaded. */
  ghost predicate IsCartRow(w: World, self: Order, row: OrderItem) {
    && row.id in w.items && w.items[row.id] == row && row.itemType == Tickets && row.orderId == self.id
  }

  lemma CartRowFacts(w: World, self: Order, row: OrderItem)
    requires Inv(w) && IsCart(w, self) && IsCartRow(w, self, row)
    ensures self.expiresAt.Some? && IsLiveItem(w, row.id) && row.ticketTypeId.Some?
    ensures 0 < row.quantity < U32_SIZE && ToU32(row.quantity) == row.quantity
    ensures Reserves(w.tickets, row, self.expiresAt.value, w.history)
    ensures InvBut(w, {row.id})
  {
    assert ItemOk(w, row.id);
  }

  /** Releases `quantity` of the row's tickets. */
  method ReleaseSome(conn: Connection, self: Order, row: OrderItem, quantity: u32) returns (r: Result<set<Id>>)
    requires InvBut(WorldOf(conn), {row.id}) && IsCart(WorldOf(conn), self)
    requires self.expiresAt.Some? && IsCartRow(WorldOf(conn), self, row)
    requires Reserves(conn.tickets, row, self.expiresAt.value, conn.history)
    modifies conn`tickets
    ensures r.Ok? <==> quantity <= Unlocked(old(conn.tickets), row.id, conn.lockedRows)
    ensures r.Ok? ==>
      && InvBut(WorldOf(conn), {row.id})
      && Undisturbed(old(WorldOf(conn)), WorldOf(conn), {row.id})
      && Reserves(conn.tickets, row.(quantity := row.quantity - quantity), self.expiresAt.value, conn.history)
      && PoolsMoved(old(conn.tickets), conn.tickets, conn.now, conn.lockedRows, row.ticketTypeId, row.holdId, quantity)
  {
    hide InvBut, Undisturbed, Reserves, PoolsMoved, ReleasableWhere;
    ReleasableAreLinked(conn.tickets, row, self.expiresAt.value, conn.history);
    r := ReleaseTickets(conn, row.id, quantity);
    if r.Ok? {
      assert ReleasedFrom(old(WorldOf(conn)), WorldOf(conn), row.id, r.value);
      ReleasingIsSafe(old(WorldOf(conn)), WorldOf(conn), row.id, r.value);
      ReleasingTakesFrom(old(WorldOf(conn)), WorldOf(conn), row, r.value, self.expiresAt.value);
      ReleasingFrees(old(conn.tickets), conn.tickets, conn.now, conn.lockedRows, row, self.expiresAt.value, conn.history, r.value);
    }
  }

  /** The pool or the hold still has `n` tickets that nobody else is working on. */
  ghost predicate Enough(conn: Connection, tickets: seq<Ticket>, row: OrderItem, n: nat)
    reads conn`now, conn`lockedRows
  {
    && row.ticketTypeId.Some?
    && n <= Free(tickets, conn.now, conn.lockedRows, row.ticketTypeId.value, row.holdId)
  }

  /** Reserves `quantity` more tickets for an item, in its row or about to be. */
  method ReserveSome(conn: Connection, self: Order, row: OrderItem, quantity: u32) returns (r: Result<set<Id>>)
    requires InvBut(WorldOf(conn), {row.id}) && IsCart(WorldOf(conn), self)
    requires row.id in conn.orderItems && conn.orderItems[row.id].itemType == Tickets && row.ticketTypeId.Some?
    requires conn.orderItems[row.id].orderId == self.id
    requires self.expiresAt.Some? ==> Reserves(conn.tickets, row, self.expiresAt.value, conn.history)
    modifies conn`tickets, conn`history
    ensures r.Ok? <==> self.expiresAt.Some? && Enough(conn, old(conn.tickets), row, quantity)
    ensures r.Ok? ==>
      && InvBut(WorldOf(conn), {row.id})
      && Undisturbed(old(WorldOf(conn)), WorldOf(conn), {row.id})
      && conn.history == old(conn.history).(lost := conn.history.lost)
      && Reserves(conn.tickets, row.(quantity := row.quantity + quantity), self.expiresAt.value, conn.history)
      && PoolsMoved(old(conn.tickets), conn.tickets, conn.now, conn.lockedRows, row.ticketTypeId, row.holdId, -(quantity as int))
  {
    hide InvBut, Undisturbed, Reserves, Rewritten, SoldBy, PoolsMoved, TakeableWhere, ReserveRow;
    r := ReserveTickets(conn, row.id, self.expiresAt, row.ticketTypeId.value, row.holdId, quantity);
    if r.Ok? {
      assert ReservedFor(old(WorldOf(conn)), WorldOf(conn), row.id, r.value, self.expiresAt.value, row.ticketTypeId.value, row.holdId);
      ReservingIsSafe(old(WorldOf(conn)), WorldOf(conn), row.id, r.value, self.expiresAt.value, row.ticketTypeId.value, row.holdId);
      ReservingAddsTo(old(WorldOf(conn)), WorldOf(conn), row, r.value, self.expiresAt.value);
      ReservingTakes(old(conn.tickets), conn.tickets, conn.now, conn.lockedRows, row.id, self.expiresAt.value, row.ticketTypeId.value,
                     row.holdId, r.value);
    }
  }

  // ------------------------------------------------------------ one item

  /** What every step on the cart's items leaves as it was. */
  ghost predicate SameCart(w: World, after: World) {
    && after.orders == w.orders && after.now == w.now
    && after.history == w.history.(lost := after.history.lost, repriced := after.history.repriced)
    && w.nextId <= after.nextId
  }

  method DestroyRow(conn: Connection, self: Order, itemId: Id) returns (r: Result<()>)
    requires InvBut(WorldOf(conn), {itemId}) && IsCart(WorldOf(conn), self)
    requires itemId in conn.orderItems && conn.orderItems[itemId].itemType == Tickets
    requires conn.orderItems[itemId].orderId == self.id
    modifies conn`orderItems
    ensures Linked(conn.tickets, itemId) == {} ==> (r.Ok? <==> !IsRecorded(old(conn.orderItems), conn.refundedTickets, itemId))
    ensures r.Ok? ==>
      && Inv(WorldOf(conn))
      && conn.orderItems == Without(old(conn.orderItems), itemId)
      && Undisturbed(old(WorldOf(conn)), WorldOf(conn), {itemId})
  {
    if Linked(conn.tickets, itemId) == {} {
      EmptyItemIsReferencedIfRecorded(WorldOf(conn), itemId, conn.refundedTickets);
    }
    hide Inv, InvBut, Undisturbed, Referenced, IsRecorded;
    r := DestroyItem(conn, self, itemId);
    if r.Ok? {
      DestroyingIsSafe(old(WorldOf(conn)), itemId, conn.refundedTickets);
    }
  }

  /** Releases all tickets of an item and deletes it. */
  method RemoveItem(conn: Connection, self: Order, row: OrderItem) returns (r: Result<()>)
    requires Inv(WorldOf(conn)) && IsCart(WorldOf(conn), self) && IsCartRow(WorldOf(conn), self, row)
    modifies conn`tickets, conn`orderItems
    ensures r.Ok? <==>
      && row.quantity <= Unlocked(old(conn.tickets), row.id, conn.lockedRows)
      && !IsRecorded(old(conn.orderItems), conn.refundedTickets, row.id)
    ensures r.Ok? ==>
      && Inv(WorldOf(conn))
      && conn.orderItems == Without(old(conn.orderItems), row.id)
      && Undisturbed(old(WorldOf(conn)), WorldOf(conn), {row.id})
      && PoolsMoved(old(conn.tickets), conn.tickets, conn.now, conn.lockedRows, row.ticketTypeId, row.holdId, row.quantity)
  {
    hide Inv, InvBut, Reserves, Undisturbed, PoolsMoved, Unlocked, IsRecorded, Linked;
    CartRowFacts(WorldOf(conn), self, row);
    var _ :- ReleaseSome(conn, self, row, ToU32(row.quantity));
    NothingLeftReserved(conn.tickets, row.(quantity := 0), self.expiresAt.value, conn.history);
    ghost var mid := WorldOf(conn);
    r := DestroyRow(conn, self, row.id);
    if r.Ok? {
      UndisturbedTwice(old(WorldOf(conn)), mid, WorldOf(conn), {row.id}, {row.id});
      assert {row.id} + {row.id} == {row.id};
    }
  }

  /** `current_line.update` with a new quantity. */
  method UpdateQuantity(conn: Connection, self: Order, row: OrderItem, quantity: u32) returns (r: Result<()>)
    requires InvBut(WorldOf(conn), {row.id}) && IsCart(WorldOf(conn), self) && IsCartRow(WorldOf(conn), self, row)
    modifies conn`orderItems
    ensures r.Ok? <==> InIncrements(conn.ticketTypes, row.ticketTypeId, quantity)
    ensures r.Ok? ==>
      && conn.orderItems == old(conn.orderItems)[row.id := row.(quantity := quantity)]
      && InvBut(WorldOf(conn), {row.id})
      && Undisturbed(old(WorldOf(conn)), WorldOf(conn), {row.id})
  {
    if !InIncrements(conn.ticketTypes, row.ticketTypeId, quantity) {
      return Err(ValidationError);
    }
    hide InvBut, Undisturbed;
    ChangingQuantityIsSafe(WorldOf(conn), row.id, quantity);
    conn.orderItems := conn.orderItems[row.id := row.(quantity := quantity)];
    return Ok(());
  }

  /** An item with its tickets in place is no longer an exception. */
  lemma ReservedItemIsOk(w: World, self: Order, row: OrderItem)
    requires InvBut(w, {row.id}) && IsCart(w, self) && IsCartRow(w, self, row)
    requires self.expiresAt.Some? && 0 < row.quantity < U32_SIZE
    requires Reserves(w.tickets, row, self.expiresAt.value, w.history)
    ensures Inv(w)
  {
    InvFromParts(w, row.id);
  }

  /** Lowers the quantity of an item, deleting it at zero. */
  method ReduceItem(conn: Connection, self: Order, row: OrderItem, quantity: u32) returns (r: Result<()>)
    requires Inv(WorldOf(conn)) && IsCart(WorldOf(conn), self) && IsCartRow(WorldOf(conn), self, row)
    requires quantity < row.quantity
    modifies conn`tickets, conn`orderItems
    ensures r.Ok? <==>
      && row.quantity - quantity <= Unlocked(old(conn.tickets), row.id, conn.lockedRows)
      && InIncrements(conn.ticketTypes, row.ticketTypeId, quantity)
      && (quantity == 0 ==> !IsRecorded(old(conn.orderItems), conn.refundedTickets, row.id))
    ensures r.Ok? ==>
      && Inv(WorldOf(conn))
      && conn.orderItems == (if quantity == 0 then Without(old(conn.orderItems), row.id)
                             else old(conn.orderItems)[row.id := row.(quantity := quantity)])
      && Undisturbed(old(WorldOf(conn)), WorldOf(conn), {row.id})
      && PoolsMoved(old(conn.tickets), conn.tickets, conn.now, conn.lockedRows, row.ticketTypeId, row.holdId, row.quantity - quantity)
  {
    hide Inv, InvBut, Reserves, Undisturbed, InIncrements, Without, PoolsMoved, Unlocked, IsRecorded, Linked;
    CartRowFacts(WorldOf(conn), self, row);
    var _ :- ReleaseSome(conn, self, row, ToU32(row.quantity) - quantity);
    ghost var mid := WorldOf(conn);
    var _ :- UpdateQuantity(conn, self, row, quantity);
    ghost var between := WorldOf(conn);
    UndisturbedTwice(old(WorldOf(conn)), mid, between, {row.id}, {row.id});
    assert {row.id} + {row.id} == {row.id};
    if quantity == 0 {
      NothingLeftReserved(conn.tickets, row.(quantity := 0), self.expiresAt.value, conn.history);
      RecordedAlike(mid.items, conn.refundedTickets, row.id, row.(quantity := quantity));
      r := DestroyRow(conn, self, row.id);
      if r.Ok? {
        UndisturbedTwice(old(WorldOf(conn)), between, WorldOf(conn), {row.id}, {row.id});
        WithoutIgnoresTheRow(mid.items, row.id, row.(quantity := quantity));
      }
    } else {
      ReservedItemIsOk(between, self, row.(quantity := quantity));
      r := Ok(());
    }
  }

  lemma NothingLeftReserved(tickets: seq<Ticket>, row: OrderItem, expiresAt: Time, h: History)
    requires Reserves(tickets, row, expiresAt, h) && row.quantity == 0
    ensures Linked(tickets, row.id) == {}
  {
  }

  lemma RecordedAlike(items: map<Id, OrderItem>, records: seq<RefundedTicket>, k: Id, row: OrderItem)
    requires k in items && row.parentId == items[k].parentId
    ensures IsRecorded(items[k := row], records, k) <==> IsRecorded(items, records, k)
  {
    assert Children(items[k := row], k) == Children(items, k);
  }

  lemma WithoutIgnoresTheRow(items: map<Id, OrderItem>, k: Id, row: OrderItem)
    requires k in items && row.parentId == items[k].parentId
    ensures Without(items[k := row], k) == Without(items, k)
  {
    assert Children(items[k := row], k) == Children(items, k);
  }

  /** Raises the quantity of an item whose price has not changed. */
  method RaiseItem(conn: Connection, self: Order, row: OrderItem, quantity: u32) returns (r: Result<()>)
    requires Inv(WorldOf(conn)) && IsCart(WorldOf(conn), self) && IsCartRow(WorldOf(conn), self, row)
    requires row.quantity < quantity
    modifies conn`tickets, conn`orderItems, conn`history
    ensures r.Ok? <==>
      && InIncrements(conn.ticketTypes, row.ticketTypeId, quantity)
      && Enough(conn, old(conn.tickets), row, quantity - row.quantity)
    ensures r.Ok? ==>
      && Inv(WorldOf(conn))
      && conn.orderItems == old(conn.orderItems)[row.id := row.(quantity := quantity)]
      && conn.history == old(conn.history).(lost := conn.history.lost)
      && Undisturbed(old(WorldOf(conn)), WorldOf(conn), {row.id})
      && PoolsMoved(old(conn.tickets), conn.tickets, conn.now, conn.lockedRows, row.ticketTypeId, row.holdId, row.quantity - quantity)
  {
    hide Inv, InvBut, Reserves, Undisturbed, InIncrements, PoolsMoved, Free, IsLiveItem, Enough;
    CartRowFacts(WorldOf(conn), self, row);
    var _ :- ReserveSome(conn, self, row, quantity - ToU32(row.quantity));
    ghost var mid := WorldOf(conn);
    var _ :- UpdateQuantity(conn, self, row, quantity);
    UndisturbedTwice(old(WorldOf(conn)), mid, WorldOf(conn), {row.id}, {row.id});
    assert {row.id} + {row.id} == {row.id};
    ReservedItemIsOk(WorldOf(conn), self, row.(quantity := quantity));
    return Ok(());
  }

  /** `NewTicketsOrderItem`, before its id is known. */
  function NewTicketsItem(self: Order, ticketTypeId: Id, eventId: Id, pricing: Pricing, hold: Option<Hold>, holdId: Option<Id>,
                          quantity: u32): (row: OrderItem)
  {
    OrderItem(0, self.id, Tickets, Some(ticketTypeId), Some(eventId), quantity, PriceUnderHold(pricing.priceInCents, hold),
              Some(pricing.id), None, holdId, 0, 0, 0)
  }

  /** Discounts are floored at zero; comps are free. */
  function PriceUnderHold(price: int, hold: Option<Hold>): (cents: int)
    ensures if hold.None? then cents == price else CostsUnder(hold.value, cents, price)
    ensures 0 <= price && (hold.Some? && hold.value.discountInCents.Some? ==> 0 <= hold.value.discountInCents.value) ==>
      0 <= cents <= price
  {
    if hold.None? then price
    else match hold.value.holdType
      case Comp => 0
      case Discount =>
        var discount := if hold.value.discountInCents.Some? then hold.value.discountInCents.value else 0;
        if price - discount < 0 then 0 else price - discount
  }

  /**
    Inserts an item for `quantity` tickets and reserves `reserved` of them. When that is fewer, the price of an
    existing item had changed, and the new item is remembered as short.
   */
  method InsertAndReserve(conn: Connection, self: Order, row: OrderItem, reserved: u32) returns (r: Result<Id>)
    requires Inv(WorldOf(conn)) && IsCart(WorldOf(conn), self) && self.expiresAt.Some?
    requires row.itemType == Tickets && row.ticketTypeId.Some? && row.parentId.None? && row.orderId == self.id
    requires 0 < row.quantity < U32_SIZE && reserved <= row.quantity
    modifies conn`tickets, conn`orderItems, conn`nextId, conn`history
    ensures r.Ok? <==>
      && InIncrements(conn.ticketTypes, row.ticketTypeId, row.quantity)
      && Enough(conn, old(conn.tickets), row, reserved)
    ensures r.Ok? ==>
      && Inv(WorldOf(conn))
      && r.value !in old(conn.orderItems) && r.value == old(conn.nextId) && conn.nextId == r.value + 1
      && conn.orderItems == old(conn.orderItems)[r.value := row.(id := r.value)]
      && conn.history == Shortened(old(conn.history), r.value, row.quantity - reserved).(lost := conn.history.lost)
      && Undisturbed(old(WorldOf(conn)), WorldOf(conn), {})
      && |Linked(conn.tickets, r.value)| == reserved
      && PoolsMoved(old(conn.tickets), conn.tickets, conn.now, conn.lockedRows, row.ticketTypeId, row.holdId, -(reserved as int))
  {
    hide Inv, InvBut, Undisturbed, InIncrements, Linked, LostBy, Short, Shortened, IsLiveItem, PoolsMoved, Free;
    if !InIncrements(conn.ticketTypes, row.ticketTypeId, row.quantity) {
      return Err(ValidationError);
    }
    var inserted := InsertShort(conn, self, row, row.quantity - reserved);
    ghost var mid := WorldOf(conn);
    var _ :- FillNewItem(conn, self, inserted, reserved);
    FreshItemLeavesOthers(old(WorldOf(conn)), mid, WorldOf(conn), inserted.id);
    return Ok(inserted.id);
  }

  /** A row for which `short` tickets will never be reserved. */
  method InsertShort(conn: Connection, self: Order, row: OrderItem, ghost short: nat) returns (inserted: OrderItem)
    requires Inv(WorldOf(conn)) && IsCart(WorldOf(conn), self) && self.expiresAt.Some?
    requires row.itemType == Tickets && row.ticketTypeId.Some? && row.parentId.None? && row.orderId == self.id
    modifies conn`orderItems, conn`nextId, conn`history
    ensures inserted == row.(id := old(conn.nextId)) && inserted.id !in old(conn.orderItems)
    ensures conn.orderItems == old(conn.orderItems)[inserted.id := inserted] && conn.nextId == inserted.id + 1
    ensures conn.history == Shortened(old(conn.history), inserted.id, short)
    ensures InvBut(WorldOf(conn), {inserted.id}) && Undisturbed(old(WorldOf(conn)), WorldOf(conn), {})
    ensures SameCart(old(WorldOf(conn)), WorldOf(conn)) && IsCartRow(WorldOf(conn), self, inserted)
    ensures Linked(conn.tickets, inserted.id) == {}
    ensures Short(conn.history, inserted.id) == short && LostBy(conn.history, inserted.id) == {}
  {
    hide Inv, InvBut, Undisturbed, Linked, LostBy, Short, Shortened;
    InsertingIsSafe(WorldOf(conn), row.(id := conn.nextId), short);
    inserted := InsertItem(conn, row);
    conn.history := Shortened(conn.history, inserted.id, short);
    SameCartShortened(old(WorldOf(conn)), WorldOf(conn), inserted.id, short);
  }

  lemma SameCartShortened(w: World, after: World, k: Id, short: nat)
    requires after == w.(items := after.items, nextId := w.nextId + 1, history := Shortened(w.history, k, short))
    ensures SameCart(w, after)
  {
  }

  /** Reserves `reserved` tickets for a row that has none yet. */
  method FillNewItem(conn: Connection, self: Order, row: OrderItem, reserved: u32) returns (r: Result<()>)
    requires InvBut(WorldOf(conn), {row.id}) && IsCart(WorldOf(conn), self) && self.expiresAt.Some?
    requires IsCartRow(WorldOf(conn), self, row) && row.ticketTypeId.Some? && Linked(conn.tickets, row.id) == {}
    requires 0 < row.quantity < U32_SIZE && reserved <= row.quantity
    requires Short(conn.history, row.id) == row.quantity - reserved && LostBy(conn.history, row.id) == {}
    modifies conn`tickets, conn`history
    ensures r.Ok? <==> Enough(conn, old(conn.tickets), row, reserved)
    ensures r.Ok? ==>
      && Inv(WorldOf(conn))
      && conn.history == old(conn.history).(lost := conn.history.lost)
      && Undisturbed(old(WorldOf(conn)), WorldOf(conn), {row.id})
      && |Linked(conn.tickets, row.id)| == reserved
      && PoolsMoved(old(conn.tickets), conn.tickets, conn.now, conn.lockedRows, row.ticketTypeId, row.holdId, -(reserved as int))
  {
    NothingReservedYet(conn.tickets, row.(quantity := row.quantity - reserved), self.expiresAt.value, conn.history);
    hide Inv, InvBut, Reserves, Undisturbed, Linked, LostBy, Short, PoolsMoved, Free;
    var _ :- ReserveSome(conn, self, row.(quantity := row.quantity - reserved), reserved);
    assert row.(quantity := row.quantity - reserved + reserved) == row;
    ReservedItemIsOk(WorldOf(conn), self, row);
    ReservedExactly(old(conn.history), WorldOf(conn), row, reserved, self.expiresAt.value);
    return Ok(());
  }

  lemma ReservedExactly(h: History, w: World, row: OrderItem, reserved: nat, expiresAt: Time)
    requires Reserves(w.tickets, row, expiresAt, w.history)
    requires w.history == h.(lost := w.history.lost) && Short(h, row.id) == row.quantity - reserved
    ensures |Linked(w.tickets, row.id)| == reserved
  {
  }

  lemma NothingReservedYet(tickets: seq<Ticket>, row: OrderItem, expiresAt: Time, h: History)
    requires Linked(tickets, row.id) == {} && row.quantity == Short(h, row.id) && LostBy(h, row.id) == {}
    ensures Reserves(tickets, row, expiresAt, h)
  {
  }

  lemma FreshItemLeavesOthers(a: World, b: World, c: World, k: Id)
    requires SameCart(a, b) && k !in a.items
    requires Undisturbed(a, b, {}) && Undisturbed(b, c, {k})
    ensures Undisturbed(a, c, {})
  {
    UndisturbedTwice(a, b, c, {}, {k});
    assert forall j :: IsLiveItem(a, j) ==> j != k;
  }
}
