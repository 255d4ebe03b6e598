/**
  What the reservation code keeps true of carts, sold orders and tickets: no ticket is in two
  places, and whoever holds a live cart or a settled order holds all of its tickets.
 */
module Inventory {
  import opened Schema
  import opened Sets
  import opened OrderItems
  import opened OrderRows
  import opened TicketInstances

  /** The tables and the clock that the reservation invariant speaks about. */
  datatype World = World(
    orders: map<Id, Order>,
    items: map<Id, OrderItem>,
    tickets: seq<Ticket>,
    nextId: Id,
    now: Time,
    history: History)

  ghost function WorldOf(conn: Connection): (w: World)
    reads conn
  {
    World(conn.orders, conn.orderItems, conn.tickets, conn.nextId, conn.now, conn.history)
  }

  // ------------------------------------------------------------ the invariant

  /** An order whose reservations count: not paid in full, and not past its expiry. */
  predicate Live(order: Order, now: Time) {
    order.status in {Draft, PartiallyPaid} && order.expiresAt.Some? && now <= order.expiresAt.value
  }

  /** By how many tickets the item was inserted short of its quantity. */
  function Short(h: History, k: Id): (n: nat) {
    if k in h.repriced then h.repriced[k] else 0
  }

  /** The tickets the item has lost after they had been sold it. */
  ghost function LostBy(h: History, k: Id): (rows: set<Id>) {
    set loss | loss in h.lost && loss.0 == k :: loss.1
  }

  /** But for what it was short of from the start, the item holds its quantity of tickets, reserved until the order expires. */
  ghost predicate Reserves(tickets: seq<Ticket>, item: OrderItem, expiresAt: Time, h: History) {
    && |Linked(tickets, item.id)| + Short(h, item.id) == item.quantity
    && LostBy(h, item.id) == {}
    && forall i :: i in Linked(tickets, item.id) ==>
       && tickets[i].status == Reserved
       && tickets[i].reservedUntil == Some(expiresAt)
       && Some(tickets[i].ticketTypeId) == item.ticketTypeId
       && tickets[i].holdId == item.holdId
  }

  /** The item has been sold its quantity of tickets, of which it may have lost some since. */
  ghost predicate Sold(tickets: seq<Ticket>, item: OrderItem, h: History) {
    && Linked(tickets, item.id) !! LostBy(h, item.id)
    && |Linked(tickets, item.id)| + |LostBy(h, item.id)| + Short(h, item.id) == item.quantity
    && forall i :: i in Linked(tickets, item.id) ==>
       && tickets[i].status in {Purchased, Redeemed}
       && Some(tickets[i].ticketTypeId) == item.ticketTypeId
  }

  /** A Tickets item has what its order promises. */
  ghost predicate ItemOk(w: World, k: Id)
    requires k in w.items && w.items[k].orderId in w.orders
  {
    var item, order := w.items[k], w.orders[w.items[k].orderId];
    && 0 < item.quantity < U32_SIZE
    && (Live(order, w.now) ==> Reserves(w.tickets, item, order.expiresAt.value, w.history))
    && (order.id in w.history.settled ==> Sold(w.tickets, item, w.history))
  }

  ghost predicate OrdersOk(w: World) {
    && (forall o :: o in w.orders ==> w.orders[o].id == o && o < w.nextId)
    && (forall o :: o in w.history.settled ==> o in w.orders && w.orders[o].status == Paid)
  }

  /** Items belong to orders, and an order without an expiry has none. */
  ghost predicate ItemsHaveOrders(w: World) {
    forall k :: k in w.items ==> w.items[k].orderId in w.orders && w.orders[w.items[k].orderId].expiresAt.Some?
  }

  /** Tickets are linked to Tickets items; Available and Nullified tickets are linked to nothing. */
  ghost predicate LinksOk(w: World) {
    forall i: Id :: i < |w.tickets| ==>
      && (w.tickets[i].orderItemId.Some? ==>
            w.tickets[i].orderItemId.value in w.items && w.items[w.tickets[i].orderItemId.value].itemType == Tickets)
      && (w.tickets[i].status in {Available, Nullified} ==> w.tickets[i].orderItemId.None?)
  }

  /** A ticket that is linked and Reserved is reserved for exactly as long as the order of its item has, or had. */
  ghost predicate ReservationsOk(w: World) {
    forall i: Id :: i < |w.tickets| && w.tickets[i].orderItemId.Some? && w.tickets[i].status == Reserved ==>
      IsReservedFor(w, w.tickets[i])
  }

  ghost predicate IsReservedFor(w: World, t: Ticket)
    requires t.orderItemId.Some?
  {
    t.orderItemId.value in w.items && w.items[t.orderItemId.value].orderId in w.orders
    ==> t.reservedUntil == w.orders[w.items[t.orderItemId.value].orderId].expiresAt
  }

  /** The history is about items there have been. */
  ghost predicate HistoryOk(w: World) {
    && (forall loss :: loss in w.history.lost ==> loss.0 < w.nextId)
    && (forall k :: k in w.history.repriced ==> k < w.nextId)
  }

  ghost predicate Frame(w: World) {
    && Structured(w.items, w.nextId) && OneFeeEach(w.items) && OrdersOk(w) && ItemsHaveOrders(w) && LinksOk(w)
    && ReservationsOk(w) && HistoryOk(w)
  }

  /** Everything, with the items in `except` excused. */
  ghost predicate InvBut(w: World, except: set<Id>) {
    Frame(w) && forall k :: k in w.items && w.items[k].itemType == Tickets && k !in except ==> ItemOk(w, k)
  }

  ghost predicate Inv(w: World) {
    InvBut(w, {})
  }

  lemma InvFromParts(w: World, k: Id)
    requires InvBut(w, {k})
    requires k in w.items && w.items[k].itemType == Tickets ==> ItemOk(w, k)
    ensures Inv(w)
  {
  }

  // ------------------------------------------------------------ what one step leaves alone

  predicate IsLiveItem(w: World, k: Id) {
    && k in w.items && w.items[k].itemType == Tickets
    && w.items[k].orderId in w.orders && Live(w.orders[w.items[k].orderId], w.now)
  }

  ghost predicate KeepsItem(w: World, after: World, k: Id)
    requires k in w.items
  {
    && k in after.items && after.items[k] == w.items[k]
    && Linked(after.tickets, k) == Linked(w.tickets, k)
    && forall i :: i in Linked(w.tickets, k) ==> i < |after.tickets| && after.tickets[i] == w.tickets[i]
  }

  /** Somebody has started to pay for the order. */
  predicate IsPastDraft(w: World, o: Id) {
    o in w.orders && w.orders[o].status != Draft
  }

  /** The rows of an order, fees and all, are the same in both tables. */
  ghost predicate KeepsRows(before: map<Id, OrderItem>, after: map<Id, OrderItem>, o: Id) {
    forall k {:trigger k in before} {:trigger k in after} ::
      (k in before && before[k].orderId == o) || (k in after && after[k].orderId == o) ==>
        k in before && k in after && after[k] == before[k]
  }

  /** No ticket changed its type, its token or the hold it is in. */
  ghost predicate SamePlaces(before: seq<Ticket>, after: seq<Ticket>) {
    && |after| == |before|
    && forall i: Id {:trigger after[i]} {:trigger before[i]} :: i < |after| ==>
       && after[i].ticketTypeId == before[i].ticketTypeId && after[i].tokenId == before[i].tokenId
       && after[i].holdId == before[i].holdId
  }

  /**
    What the history gains: the losses of sold tickets, all of which were redeemed, with their reservation run out; and
    shortages of new items. Nobody redeems a ticket on the way.
   */
  ghost predicate RecordsLittle(w: World, after: World) {
    && w.history.settled <= after.history.settled
    && w.history.lost <= after.history.lost
    && (forall loss :: loss in after.history.lost - w.history.lost ==> IsRedeemedLoss(w.tickets, loss, w.now))
    && |after.tickets| == |w.tickets| && SoldStay(w.tickets, after.tickets, after.history.lost)
    && (forall i: Id {:trigger after.tickets[i]} :: i < |after.tickets| && after.tickets[i].status == Redeemed ==>
          after.tickets[i] == w.tickets[i])
    && (forall k :: k in w.history.repriced ==> k in after.history.repriced && after.history.repriced[k] == w.history.repriced[k])
    && (forall k :: k in after.history.repriced && k !in w.history.repriced ==> w.nextId <= k < after.nextId)
  }

  /** A redeemed ticket taken from the item it was sold to. */
  predicate IsRedeemedLoss(tickets: seq<Ticket>, loss: (Id, Id), now: Time) {
    && loss.1 < |tickets| && tickets[loss.1].orderItemId == Some(loss.0)
    && tickets[loss.1].status == Redeemed && Before(tickets[loss.1].reservedUntil, now)
  }

  /**
    Live items outside `except` keep their row and their tickets, and stay live. Orders past draft keep all of their
    rows, and stay past draft. Tickets stay in the holds they are in. Ids are not handed out again, and
    the history gains no more than it must.
   */
  ghost predicate Undisturbed(w: World, after: World, except: set<Id>) {
    && (forall k :: IsLiveItem(w, k) && k !in except ==> KeepsItem(w, after, k) && IsLiveItem(after, k))
    && (forall o :: IsPastDraft(w, o) ==> IsPastDraft(after, o) && KeepsRows(w.items, after.items, o))
    && SamePlaces(w.tickets, after.tickets)
    && w.nextId <= after.nextId && after.now == w.now
    && RecordsLittle(w, after)
  }

  lemma RecordsLittleTwice(a: World, b: World, c: World)
    requires RecordsLittle(a, b) && RecordsLittle(b, c) && a.now == b.now && a.nextId <= b.nextId <= c.nextId
    ensures RecordsLittle(a, c)
  {
    forall loss | loss in c.history.lost - a.history.lost ensures IsRedeemedLoss(a.tickets, loss, a.now) {
      if loss !in b.history.lost {
        assert IsRedeemedLoss(b.tickets, loss, b.now);
      }
    }
    forall i: Id | i < |c.tickets| && c.tickets[i].status == Redeemed ensures c.tickets[i] == a.tickets[i] {
      assert c.tickets[i] == b.tickets[i];
    }
  }

  lemma UndisturbedTwice(a: World, b: World, c: World, e1: set<Id>, e2: set<Id>)
    requires Undisturbed(a, b, e1) && Undisturbed(b, c, e2)
    ensures Undisturbed(a, c, e1 + e2)
  {
    forall k | IsLiveItem(a, k) && k !in e1 + e2 ensures KeepsItem(a, c, k) && IsLiveItem(c, k) {
      assert KeepsItem(a, b, k) && KeepsItem(b, c, k);
    }
    forall o | IsPastDraft(a, o) ensures IsPastDraft(c, o) && KeepsRows(a.items, c.items, o) {
      assert KeepsRows(a.items, b.items, o) && KeepsRows(b.items, c.items, o);
    }
    RecordsLittleTwice(a, b, c);
    hide RecordsLittle, KeepsItem, KeepsRows;
  }

  lemma NothingChanged(w: World, except: set<Id>)
    ensures Undisturbed(w, w, except)
  {
  }

  // ------------------------------------------------------------ reserving

  /** `picked` is reserved for item `k`; the rest of the world is as it was. */
  ghost predicate ReservedFor(w: World, after: World, k: Id, picked: set<Id>, expiresAt: Time, ticketTypeId: Id, holdId: Option<Id>) {
    && picked <= RowsWhere(w.tickets, TakeableWhere(ticketTypeId, holdId, w.now))
    && Rewritten(w.tickets, after.tickets, picked, ReserveRow(k, expiresAt, w.now))
    && after == w.(tickets := after.tickets,
                   history := w.history.(lost := w.history.lost + SoldBy(w.tickets, picked)))
  }

  lemma ReservingTakesNothingLive(w: World, after: World, k: Id, picked: set<Id>, expiresAt: Time, ticketTypeId: Id,
                                  holdId: Option<Id>, j: Id)
    requires ReservedFor(w, after, k, picked, expiresAt, ticketTypeId, holdId) && j != k
    requires IsLiveItem(w, j) && ItemOk(w, j) && Frame(w)
    ensures KeepsItem(w, after, j) && LostBy(after.history, j) == LostBy(w.history, j)
  {
    hide LostBy, SoldBy, Linked, Frame, ItemOk, KeepsItem;
    NothingLiveIsTakeable(w, picked, ticketTypeId, holdId, j);
    LossesOf(w.history, w.tickets, picked, j);
    assert picked * Linked(w.tickets, j) == {};
    LeavesLinked(w, after, k, picked, expiresAt, j);
    assert LostBy(after.history, j) == LostBy(w.history, j) + {};
  }

  /** The tickets of a live item are reserved, and their reservation has not lapsed. */
  lemma NothingLiveIsTakeable(w: World, picked: set<Id>, ticketTypeId: Id, holdId: Option<Id>, j: Id)
    requires picked <= RowsWhere(w.tickets, TakeableWhere(ticketTypeId, holdId, w.now))
    requires IsLiveItem(w, j) && ItemOk(w, j) && Frame(w)
    ensures picked !! Linked(w.tickets, j)
  {
    assert w.items[j].id == j by { FrameKeys(w, j); }
    hide Frame, LostBy, Short;
  }

  lemma LeavesLinked(w: World, after: World, k: Id, picked: set<Id>, expiresAt: Time, j: Id)
    requires Rewritten(w.tickets, after.tickets, picked, ReserveRow(k, expiresAt, w.now)) && j != k
    requires picked !! Linked(w.tickets, j) && j in w.items && after.items == w.items
    requires forall i :: i in picked ==> i < |w.tickets|
    ensures KeepsItem(w, after, j)
  {
    LinkedAfterReserve(w.tickets, after.tickets, picked, k, expiresAt, w.now);
    assert Linked(after.tickets, j) == Linked(w.tickets, j);
  }

  /** A settled item loses no ticket that is not put on record. */
  lemma ReservingKeepsSold(w: World, after: World, k: Id, picked: set<Id>, expiresAt: Time, ticketTypeId: Id,
                           holdId: Option<Id>, j: Id)
    requires ReservedFor(w, after, k, picked, expiresAt, ticketTypeId, holdId) && j != k
    requires j in w.items && w.items[j].id == j && Sold(w.tickets, w.items[j], w.history)
    ensures Sold(after.tickets, w.items[j], after.history)
  {
    hide ReservedFor, Sold, LostBy, SoldBy, Linked;
    var taken := picked * Linked(w.tickets, j);
    LosingSold(w, after, k, picked, expiresAt, ticketTypeId, holdId, j);
    SoldLess(w.tickets, after.tickets, w.items[j], w.history, after.history, taken);
  }

  lemma LosingSold(w: World, after: World, k: Id, picked: set<Id>, expiresAt: Time, ticketTypeId: Id, holdId: Option<Id>, j: Id)
    requires ReservedFor(w, after, k, picked, expiresAt, ticketTypeId, holdId) && j != k
    requires j in w.items && w.items[j].id == j && Sold(w.tickets, w.items[j], w.history)
    ensures LostBy(after.history, j) == LostBy(w.history, j) + picked * Linked(w.tickets, j)
    ensures Linked(after.tickets, j) == Linked(w.tickets, j) - picked * Linked(w.tickets, j)
    ensures SameRows(w.tickets, after.tickets, Linked(after.tickets, j))
    ensures Short(after.history, j) == Short(w.history, j)
  {
    hide LostBy, SoldBy, Linked, Sold, TakeableWhere, ReserveRow;
    LossesOf(w.history, w.tickets, picked, j);
    AllSold(w.tickets, w.items[j], w.history, picked);
    LosingRows(w.tickets, after.tickets, picked, k, expiresAt, w.now, j);
  }

  lemma AllSold(tickets: seq<Ticket>, item: OrderItem, h: History, picked: set<Id>)
    requires Sold(tickets, item, h)
    ensures (set i | i in picked * Linked(tickets, item.id) && tickets[i].status in {Purchased, Redeemed}) == picked * Linked(tickets, item.id)
  {
    hide LostBy, Short;
  }

  lemma LosingRows(before: seq<Ticket>, after: seq<Ticket>, picked: set<Id>, k: Id, expiresAt: Time, now: Time, j: Id)
    requires Rewritten(before, after, picked, ReserveRow(k, expiresAt, now)) && j != k
    requires forall i :: i in picked ==> i < |before|
    ensures Linked(after, j) == Linked(before, j) - picked * Linked(before, j)
    ensures SameRows(before, after, Linked(after, j))
  {
    LinkedAfterReserve(before, after, picked, k, expiresAt, now);
    assert Linked(before, j) - picked == Linked(before, j) - picked * Linked(before, j);
  }

  lemma SoldLess(before: seq<Ticket>, after: seq<Ticket>, item: OrderItem, h: History, h': History, taken: set<Id>)
    requires Sold(before, item, h) && taken <= Linked(before, item.id)
    requires LostBy(h', item.id) == LostBy(h, item.id) + taken && Short(h', item.id) == Short(h, item.id)
    requires Linked(after, item.id) == Linked(before, item.id) - taken && SameRows(before, after, Linked(after, item.id))
    ensures Sold(after, item, h')
  {
    hide LostBy, Linked, Short;
    MovedOver(Linked(before, item.id), LostBy(h, item.id), taken);
  }

  lemma MovedOver(linked: set<Id>, lost: set<Id>, taken: set<Id>)
    requires taken <= linked && linked !! lost
    ensures |linked - taken| + |lost + taken| == |linked| + |lost| && linked - taken !! lost + taken
  {
    DisjointUnionSize(lost, taken);
    DisjointUnionSize(linked - taken, taken);
    assert (linked - taken) + taken == linked;
  }

  ghost predicate SameRows(before: seq<Ticket>, after: seq<Ticket>, rows: set<Id>) {
    |after| == |before| && forall i :: i in rows ==> i < |after| && after[i] == before[i]
  }

  /** What an item loses when `picked` is taken are the sold ones of its tickets among them. */
  lemma LossesOf(h: History, tickets: seq<Ticket>, picked: set<Id>, j: Id)
    ensures LostBy(h.(lost := h.lost + SoldBy(tickets, picked)), j)
         == LostBy(h, j) + set i | i in picked * Linked(tickets, j) && tickets[i].status in {Purchased, Redeemed}
  {
    var h' := h.(lost := h.lost + SoldBy(tickets, picked));
    var taken := set i | i in picked * Linked(tickets, j) && tickets[i].status in {Purchased, Redeemed};
    forall i ensures i in LostBy(h', j) <==> i in LostBy(h, j) + taken {
      if i in taken {
        assert (j, i) in SoldBy(tickets, picked);
      }
      if i in LostBy(h, j) {
        assert (j, i) in h.lost;
        assert (j, i) in h'.lost;
      }
    }
  }

  lemma ReservingKeepsItem(w: World, after: World, k: Id, picked: set<Id>, expiresAt: Time, ticketTypeId: Id,
                           holdId: Option<Id>, j: Id)
    requires ReservedFor(w, after, k, picked, expiresAt, ticketTypeId, holdId) && j != k
    requires Frame(w) && j in w.items && w.items[j].itemType == Tickets && ItemOk(w, j)
    ensures ItemOk(after, j)
  {
    hide ReservedFor, Linked, LostBy, SoldBy, Structured, OneFeeEach, LinksOk;
    assert after.orders == w.orders && after.items == w.items && after.now == w.now
      && after.history.settled == w.history.settled && after.history.repriced == w.history.repriced by {
      ReservedForFrame(w, after, k, picked, expiresAt, ticketTypeId, holdId);
    }
    assert w.items[j].id == j by { FrameKeys(w, j); }
    if IsLiveItem(w, j) {
      ReservingTakesNothingLive(w, after, k, picked, expiresAt, ticketTypeId, holdId, j);
    }
    if w.orders[w.items[j].orderId].id in w.history.settled {
      ReservingKeepsSold(w, after, k, picked, expiresAt, ticketTypeId, holdId, j);
      ReservedForFrame(w, after, k, picked, expiresAt, ticketTypeId, holdId);
    }
  }

  lemma ReservedForFrame(w: World, after: World, k: Id, picked: set<Id>, expiresAt: Time, ticketTypeId: Id, holdId: Option<Id>)
    requires ReservedFor(w, after, k, picked, expiresAt, ticketTypeId, holdId)
    ensures after == w.(tickets := after.tickets, history := after.history)
    ensures after.history == w.history.(lost := w.history.lost + SoldBy(w.tickets, picked))
  {
  }

  lemma FrameKeys(w: World, j: Id)
    requires Frame(w) && j in w.items
    ensures w.items[j].id == j && w.items[j].orderId in w.orders && w.orders[w.items[j].orderId].id == w.items[j].orderId
  {
  }

  lemma ReservingIsSafe(w: World, after: World, k: Id, picked: set<Id>, expiresAt: Time, ticketTypeId: Id, holdId: Option<Id>)
    requires InvBut(w, {k}) && k in w.items && w.items[k].itemType == Tickets && ExpiresAt(w, k, expiresAt)
    requires ReservedFor(w, after, k, picked, expiresAt, ticketTypeId, holdId)
    ensures InvBut(after, {k}) && Undisturbed(w, after, {k})
  {
    ReservingKeepsFrame(w, after, k, picked, expiresAt, ticketTypeId, holdId);
    forall j | j in w.items && w.items[j].itemType == Tickets && j != k ensures ItemOk(after, j) {
      ReservingKeepsItem(w, after, k, picked, expiresAt, ticketTypeId, holdId, j);
    }
    forall j | IsLiveItem(w, j) && j != k ensures KeepsItem(w, after, j) {
      ReservingTakesNothingLive(w, after, k, picked, expiresAt, ticketTypeId, holdId, j);
    }
    ReservedForFrame(w, after, k, picked, expiresAt, ticketTypeId, holdId);
    ReservingRecordsLittle(w, after, k, picked, expiresAt, ticketTypeId, holdId);
    hide Frame, ItemOk, ReservedFor, KeepsItem, RecordsLittle, SoldBy;
  }

  /** The order of the item expires then. */
  predicate ExpiresAt(w: World, k: Id, expiresAt: Time) {
    k in w.items && w.items[k].orderId in w.orders && w.orders[w.items[k].orderId].expiresAt == Some(expiresAt)
  }

  lemma ReservingRecordsLittle(w: World, after: World, k: Id, picked: set<Id>, expiresAt: Time, ticketTypeId: Id, holdId: Option<Id>)
    requires ReservedFor(w, after, k, picked, expiresAt, ticketTypeId, holdId)
    ensures RecordsLittle(w, after) && SamePlaces(w.tickets, after.tickets)
  {
  }

  lemma ReservingKeepsFrame(w: World, after: World, k: Id, picked: set<Id>, expiresAt: Time, ticketTypeId: Id, holdId: Option<Id>)
    requires Frame(w) && k in w.items && w.items[k].itemType == Tickets && ExpiresAt(w, k, expiresAt)
    requires ReservedFor(w, after, k, picked, expiresAt, ticketTypeId, holdId)
    ensures Frame(after)
  {
    hide Structured, OneFeeEach;
    assert HistoryOk(after) by {
      ItemsAreOld(w);
    }
  }

  lemma ItemsAreOld(w: World)
    requires Frame(w)
    ensures forall k :: k in w.items ==> k < w.nextId
    ensures forall i: Id :: i < |w.tickets| && w.tickets[i].orderItemId.Some? ==> w.tickets[i].orderItemId.value < w.nextId
  {
  }

  /** The item itself ends up with its tickets and the picked ones. */
  lemma ReservingAddsTo(w: World, after: World, item: OrderItem, picked: set<Id>, expiresAt: Time)
    requires item.ticketTypeId.Some? && w.now <= expiresAt
    requires ReservedFor(w, after, item.id, picked, expiresAt, item.ticketTypeId.value, item.holdId)
    requires Reserves(w.tickets, item, expiresAt, w.history)
    ensures Reserves(after.tickets, item.(quantity := item.quantity + |picked|), expiresAt, after.history)
  {
    LossesOf(w.history, w.tickets, picked, item.id);
    LinkedAfterReserve(w.tickets, after.tickets, picked, item.id, expiresAt, w.now);
    assert picked !! Linked(w.tickets, item.id);
    hide LostBy, SoldBy;
    assert LostBy(after.history, item.id) == LostBy(w.history, item.id);
    ReservedMore(w.tickets, after.tickets, item, picked, expiresAt, w.now, w.history, after.history);
  }

  lemma ReservedMore(before: seq<Ticket>, after: seq<Ticket>, item: OrderItem, picked: set<Id>, expiresAt: Time, now: Time,
                     h: History, h': History)
    requires item.ticketTypeId.Some? && Reserves(before, item, expiresAt, h)
    requires picked <= RowsWhere(before, TakeableWhere(item.ticketTypeId.value, item.holdId, now)) && picked !! Linked(before, item.id)
    requires Rewritten(before, after, picked, ReserveRow(item.id, expiresAt, now))
    requires Linked(after, item.id) == Linked(before, item.id) + picked
    requires LostBy(h', item.id) == LostBy(h, item.id) && Short(h', item.id) == Short(h, item.id)
    ensures Reserves(after, item.(quantity := item.quantity + |picked|), expiresAt, h')
  {
    hide LostBy, Short;
    DisjointUnionSize(Linked(before, item.id), picked);
  }

  // ------------------------------------------------------------ releasing

  ghost predicate ReleasedFrom(w: World, after: World, k: Id, picked: set<Id>) {
    && picked <= RowsWhere(w.tickets, ReleasableWhere(Some(k), Reserved, None))
    && Rewritten(w.tickets, after.tickets, picked, ReleaseRow(w.now))
    && after == w.(tickets := after.tickets)
  }

  lemma ReleasingKeepsItem(w: World, after: World, k: Id, picked: set<Id>, j: Id)
    requires ReleasedFrom(w, after, k, picked) && j in w.items && j != k
    ensures KeepsItem(w, after, j)
    ensures j == w.items[j].id && w.items[j].orderId in w.orders && ItemOk(w, j) ==> ItemOk(after, j)
  {
    LinkedAfterRelease(w.tickets, after.tickets, picked, w.now);
    assert picked !! Linked(w.tickets, j);
    assert Linked(after.tickets, j) == Linked(w.tickets, j);
  }

  lemma ReleasingIsSafe(w: World, after: World, k: Id, picked: set<Id>)
    requires InvBut(w, {k}) && ReleasedFrom(w, after, k, picked)
    ensures InvBut(after, {k}) && Undisturbed(w, after, {k})
  {
    ReleasingKeepsFrame(w, after, k, picked);
    forall j | j in w.items && j != k
      ensures KeepsItem(w, after, j)
      ensures w.items[j].itemType == Tickets ==> ItemOk(after, j)
    {
      ReleasingKeepsItem(w, after, k, picked, j);
      FrameKeys(w, j);
    }
    hide Frame, ItemOk, ReleasedFrom, KeepsItem;
  }

  lemma ReleasingKeepsFrame(w: World, after: World, k: Id, picked: set<Id>)
    requires Frame(w) && ReleasedFrom(w, after, k, picked)
    ensures Frame(after) && after.items == w.items
  {
    hide Structured, OneFeeEach;
  }

  lemma ReleasingTakesFrom(w: World, after: World, item: OrderItem, picked: set<Id>, expiresAt: Time)
    requires ReleasedFrom(w, after, item.id, picked)
    requires Reserves(w.tickets, item, expiresAt, w.history)
    ensures Reserves(after.tickets, item.(quantity := item.quantity - |picked|), expiresAt, after.history)
  {
    LinkedAfterRelease(w.tickets, after.tickets, picked, w.now);
    SubsetSize(picked, Linked(w.tickets, item.id));
  }

  // ------------------------------------------------------------ changing rows of order_items

  lemma ChangingQuantityIsSafe(w: World, k: Id, quantity: int)
    requires InvBut(w, {k}) && k in w.items && w.items[k].itemType == Tickets && !IsPastDraft(w, w.items[k].orderId)
    ensures
      var after := w.(items := w.items[k := w.items[k].(quantity := quantity)]);
      InvBut(after, {k}) && Undisturbed(w, after, {k})
  {
    var after := w.(items := w.items[k := w.items[k].(quantity := quantity)]);
    ChangingQuantityKeepsFrame(w, k, quantity);
    ChangingQuantityDisturbsNobody(w, k, quantity);
    hide Frame, Undisturbed;
    forall j | j in w.items && w.items[j].itemType == Tickets && j != k ensures ItemOk(after, j) {
      assert ItemOk(w, j);
    }
  }

  lemma ChangingQuantityKeepsFrame(w: World, k: Id, quantity: int)
    requires Frame(w) && k in w.items
    ensures Frame(w.(items := w.items[k := w.items[k].(quantity := quantity)]))
  {
  }

  lemma ChangingQuantityDisturbsNobody(w: World, k: Id, quantity: int)
    requires k in w.items && !IsPastDraft(w, w.items[k].orderId)
    ensures Undisturbed(w, w.(items := w.items[k := w.items[k].(quantity := quantity)]), {k})
  {
  }

  /** The history with a new item on record as short, if it is. */
  function Shortened(h: History, k: Id, n: nat): (r: History) {
    if n == 0 then h else h.(repriced := h.repriced[k := n])
  }

  /** A new item of which `short` tickets will never be reserved. */
  lemma InsertingIsSafe(w: World, row: OrderItem, short: nat)
    requires Inv(w) && row.id == w.nextId && row.itemType == Tickets && row.ticketTypeId.Some? && row.parentId.None?
    requires row.orderId in w.orders && w.orders[row.orderId].expiresAt.Some? && !IsPastDraft(w, row.orderId)
    ensures
      var after := w.(items := w.items[row.id := row], nextId := w.nextId + 1, history := Shortened(w.history, row.id, short));
      && InvBut(after, {row.id}) && Undisturbed(w, after, {})
      && row.id !in w.items && Linked(after.tickets, row.id) == {}
      && Short(after.history, row.id) == short && LostBy(after.history, row.id) == {}
  {
    var after := w.(items := w.items[row.id := row], nextId := w.nextId + 1, history := Shortened(w.history, row.id, short));
    InsertingKeepsFrame(w, row, short);
    hide Frame, Linked, LostBy, Structured;
    NothingOfNewItems(w);
    forall j | j in w.items && w.items[j].itemType == Tickets ensures ItemOk(after, j) {
      assert ItemOk(w, j);
      FrameKeys(w, j);
    }
    hide ItemOk;
    InsertingDisturbsNobody(w, row, short);
    hide Undisturbed;
  }

  lemma InsertingDisturbsNobody(w: World, row: OrderItem, short: nat)
    requires row.id == w.nextId && w.nextId !in w.items && w.nextId !in w.history.repriced && !IsPastDraft(w, row.orderId)
    ensures Undisturbed(w, w.(items := w.items[row.id := row], nextId := w.nextId + 1,
                              history := Shortened(w.history, row.id, short)), {})
  {
  }

  lemma NothingOfNewItems(w: World)
    requires Frame(w)
    ensures w.nextId !in w.items && w.nextId !in w.history.repriced
    ensures Linked(w.tickets, w.nextId) == {} && LostBy(w.history, w.nextId) == {}
  {
    ItemsAreOld(w);
  }

  lemma InsertingKeepsFrame(w: World, row: OrderItem, short: nat)
    requires Frame(w) && row.id == w.nextId && row.itemType == Tickets && row.ticketTypeId.Some? && row.parentId.None?
    requires row.orderId in w.orders && w.orders[row.orderId].expiresAt.Some?
    ensures Frame(w.(items := w.items[row.id := row], nextId := w.nextId + 1, history := Shortened(w.history, row.id, short)))
  {
    InsertStaysStructured(w.items, w.nextId, row);
  }

  /** Deleting an item no ticket refers to. */
  lemma DestroyingIsSafe(w: World, k: Id, records: seq<RefundedTicket>)
    requires InvBut(w, {k}) && k in w.items && w.items[k].itemType == Tickets && !IsPastDraft(w, w.items[k].orderId)
    requires !Referenced(w.items, w.tickets, records, {k} + Children(w.items, k))
    ensures
      var after := w.(items := Without(w.items, k));
      Inv(after) && Undisturbed(w, after, {k})
  {
    var after := w.(items := Without(w.items, k));
    ChildrenAreFees(w.items, w.nextId, k);
    DestroyingKeepsFrame(w, k, records);
    DestroyingDisturbsNobody(w, k);
    hide Frame, Undisturbed;
    forall j | j in after.items && after.items[j].itemType == Tickets ensures ItemOk(after, j) {
      assert ItemOk(w, j);
    }
  }

  lemma DestroyingKeepsFrame(w: World, k: Id, records: seq<RefundedTicket>)
    requires Frame(w) && k in w.items && !Referenced(w.items, w.tickets, records, {k} + Children(w.items, k))
    ensures Frame(w.(items := Without(w.items, k)))
  {
    WithoutStaysStructured(w.items, w.nextId, k);
    forall i: Id | i < |w.tickets| && w.tickets[i].orderItemId.Some?
      ensures w.tickets[i].orderItemId.value in Without(w.items, k)
    {
      assert w.tickets[i] in w.tickets;
    }
  }

  lemma DestroyingDisturbsNobody(w: World, k: Id)
    requires Frame(w) && k in w.items && w.items[k].itemType == Tickets && !IsPastDraft(w, w.items[k].orderId)
    ensures Undisturbed(w, w.(items := Without(w.items, k)), {k})
  {
    ChildrenAreFees(w.items, w.nextId, k);
  }

  lemma ChildrenAreFees(items: map<Id, OrderItem>, nextId: Id, k: Id)
    requires Structured(items, nextId)
    ensures forall f :: f in Children(items, k) ==> items[f].itemType == PerUnitFees
  {
  }

  // ------------------------------------------------------------ changing a row of orders

  /** An order row may change while its status and expiry stay, or while it has no items. */
  lemma ReplacingOrderIsSafe(w: World, row: Order)
    requires Inv(w) && row.id in w.orders
    requires row.status == w.orders[row.id].status
    requires row.expiresAt == w.orders[row.id].expiresAt || ItemsOf(w.items, row.id) == {}
    ensures
      var after := w.(orders := w.orders[row.id := row]);
      Inv(after) && Undisturbed(w, after, {})
  {
    var after := w.(orders := w.orders[row.id := row]);
    forall k | k in w.items ensures w.items[k].orderId == row.id ==>
      row.status == w.orders[row.id].status && row.expiresAt == w.orders[row.id].expiresAt
    {
      if w.items[k].orderId == row.id {
        assert k in ItemsOf(w.items, row.id);
      }
    }
    assert Frame(after) by {
      hide ItemOk, Structured, OneFeeEach, LinksOk;
    }
    hide Frame;
    forall k | k in w.items && w.items[k].itemType == Tickets ensures ItemOk(after, k) {
      assert ItemOk(w, k);
      FrameKeys(w, k);
    }
  }
}
