/**
  What becomes of the tickets of orders that were not paid for in time (db/src/queries/reserve_tickets.sql:7-14): they can be
  had again, all of them, by whoever asks next.
 */
module AbandonedCarts {
  import opened Schema
  import opened Cart
  import opened Inventory
  import opened Pools
  import opened Requests
  import opened Runs
  import opened Sets
  import opened TicketInstances

  /** A ticket can be taken if nobody has it; and, unless it is Purchased, once its reservation has run out, whatever its status. */
  lemma WhenATicketIsTakeable(t: Ticket, ticketTypeId: Id, holdId: Option<Id>, now: Time)
    ensures Takeable(t, ticketTypeId, holdId, now) ==> t.ticketTypeId == ticketTypeId && t.holdId == holdId
    ensures t.ticketTypeId == ticketTypeId && t.holdId == holdId ==>
      && (t.orderItemId.None? ==> Takeable(t, ticketTypeId, holdId, now))
      && (t.orderItemId.Some? && t.status == Purchased ==> !Takeable(t, ticketTypeId, holdId, now))
      && (t.orderItemId.Some? && t.status != Purchased ==>
            (Takeable(t, ticketTypeId, holdId, now) <==> t.reservedUntil.Some? && t.reservedUntil.value < now))
  {
  }

  /** Not paid for, and past its expiry. */
  ghost predicate IsAbandoned(order: Order, now: Time) {
    order.status in {Draft, PartiallyPaid} && order.expiresAt.Some? && order.expiresAt.value < now
  }

  /** The tickets still reserved for items of the order, of one type and hold. */
  ghost function LeftBehind(w: World, o: Id, t: Id, h: Option<Id>): (rows: set<Id>) {
    set i: Id | i < |w.tickets| && w.tickets[i].status == Reserved && w.tickets[i].ticketTypeId == t && w.tickets[i].holdId == h
                && w.tickets[i].orderItemId.Some? && w.tickets[i].orderItemId.value in w.items
                && w.items[w.tickets[i].orderItemId.value].orderId == o
  }

  /** All that is left behind and not locked by anybody else can be taken. */
  lemma AbandonedTicketsAreFree(w: World, locked: set<Id>, o: Id, t: Id, h: Option<Id>)
    requires Inv(w) && o in w.orders && IsAbandoned(w.orders[o], w.now)
    ensures LeftBehind(w, o, t, h) <= RowsWhere(w.tickets, TakeableWhere(t, h, w.now))
    ensures |LeftBehind(w, o, t, h) - locked| <= Free(w.tickets, w.now, locked, t, h)
  {
    assert ReservationsOk(w);
    hide Frame;
    forall i | i in LeftBehind(w, o, t, h) ensures Takeable(w.tickets[i], t, h, w.now) {
      assert IsReservedFor(w, w.tickets[i]);
      WhenATicketIsTakeable(w.tickets[i], t, h, w.now);
    }
    SubsetSize(LeftBehind(w, o, t, h) - locked, RowsWhere(w.tickets, TakeableWhere(t, h, w.now)) - locked);
  }

  /** While the order is live, nobody else can have any of them. */
  lemma LiveTicketsAreNotFree(w: World, k: Id, t: Id, h: Option<Id>)
    requires Inv(w) && IsLiveItem(w, k)
    ensures Linked(w.tickets, k) !! RowsWhere(w.tickets, TakeableWhere(t, h, w.now))
  {
    assert ItemOk(w, k);
    FrameKeys(w, k);
    hide Frame, LostBy, Short;
    forall i | i in Linked(w.tickets, k) ensures !Takeable(w.tickets[i], t, h, w.now) {
      WhenATicketIsTakeable(w.tickets[i], t, h, w.now);
    }
  }

  /**
    At any time after its expiry, as many tickets as an order has left behind can be taken for another cart, from these
    alone. `s` is the shop at some point of a run, and `conn` finds it at a later time.
   */
  lemma AbandonedTicketsCanBeHad(s: Shop, conn: Connection, o: Id, t: Id, h: Option<Id>, boxOfficePricing: bool, n: nat)
    requires ShopOk(s.world, s.holds, s.payments) && s.world.now <= conn.now
    requires conn.tickets == s.world.tickets && o in s.world.orders && IsAbandoned(s.world.orders[o], conn.now)
    requires n <= |LeftBehind(s.world, o, t, h) - conn.lockedRows|
    requires t in conn.ticketTypes && (t, boxOfficePricing) in conn.pricings && 0 < conn.ticketTypes[t].increment
    ensures CanTake(conn, conn.tickets, Some(t), h, boxOfficePricing, n, n, 0) <==> n % conn.ticketTypes[t].increment == 0
  {
    assert Inv(s.world);
    WaitingIsSafe(s.world, conn.now);
    var w := s.world.(now := conn.now);
    assert LeftBehind(w, o, t, h) == LeftBehind(s.world, o, t, h);
    hide Inv, Free, LeftBehind, IsAbandoned;
    AbandonedTicketsAreFree(w, conn.lockedRows, o, t, h);
  }
}
