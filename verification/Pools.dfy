/**
  How many tickets there are to take, by ticket type and hold, and how reserving and releasing changes that
  (db/src/queries/reserve_tickets.sql, release_tickets.sql): what decides whether a cart update goes through.
 */
module Pools {
  import opened Schema
  import opened Inventory
  import opened OrderRows
  import opened Sets
  import opened TicketInstances

  /** The tickets of a type and a hold that can be reserved and are not locked by anybody else. */
  ghost function Free(tickets: seq<Ticket>, now: Time, locked: set<Id>, ticketTypeId: Id, holdId: Option<Id>): (n: nat) {
    |RowsWhere(tickets, TakeableWhere(ticketTypeId, holdId, now)) - locked|
  }

  /** The tickets of an item that are not locked by anybody else. */
  ghost function Unlocked(tickets: seq<Ticket>, k: Id, locked: set<Id>): (n: nat) {
    |Linked(tickets, k) - locked|
  }

  /** `n` tickets more can be taken of the type and hold, and as many as before of any other. */
  ghost predicate PoolsMoved(before: seq<Ticket>, after: seq<Ticket>, now: Time, locked: set<Id>, ticketTypeId: Option<Id>,
                             holdId: Option<Id>, n: int) {
    forall t: Id, h: Option<Id> ::
      Free(after, now, locked, t, h) == Free(before, now, locked, t, h) + (if Some(t) == ticketTypeId && h == holdId then n else 0)
  }

  /** As many tickets more can be taken, of each type and hold. */
  ghost predicate PoolsGrown(before: seq<Ticket>, after: seq<Ticket>, now: Time, locked: set<Id>, more: (Id, Option<Id>) -> int) {
    forall t: Id, h: Option<Id> :: Free(after, now, locked, t, h) == Free(before, now, locked, t, h) + more(t, h)
  }

  lemma NothingMoved(tickets: seq<Ticket>, now: Time, locked: set<Id>, ticketTypeId: Option<Id>, holdId: Option<Id>)
    ensures PoolsMoved(tickets, tickets, now, locked, ticketTypeId, holdId, 0)
  {
  }

  lemma ReleasingFrees(before: seq<Ticket>, after: seq<Ticket>, now: Time, locked: set<Id>, item: OrderItem, expiresAt: Time, h: History,
                       picked: set<Id>)
    requires Reserves(before, item, expiresAt, h) && now <= expiresAt
    requires picked <= Linked(before, item.id) - locked && Rewritten(before, after, picked, ReleaseRow(now))
    ensures PoolsMoved(before, after, now, locked, item.ticketTypeId, item.holdId, |picked|)
  {
    hide RowsWhere, TakeableWhere, Reserves, Rewritten, ReleaseRow, Linked;
    forall t: Id, hold: Option<Id> ensures Free(after, now, locked, t, hold)
      == Free(before, now, locked, t, hold) + (if Some(t) == item.ticketTypeId && hold == item.holdId then |picked| else 0)
    {
      ReleasedAreTakeable(before, after, now, item, expiresAt, h, picked, t, hold);
      MoreUnlocked(RowsWhere(before, TakeableWhere(t, hold, now)), picked, locked);
    }
  }

  lemma MoreUnlocked(rows: set<Id>, picked: set<Id>, locked: set<Id>)
    requires picked !! rows && picked !! locked
    ensures |(rows + picked) - locked| == |rows - locked| + |picked| && (rows + {}) - locked == rows - locked
  {
    assert (rows + picked) - locked == (rows - locked) + picked;
    DisjointUnionSize(rows - locked, picked);
  }

  lemma FewerUnlocked(rows: set<Id>, picked: set<Id>, locked: set<Id>)
    requires picked <= rows - locked
    ensures |(rows - picked) - locked| == |rows - locked| - |picked|
  {
    assert (rows - picked) - locked == (rows - locked) - picked;
    SubsetSize(picked, rows - locked);
  }

  lemma ReleasedAreTakeable(before: seq<Ticket>, after: seq<Ticket>, now: Time, item: OrderItem, expiresAt: Time, h: History,
                            picked: set<Id>, t: Id, hold: Option<Id>)
    requires Reserves(before, item, expiresAt, h) && now <= expiresAt
    requires picked <= Linked(before, item.id) && Rewritten(before, after, picked, ReleaseRow(now))
    ensures picked !! RowsWhere(before, TakeableWhere(t, hold, now))
    ensures RowsWhere(after, TakeableWhere(t, hold, now))
      == RowsWhere(before, TakeableWhere(t, hold, now)) + (if Some(t) == item.ticketTypeId && hold == item.holdId then picked else {})
  {
    hide LostBy, Short;
  }

  lemma ReservingTakes(before: seq<Ticket>, after: seq<Ticket>, now: Time, locked: set<Id>, itemId: Id, expiresAt: Time, ticketTypeId: Id,
                       holdId: Option<Id>, picked: set<Id>)
    requires now <= expiresAt && picked <= RowsWhere(before, TakeableWhere(ticketTypeId, holdId, now)) - locked
    requires Rewritten(before, after, picked, ReserveRow(itemId, expiresAt, now))
    ensures PoolsMoved(before, after, now, locked, Some(ticketTypeId), holdId, -|picked|)
  {
    hide RowsWhere, TakeableWhere, Rewritten, ReserveRow;
    forall t: Id, hold: Option<Id> ensures Free(after, now, locked, t, hold)
      == Free(before, now, locked, t, hold) + (if Some(t) == Some(ticketTypeId) && hold == holdId then -|picked| else 0)
    {
      ReservedAreTaken(before, after, now, itemId, expiresAt, ticketTypeId, holdId, picked, t, hold);
      if t == ticketTypeId && hold == holdId {
        FewerUnlocked(RowsWhere(before, TakeableWhere(t, hold, now)), picked, locked);
      }
    }
  }

  lemma ReservedAreTaken(before: seq<Ticket>, after: seq<Ticket>, now: Time, itemId: Id, expiresAt: Time, ticketTypeId: Id,
                         holdId: Option<Id>, picked: set<Id>, t: Id, hold: Option<Id>)
    requires now <= expiresAt && picked <= RowsWhere(before, TakeableWhere(ticketTypeId, holdId, now))
    requires Rewritten(before, after, picked, ReserveRow(itemId, expiresAt, now))
    ensures RowsWhere(after, TakeableWhere(t, hold, now))
      == RowsWhere(before, TakeableWhere(t, hold, now)) - (if t == ticketTypeId && hold == holdId then picked else {})
  {
  }

  /** All tickets of an item that has them reserved can be released, as far as they are not locked. */
  lemma ReleasableAreLinked(tickets: seq<Ticket>, item: OrderItem, expiresAt: Time, h: History)
    requires Reserves(tickets, item, expiresAt, h)
    ensures RowsWhere(tickets, ReleasableWhere(Some(item.id), Reserved, None)) == Linked(tickets, item.id)
  {
    hide LostBy, Short;
  }

  /** A record of a refund names the item or one of its fees. */
  ghost predicate IsRecorded(items: map<Id, OrderItem>, records: seq<RefundedTicket>, k: Id) {
    exists r :: r in records && (r.orderItemId == k || r.orderItemId in Children(items, k))
  }

  /** An item with no tickets may be deleted unless a record names it. */
  lemma EmptyItemIsReferencedIfRecorded(w: World, k: Id, records: seq<RefundedTicket>)
    requires Frame(w) && k in w.items && w.items[k].itemType == Tickets && Linked(w.tickets, k) == {}
    ensures Referenced(w.items, w.tickets, records, {k} + Children(w.items, k)) <==> IsRecorded(w.items, records, k)
  {
    var doomed := {k} + Children(w.items, k);
    forall t | t in w.tickets && t.orderItemId.Some? ensures t.orderItemId.value !in doomed {
      var i :| 0 <= i < |w.tickets| && w.tickets[i] == t;
      assert i in Linked(w.tickets, k) <==> t.orderItemId == Some(k);
    }
  }
}
