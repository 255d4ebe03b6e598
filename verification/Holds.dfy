/**
  Holds and the tickets in them (db/src/models/holds.rs, ticket_instances.rs:352-443, add_tickets_to_hold.sql,
  release_tickets_from_hold.sql). A ticket is in one hold or in the main pool; a hold takes its tickets from its parent,
  or from the pool if it has none, and gives them back there.
 */
module Holds {
  import opened Schema
  import opened Inventory
  import opened OrderItems
  import opened OrderRows
  import opened Sets
  import opened TicketInstances

  // ------------------------------------------------------------ where tickets are

  /** The tickets of a type in a hold, or in the main pool. */
  ghost function Housed(tickets: seq<Ticket>, holdId: Option<Id>, ticketTypeId: Id): (rows: set<Id>) {
    set i: Id | i < |tickets| && tickets[i].holdId == holdId && tickets[i].ticketTypeId == ticketTypeId
  }

  function HouseRow(to: Option<Id>, now: Time): Ticket -> Ticket {
    (t: Ticket) => t.(holdId := to, updatedAt := now)
  }

  /** `picked` went from one place to another; no other ticket was written. */
  ghost predicate Moved(before: seq<Ticket>, after: seq<Ticket>, picked: set<Id>, from: Option<Id>, to: Option<Id>,
                        ticketTypeId: Id, now: Time) {
    && picked <= Housed(before, from, ticketTypeId)
    && Rewritten(before, after, picked, HouseRow(to, now))
  }

  /** Nobody has a claim on the ticket: it is not linked, or its reservation has lapsed without a sale. */
  predicate Unclaimed(t: Ticket, now: Time) {
    t.orderItemId.None? || t.status == Available || (Before(t.reservedUntil, now) && t.status != Purchased)
  }

  ghost predicate AllUnclaimed(tickets: seq<Ticket>, picked: set<Id>, now: Time) {
    forall i :: i in picked ==> i < |tickets| && Unclaimed(tickets[i], now)
  }

  lemma MovingRehouses(before: seq<Ticket>, after: seq<Ticket>, picked: set<Id>, from: Option<Id>, to: Option<Id>, t: Id, now: Time)
    requires Moved(before, after, picked, from, to, t, now) && from != to
    ensures Housed(after, to, t) == Housed(before, to, t) + picked
    ensures Housed(after, from, t) == Housed(before, from, t) - picked
  {
  }

  lemma ElsewhereNothingMoves(before: seq<Ticket>, after: seq<Ticket>, picked: set<Id>, from: Option<Id>, to: Option<Id>, t: Id, now: Time,
                              place: Option<Id>, t': Id)
    requires Moved(before, after, picked, from, to, t, now) && (t' != t || (place != from && place != to))
    ensures Housed(after, place, t') == Housed(before, place, t')
  {
  }

  /** What leaves one place arrives at the other, and everywhere else nothing changes. */
  lemma MovingConserves(before: seq<Ticket>, after: seq<Ticket>, picked: set<Id>, from: Option<Id>, to: Option<Id>, t: Id, now: Time)
    requires Moved(before, after, picked, from, to, t, now) && from != to
    ensures |Housed(after, to, t)| == |Housed(before, to, t)| + |picked|
    ensures |Housed(after, from, t)| == |Housed(before, from, t)| - |picked|
    ensures forall place, t' :: t' != t || (place != from && place != to) ==> Housed(after, place, t') == Housed(before, place, t')
  {
    MovingRehouses(before, after, picked, from, to, t, now);
    assert Housed(before, to, t) !! Housed(before, from, t);
    forall place, t' | t' != t || (place != from && place != to) ensures Housed(after, place, t') == Housed(before, place, t') {
      ElsewhereNothingMoves(before, after, picked, from, to, t, now, place, t');
    }
    assert picked <= Housed(before, from, t);
    hide Housed, Moved;
    DisjointUnionSize(Housed(before, to, t), picked);
    SubsetSize(picked, Housed(before, from, t));
  }

  // ------------------------------------------------------------ the forest

  /** Children come after their parents and share their event and ticket type. */
  ghost predicate Forest(holds: map<Id, Hold>, nextId: Id) {
    forall h :: h in holds ==>
      && holds[h].id == h && h < nextId
      && (holds[h].parentHoldId.Some? ==>
            && holds[h].parentHoldId.value < h
            && holds[h].parentHoldId.value in holds
            && holds[holds[h].parentHoldId.value].eventId == holds[h].eventId
            && holds[holds[h].parentHoldId.value].ticketTypeId == holds[h].ticketTypeId)
  }

  /** Holds contain tickets of their own type only. */
  ghost predicate RightHolds(holds: map<Id, Hold>, tickets: seq<Ticket>) {
    forall i: Id :: i < |tickets| && tickets[i].holdId.Some? ==>
      tickets[i].holdId.value in holds && holds[tickets[i].holdId.value].ticketTypeId == tickets[i].ticketTypeId
  }

  ghost predicate HoldsOk(holds: map<Id, Hold>, tickets: seq<Ticket>, nextId: Id) {
    Forest(holds, nextId) && RightHolds(holds, tickets)
  }

  function Root(holds: map<Id, Hold>, nextId: Id, h: Id): (root: Id)
    requires Forest(holds, nextId) && h in holds
    ensures root in holds && root <= h && holds[root].parentHoldId.None?
  {
    if holds[h].parentHoldId.Some? then Root(holds, nextId, holds[h].parentHoldId.value) else h
  }

  /** However deep the tree, all of it is for one event and one ticket type. */
  lemma {:induction false} TreeSharesEventAndType(holds: map<Id, Hold>, nextId: Id, h: Id)
    requires Forest(holds, nextId) && h in holds
    ensures holds[Root(holds, nextId, h)].eventId == holds[h].eventId
    ensures holds[Root(holds, nextId, h)].ticketTypeId == holds[h].ticketTypeId
    decreases h
  {
    if holds[h].parentHoldId.Some? {
      TreeSharesEventAndType(holds, nextId, holds[h].parentHoldId.value);
    }
  }

  lemma MovingStaysRight(holds: map<Id, Hold>, before: seq<Ticket>, after: seq<Ticket>, picked: set<Id>, from: Option<Id>,
                         to: Option<Id>, t: Id, now: Time)
    requires RightHolds(holds, before) && Moved(before, after, picked, from, to, t, now)
    requires to.Some? ==> to.value in holds && holds[to.value].ticketTypeId == t
    ensures RightHolds(holds, after)
  {
  }

  // ------------------------------------------------------------ the statements

  /** How many rows a statement could pick. */
  ghost function Supply(tickets: seq<Ticket>, where_: Where, locked: set<Id>): (n: nat) {
    |RowsWhere(tickets, where_) - locked|
  }

  method AddToHold(conn: Connection, holdId: Id, ticketTypeId: Id, quantity: u32, fromHoldId: Option<Id>) returns (r: Result<set<Id>>)
    modifies conn`tickets
    ensures r.Ok? <==>
      quantity <= Supply(old(conn.tickets), TakeableWhere(ticketTypeId, fromHoldId, conn.now), conn.lockedRows)
    ensures r.Ok? ==>
      && |r.value| == quantity
      && Moved(old(conn.tickets), conn.tickets, r.value, fromHoldId, Some(holdId), ticketTypeId, conn.now)
      && (forall i :: i in r.value ==> conn.tickets[i] == old(conn.tickets)[i].(holdId := Some(holdId), updatedAt := conn.now))
      && AllUnclaimed(old(conn.tickets), r.value, conn.now)
  {
    var where_ := TakeableWhere(ticketTypeId, fromHoldId, conn.now);
    var picked := SelectForUpdate(conn.tickets, where_, quantity, conn.lockedRows);
    SelectionIsFull(conn.tickets, where_, quantity, conn.lockedRows, picked);
    conn.tickets := Update(conn.tickets, picked, HouseRow(Some(holdId), conn.now));
    if |picked| != quantity {
      return Err(ValidationError);
    }
    return Ok(picked);
  }

  function ReturnableWhere(ticketTypeId: Id, holdId: Id, now: Time): Where {
    (_, t: Ticket) =>
      && t.holdId == Some(holdId) && t.ticketTypeId == ticketTypeId
      && (t.status == Available || Before(t.reservedUntil, now)) && t.status != Purchased
  }

  method ReleaseFromHold(conn: Connection, holdId: Id, ticketTypeId: Id, quantity: u32) returns (r: Result<set<Id>>)
    modifies conn`tickets
    ensures r.Ok? <==>
      quantity <= Supply(old(conn.tickets), ReturnableWhere(ticketTypeId, holdId, conn.now), conn.lockedRows)
    ensures r.Ok? ==>
      && |r.value| == quantity
      && Moved(old(conn.tickets), conn.tickets, r.value, Some(holdId), None, ticketTypeId, conn.now)
      && (forall i :: i in r.value ==> conn.tickets[i] == old(conn.tickets)[i].(holdId := None, updatedAt := conn.now))
      && AllUnclaimed(old(conn.tickets), r.value, conn.now)
  {
    var where_ := ReturnableWhere(ticketTypeId, holdId, conn.now);
    var picked := SelectForUpdate(conn.tickets, where_, quantity, conn.lockedRows);
    SelectionIsFull(conn.tickets, where_, quantity, conn.lockedRows, picked);
    conn.tickets := Update(conn.tickets, picked, HouseRow(None, conn.now));
    if |picked| != quantity {
      return Err(ValidationError);
    }
    return Ok(picked);
  }

  ghost function Unsold(tickets: seq<Ticket>, holdId: Id, ticketTypeId: Id): (rows: set<Id>) {
    set i | i in Housed(tickets, Some(holdId), ticketTypeId) && tickets[i].status in {Available, Reserved}
  }

  /** `count_for_hold`: all tickets in the hold, sold ones included, and those not sold yet. */
  method CountForHold(conn: Connection, holdId: Id, ticketTypeId: Id) returns (count: u32, available: u32)
    ensures count == ToU32(|Housed(conn.tickets, Some(holdId), ticketTypeId)|)
    ensures available == ToU32(|Unsold(conn.tickets, holdId, ticketTypeId)|)
  {
    var all: set<Id>, unsold: set<Id> := {}, {};
    for i := 0 to |conn.tickets|
      invariant forall j: Id :: j in all <==> j < i && j in Housed(conn.tickets, Some(holdId), ticketTypeId)
      invariant forall j: Id :: j in unsold <==> j in all && conn.tickets[j].status in {Available, Reserved}
    {
      var t := conn.tickets[i];
      if t.holdId == Some(holdId) && t.ticketTypeId == ticketTypeId {
        all := all + {i};
        if t.status in {Available, Reserved} {
          unsold := unsold + {i};
        }
      }
    }
    assert all == Housed(conn.tickets, Some(holdId), ticketTypeId);
    assert unsold == Unsold(conn.tickets, holdId, ticketTypeId);
    return ToU32(|all|), ToU32(|unsold|);
  }

  lemma NothingMoves(tickets: seq<Ticket>, from: Option<Id>, to: Option<Id>, t: Id, now: Time)
    ensures Moved(tickets, tickets, {}, from, to, t, now)
  {
  }

  // ------------------------------------------------------------ set_quantity

  /** A hold as it stands in the table. */
  ghost predicate IsHold(conn: Connection, self: Hold)
    reads conn
  {
    HoldsOk(conn.holds, conn.tickets, conn.nextId) && self.id in conn.holds && conn.holds[self.id] == self
  }

  /** The rows that can be taken out of the hold. To a parent they go by the rule for adding, to the pool by its own. */
  function LeavableWhere(self: Hold, now: Time): Where {
    if self.parentHoldId.Some? then TakeableWhere(self.ticketTypeId, Some(self.id), now)
    else ReturnableWhere(self.ticketTypeId, self.id, now)
  }

  /**
    Which tickets of a hold can leave it. Without a parent, Available ones can, and others once their reservation has lapsed;
    with one, unlinked ones can, and linked ones once it has lapsed. What was sold stays in both cases.
   */
  lemma WhatCanLeave(self: Hold, i: Id, t: Ticket, now: Time)
    requires t.holdId == Some(self.id) && t.ticketTypeId == self.ticketTypeId
    ensures self.parentHoldId.None? && t.status == Available ==> LeavableWhere(self, now)(i, t)
    ensures self.parentHoldId.Some? && t.orderItemId.None? ==> LeavableWhere(self, now)(i, t)
    ensures t.orderItemId.Some? && t.status == Purchased ==> !LeavableWhere(self, now)(i, t)
    ensures self.parentHoldId.None? && t.status !in {Available, Purchased} ==>
      (LeavableWhere(self, now)(i, t) <==> t.reservedUntil.Some? && t.reservedUntil.value < now)
    ensures self.parentHoldId.Some? && t.orderItemId.Some? && t.status != Purchased ==>
      (LeavableWhere(self, now)(i, t) <==> t.reservedUntil.Some? && t.reservedUntil.value < now)
  {
  }

  /** `moved` tickets went between the hold and its parent, in the direction the new quantity calls for. */
  ghost predicate QuantitySet(before: seq<Ticket>, after: seq<Ticket>, self: Hold, count: int, quantity: int, moved: set<Id>, now: Time) {
    if count <= quantity
    then |moved| == quantity - count && Moved(before, after, moved, self.parentHoldId, Some(self.id), self.ticketTypeId, now)
    else |moved| == count - quantity && Moved(before, after, moved, Some(self.id), self.parentHoldId, self.ticketTypeId, now)
  }

  /** Takes `quantity` tickets out of the hold. */
  method GiveBack(conn: Connection, self: Hold, quantity: u32) returns (r: Result<set<Id>>)
    modifies conn`tickets
    ensures r.Ok? <==> quantity <= Supply(old(conn.tickets), LeavableWhere(self, conn.now), conn.lockedRows)
    ensures r.Ok? ==>
      && |r.value| == quantity
      && Moved(old(conn.tickets), conn.tickets, r.value, Some(self.id), self.parentHoldId, self.ticketTypeId, conn.now)
      && AllUnclaimed(old(conn.tickets), r.value, conn.now)
  {
    hide Moved, Supply, TakeableWhere, ReturnableWhere, AllUnclaimed;
    if self.parentHoldId.Some? {
      r := AddToHold(conn, self.parentHoldId.value, self.ticketTypeId, quantity, Some(self.id));
    } else {
      r := ReleaseFromHold(conn, self.id, self.ticketTypeId, quantity);
    }
  }

  /** Moves as many tickets as the counted quantity is off by. */
  method Adjust(conn: Connection, self: Hold, count: u32, quantity: u32) returns (r: Result<set<Id>>)
    modifies conn`tickets
    ensures r.Ok? <==>
      && quantity - count <= Supply(old(conn.tickets), TakeableWhere(self.ticketTypeId, self.parentHoldId, conn.now), conn.lockedRows)
      && count - quantity <= Supply(old(conn.tickets), LeavableWhere(self, conn.now), conn.lockedRows)
    ensures r.Ok? ==>
      && QuantitySet(old(conn.tickets), conn.tickets, self, count, quantity, r.value, conn.now)
      && AllUnclaimed(old(conn.tickets), r.value, conn.now)
  {
    NothingMoves(conn.tickets, self.parentHoldId, Some(self.id), self.ticketTypeId, conn.now);
    hide Moved, Supply, TakeableWhere, LeavableWhere, AllUnclaimed;
    if count < quantity {
      r := AddToHold(conn, self.id, self.ticketTypeId, quantity - count, self.parentHoldId);
    } else if count > quantity {
      r := GiveBack(conn, self, count - quantity);
    } else {
      r := Ok({});
    }
  }

  /**
    `set_quantity`. It succeeds exactly when the parent, or the pool, has enough unclaimed tickets to give, or the hold
    enough to give back; sold tickets count towards the quantity and never leave.
   */
  method SetQuantity(conn: Connection, self: Hold, quantity: u32) returns (r: Result<()>, ghost moved: set<Id>)
    requires IsHold(conn, self)
    modifies conn`tickets
    ensures
      var count := ToU32(|Housed(old(conn.tickets), Some(self.id), self.ticketTypeId)|);
      && (r.Ok? <==>
            && quantity - count <= Supply(old(conn.tickets), TakeableWhere(self.ticketTypeId, self.parentHoldId, conn.now), conn.lockedRows)
            && count - quantity <= Supply(old(conn.tickets), LeavableWhere(self, conn.now), conn.lockedRows))
      && (r.Ok? ==> QuantitySet(old(conn.tickets), conn.tickets, self, count, quantity, moved, conn.now))
    ensures r.Ok? ==> IsHold(conn, self) && AllUnclaimed(old(conn.tickets), moved, conn.now)
    ensures r.Ok? && |Housed(old(conn.tickets), Some(self.id), self.ticketTypeId)| < U32_SIZE ==>
      |Housed(conn.tickets, Some(self.id), self.ticketTypeId)| == quantity
  {
    hide Housed, QuantitySet, Supply, TakeableWhere, LeavableWhere, Forest, RightHolds, AllUnclaimed, Unsold;
    ghost var before := conn.tickets;
    var count, _ := CountForHold(conn, self.id, self.ticketTypeId);
    var picked := Adjust(conn, self, count, quantity);
    if picked.Err? {
      return Err(picked.error), {};
    }
    SettingKeepsHolds(conn.holds, before, conn.tickets, conn.nextId, self, count, quantity, picked.value, conn.now);
    return Ok(()), picked.value;
  }

  lemma SettingKeepsHolds(holds: map<Id, Hold>, before: seq<Ticket>, after: seq<Ticket>, nextId: Id, self: Hold, count: int, quantity: int,
                          moved: set<Id>, now: Time)
    requires HoldsOk(holds, before, nextId) && self.id in holds && holds[self.id] == self
    requires QuantitySet(before, after, self, count, quantity, moved, now)
    ensures HoldsOk(holds, after, nextId)
    ensures |Housed(after, Some(self.id), self.ticketTypeId)|
         == |Housed(before, Some(self.id), self.ticketTypeId)| + quantity - count
  {
    SettingQuantityConserves(holds, before, after, nextId, self, count, quantity, moved, now);
    if count <= quantity {
      MovingStaysRight(holds, before, after, moved, self.parentHoldId, Some(self.id), self.ticketTypeId, now);
    } else {
      MovingStaysRight(holds, before, after, moved, Some(self.id), self.parentHoldId, self.ticketTypeId, now);
    }
  }

  /** A hold and its parent, or the pool, have between them what they had; no other place is touched. */
  lemma SettingQuantityConserves(holds: map<Id, Hold>, before: seq<Ticket>, after: seq<Ticket>, nextId: Id, self: Hold, count: int,
                                 quantity: int, moved: set<Id>, now: Time)
    requires HoldsOk(holds, before, nextId) && self.id in holds && holds[self.id] == self
    requires QuantitySet(before, after, self, count, quantity, moved, now)
    ensures |Housed(after, Some(self.id), self.ticketTypeId)|
         == |Housed(before, Some(self.id), self.ticketTypeId)| + quantity - count
    ensures |Housed(after, Some(self.id), self.ticketTypeId)| + |Housed(after, self.parentHoldId, self.ticketTypeId)|
         == |Housed(before, Some(self.id), self.ticketTypeId)| + |Housed(before, self.parentHoldId, self.ticketTypeId)|
    ensures forall place, t :: t != self.ticketTypeId || (place != Some(self.id) && place != self.parentHoldId) ==>
      Housed(after, place, t) == Housed(before, place, t)
  {
    var from, to := self.parentHoldId, Some(self.id);
    if count <= quantity {
      MovingConserves(before, after, moved, from, to, self.ticketTypeId, now);
    } else {
      MovingConserves(before, after, moved, to, from, self.ticketTypeId, now);
    }
  }

  /** The tickets a hold has sold. */
  ghost function SoldIn(tickets: seq<Ticket>, self: Hold): (rows: set<Id>) {
    set i | i in Housed(tickets, Some(self.id), self.ticketTypeId) && tickets[i].status == Purchased && tickets[i].orderItemId.Some?
  }

  /** So `set_quantity` cannot go below what the hold has sold. */
  lemma SoldTicketsStay(tickets: seq<Ticket>, self: Hold, locked: set<Id>, now: Time)
    ensures Supply(tickets, LeavableWhere(self, now), locked) + |SoldIn(tickets, self)|
         <= |Housed(tickets, Some(self.id), self.ticketTypeId)|
  {
    var leavable := RowsWhere(tickets, LeavableWhere(self, now)) - locked;
    assert leavable !! SoldIn(tickets, self);
    DisjointUnionSize(leavable, SoldIn(tickets, self));
    SubsetSize(leavable + SoldIn(tickets, self), Housed(tickets, Some(self.id), self.ticketTypeId));
  }

  // ------------------------------------------------------------ holds and carts

  /** What moving unclaimed tickets between holds leaves alone: carts, orders and their tickets. */
  lemma RehousingKeepsItem(w: World, after: World, moved: set<Id>, to: Option<Id>, k: Id)
    requires after == w.(tickets := after.tickets) && Rewritten(w.tickets, after.tickets, moved, HouseRow(to, w.now))
    requires AllUnclaimed(w.tickets, moved, w.now) && Frame(w)
    requires k in w.items && w.items[k].itemType == Tickets && ItemOk(w, k)
    ensures ItemOk(after, k)
    ensures IsLiveItem(w, k) ==> KeepsItem(w, after, k) && IsLiveItem(after, k)
  {
    FrameKeys(w, k);
    assert Linked(after.tickets, k) == Linked(w.tickets, k);
    if IsLiveItem(w, k) {
      assert Linked(w.tickets, k) !! moved;
    }
    hide Frame, Takeable;
  }

  lemma RehousingIsSafe(w: World, after: World, moved: set<Id>, to: Option<Id>)
    requires Inv(w) && after == w.(tickets := after.tickets) && Rewritten(w.tickets, after.tickets, moved, HouseRow(to, w.now))
    requires AllUnclaimed(w.tickets, moved, w.now)
    ensures Inv(after)
    ensures forall k :: IsLiveItem(w, k) ==> KeepsItem(w, after, k) && IsLiveItem(after, k)
  {
    assert Frame(after) by {
      hide ItemOk, Structured, OneFeeEach, AllUnclaimed;
    }
    forall k | k in w.items && w.items[k].itemType == Tickets
      ensures ItemOk(after, k)
      ensures IsLiveItem(w, k) ==> KeepsItem(w, after, k) && IsLiveItem(after, k)
    {
      RehousingKeepsItem(w, after, moved, to, k);
    }
    hide Frame, ItemOk, KeepsItem, Rewritten, AllUnclaimed;
  }

  // ------------------------------------------------------------ creating, splitting and destroying

  /** A hold like this can be added: discounts need one, codes are unique, and the event and the ticket type exist. */
  ghost predicate CanCommit(conn: Connection, code: string, hasDiscount: bool, holdType: HoldType, eventId: Id, ticketTypeId: Id)
    reads conn
  {
    && (holdType == Discount ==> hasDiscount)
    && (forall h :: h in conn.holds ==> conn.holds[h].redemptionCode != code)
    && eventId in conn.events && ticketTypeId in conn.ticketTypes
  }

  /** A hold has the discount asked for, but no comp has one. */
  ghost predicate HasDiscount(hold: Hold, discountInCents: Option<u32>) {
    if hold.holdType == Comp || discountInCents.None? then hold.discountInCents.None?
    else hold.discountInCents.Some? && hold.discountInCents.value == discountInCents.value
  }

  /** `NewHold::commit`. Comps have no discount, and discounts need one; codes are unique. */
  method Commit(conn: Connection, newHold: Hold) returns (r: Result<Hold>)
    requires HoldsOk(conn.holds, conn.tickets, conn.nextId)
    requires newHold.parentHoldId.Some? ==>
      && newHold.parentHoldId.value in conn.holds
      && conn.holds[newHold.parentHoldId.value].eventId == newHold.eventId
      && conn.holds[newHold.parentHoldId.value].ticketTypeId == newHold.ticketTypeId
    modifies conn`holds, conn`nextId
    ensures r.Ok? <==>
      old(CanCommit(conn, newHold.redemptionCode, newHold.discountInCents.Some?, newHold.holdType, newHold.eventId, newHold.ticketTypeId))
    ensures r.Ok? ==>
      && r.value == newHold.(id := old(conn.nextId), discountInCents := if newHold.holdType == Comp then None else newHold.discountInCents)
      && conn.holds == old(conn.holds)[r.value.id := r.value] && conn.nextId == old(conn.nextId) + 1
      && r.value.id !in old(conn.holds)
      && IsHold(conn, r.value)
      && Housed(conn.tickets, Some(r.value.id), r.value.ticketTypeId) == {}
    ensures r.Err? ==> unchanged(conn)
  {
    if newHold.holdType == Discount && newHold.discountInCents.None? {
      return Err(ValidationError);
    }
    if exists h :: h in conn.holds && conn.holds[h].redemptionCode == newHold.redemptionCode {
      return Err(ValidationError);
    }
    if newHold.eventId !in conn.events || newHold.ticketTypeId !in conn.ticketTypes {
      return Err(InsertError);
    }
    var hold := newHold.(id := conn.nextId, discountInCents := if newHold.holdType == Comp then None else newHold.discountInCents);
    conn.holds := conn.holds[hold.id := hold];
    conn.nextId := conn.nextId + 1;
    return Ok(hold);
  }

  /** `create_hold`: a hold of its own, which takes its tickets from the main pool. */
  method CreateHold(conn: Connection, eventId: Id, redemptionCode: string, discountInCents: Option<u32>, holdType: HoldType, ticketTypeId: Id)
    returns (r: Result<Hold>)
    requires HoldsOk(conn.holds, conn.tickets, conn.nextId)
    modifies conn`holds, conn`nextId
    ensures r.Ok? <==> old(CanCommit(conn, redemptionCode, discountInCents.Some?, holdType, eventId, ticketTypeId))
    ensures r.Ok? ==>
      && r.value == Hold(r.value.id, None, eventId, redemptionCode, r.value.discountInCents, holdType, ticketTypeId)
      && HasDiscount(r.value, discountInCents)
      && Housed(conn.tickets, Some(r.value.id), ticketTypeId) == {}
      && r.value.id !in old(conn.holds) && conn.holds == old(conn.holds)[r.value.id := r.value]
      && IsHold(conn, r.value) && old(conn.nextId) <= conn.nextId
    ensures r.Err? ==> unchanged(conn)
  {
    var discount: Option<int> := if discountInCents.Some? then Some(discountInCents.value) else None;
    r := Commit(conn, Hold(0, None, eventId, redemptionCode, discount, holdType, ticketTypeId));
  }

  /** `create_comp_for_person`: a comp below a hold, filled from it. */
  method CreateCompForPerson(conn: Connection, holdId: Id, redemptionCode: string, quantity: u32)
    returns (r: Result<Hold>, ghost moved: set<Id>)
    requires HoldsOk(conn.holds, conn.tickets, conn.nextId)
    modifies conn`holds, conn`nextId, conn`tickets
    ensures r.Ok? <==>
      && holdId in old(conn.holds)
      && var parent := old(conn.holds)[holdId];
      && old(CanCommit(conn, redemptionCode, false, Comp, conn.holds[holdId].eventId, conn.holds[holdId].ticketTypeId))
      && quantity <= Supply(old(conn.tickets), TakeableWhere(parent.ticketTypeId, Some(holdId), conn.now), conn.lockedRows)
    ensures r.Ok? ==>
      && holdId in old(conn.holds)
      && var parent, comp := old(conn.holds)[holdId], r.value;
      && comp == Hold(comp.id, Some(holdId), parent.eventId, redemptionCode, None, Comp, parent.ticketTypeId)
      && comp.id !in old(conn.holds) && conn.holds == old(conn.holds)[comp.id := comp]
      && |moved| == quantity
      && Moved(old(conn.tickets), conn.tickets, moved, Some(holdId), Some(comp.id), parent.ticketTypeId, conn.now)
      && Housed(conn.tickets, Some(comp.id), parent.ticketTypeId) == moved
      && IsHold(conn, comp) && old(conn.nextId) <= conn.nextId
      && AllUnclaimed(old(conn.tickets), moved, conn.now)
  {
    moved := {};
    if holdId !in conn.holds {
      return Err(QueryError), moved;
    }
    ghost var before := conn.tickets;
    var parent := conn.holds[holdId];
    var comp := Commit(conn, Hold(0, Some(holdId), parent.eventId, redemptionCode, None, Comp, parent.ticketTypeId));
    if comp.Err? {
      return comp, moved;
    }
    hide HoldsOk, Housed, Moved, Supply, AllUnclaimed, TakeableWhere, LeavableWhere, CanCommit;
    var filled, moved' := SetQuantity(conn, comp.value, quantity);
    moved := moved';
    if filled.Err? {
      return Err(filled.error), moved;
    }
    MovingRehouses(before, conn.tickets, moved, Some(holdId), Some(comp.value.id), parent.ticketTypeId, conn.now);
    return comp, moved;
  }

  /** `split`: the two holds together have what the one had. The new hold hangs from the parent of the old one. */
  method Split(conn: Connection, self: Hold, redemptionCode: string, quantity: u32, discountInCents: Option<u32>, holdType: HoldType)
    returns (r: Result<Hold>, ghost moved: set<Id>)
    requires IsHold(conn, self)
    modifies conn`holds, conn`nextId, conn`tickets
    ensures r.Ok? <==>
      && old(CanCommit(conn, redemptionCode, discountInCents.Some?, holdType, self.eventId, self.ticketTypeId))
      && quantity <= Supply(old(conn.tickets), TakeableWhere(self.ticketTypeId, Some(self.id), conn.now), conn.lockedRows)
    ensures r.Ok? ==>
      && var t, new_ := self.ticketTypeId, r.value;
      && new_ == Hold(new_.id, self.parentHoldId, self.eventId, redemptionCode, new_.discountInCents, holdType, t)
      && HasDiscount(new_, discountInCents)
      && new_.id !in old(conn.holds) && conn.holds == old(conn.holds)[new_.id := new_]
      && |moved| == quantity
      && Moved(old(conn.tickets), conn.tickets, moved, Some(self.id), Some(new_.id), t, conn.now)
      && Housed(conn.tickets, Some(new_.id), t) == moved
      && Housed(conn.tickets, Some(self.id), t) + Housed(conn.tickets, Some(new_.id), t) == Housed(old(conn.tickets), Some(self.id), t)
      && |Housed(conn.tickets, Some(self.id), t)| + |Housed(conn.tickets, Some(new_.id), t)| == |Housed(old(conn.tickets), Some(self.id), t)|
      && IsHold(conn, new_) && IsHold(conn, self) && old(conn.nextId) <= conn.nextId
      && AllUnclaimed(old(conn.tickets), moved, conn.now)
  {
    moved := {};
    ghost var before := conn.tickets;
    var discount: Option<int> := if discountInCents.Some? then Some(discountInCents.value) else None;
    ParentOf(conn.holds, conn.nextId, self.id);
    var split := Commit(conn, Hold(0, self.parentHoldId, self.eventId, redemptionCode, discount, holdType, self.ticketTypeId));
    if split.Err? {
      return split, moved;
    }
    hide Housed, Moved, Supply, AllUnclaimed, Forest, RightHolds;
    var picked := AddToHold(conn, split.value.id, self.ticketTypeId, quantity, Some(self.id));
    if picked.Err? {
      return Err(picked.error), moved;
    }
    moved := picked.value;
    SplittingConserves(before, conn.tickets, moved, self.id, split.value.id, self.ticketTypeId, conn.now);
    MovingStaysRight(conn.holds, before, conn.tickets, moved, Some(self.id), Some(split.value.id), self.ticketTypeId, conn.now);
    return split, moved;
  }

  lemma ParentOf(holds: map<Id, Hold>, nextId: Id, h: Id)
    requires Forest(holds, nextId) && h in holds
    ensures holds[h].parentHoldId.Some? ==>
      && holds[h].parentHoldId.value in holds
      && holds[holds[h].parentHoldId.value].eventId == holds[h].eventId
      && holds[holds[h].parentHoldId.value].ticketTypeId == holds[h].ticketTypeId
  {
  }

  /** What a new, empty hold takes from another the two have between them. */
  lemma SplittingConserves(before: seq<Ticket>, after: seq<Ticket>, moved: set<Id>, old_: Id, new_: Id, t: Id, now: Time)
    requires Moved(before, after, moved, Some(old_), Some(new_), t, now) && old_ != new_
    requires Housed(before, Some(new_), t) == {}
    ensures Housed(after, Some(new_), t) == moved
    ensures Housed(after, Some(old_), t) + Housed(after, Some(new_), t) == Housed(before, Some(old_), t)
    ensures |Housed(after, Some(old_), t)| + |Housed(after, Some(new_), t)| == |Housed(before, Some(old_), t)|
  {
    MovingRehouses(before, after, moved, Some(old_), Some(new_), t, now);
    MovingConserves(before, after, moved, Some(old_), Some(new_), t, now);
  }

  /** Whether anything still refers to the hold. */
  predicate HoldReferenced(holds: map<Id, Hold>, tickets: seq<Ticket>, items: map<Id, OrderItem>, h: Id) {
    || (exists c :: c in holds && holds[c].parentHoldId == Some(h))
    || (exists t :: t in tickets && t.holdId == Some(h))
    || (exists k :: k in items && items[k].holdId == Some(h))
  }

  /** What still refers to a hold that has been emptied: children, items, and tickets beyond those that could be counted. */
  lemma WhatStillRefers(holds: map<Id, Hold>, before: seq<Ticket>, after: seq<Ticket>, items: map<Id, OrderItem>, nextId: Id, self: Hold,
                        moved: set<Id>, now: Time)
    requires HoldsOk(holds, before, nextId) && self.id in holds && holds[self.id] == self
    requires QuantitySet(before, after, self, ToU32(|Housed(before, Some(self.id), self.ticketTypeId)|), 0, moved, now)
    ensures HoldReferenced(holds, after, items, self.id) <==>
      || (exists h :: h in holds && holds[h].parentHoldId == Some(self.id))
      || (exists k :: k in items && items[k].holdId == Some(self.id))
      || U32_SIZE <= |Housed(before, Some(self.id), self.ticketTypeId)|
  {
    hide QuantitySet, Forest;
    SettingKeepsHolds(holds, before, after, nextId, self, ToU32(|Housed(before, Some(self.id), self.ticketTypeId)|), 0, moved, now);
    var left := Housed(after, Some(self.id), self.ticketTypeId);
    if t :| t in after && t.holdId == Some(self.id) {
      var i :| 0 <= i < |after| && after[i] == t;
      assert i in left;
    }
    if left != {} {
      var i :| i in left;
      assert after[i] in after;
    }
  }

  /** `destroy`: empties the hold and deletes it, unless something refers to it. A hold that sold tickets stays. */
  method Destroy(conn: Connection, self: Hold) returns (r: Result<()>, ghost moved: set<Id>)
    requires IsHold(conn, self)
    modifies conn`holds, conn`tickets
    ensures r.Ok? <==>
      && var housed := |Housed(old(conn.tickets), Some(self.id), self.ticketTypeId)|;
      && housed < U32_SIZE && housed <= Supply(old(conn.tickets), LeavableWhere(self, conn.now), conn.lockedRows)
      && (forall h :: h in old(conn.holds) ==> old(conn.holds)[h].parentHoldId != Some(self.id))
      && (forall k :: k in conn.orderItems ==> conn.orderItems[k].holdId != Some(self.id))
    ensures r.Ok? ==>
      && conn.holds == old(conn.holds) - {self.id}
      && HoldsOk(conn.holds, conn.tickets, conn.nextId)
      && Moved(old(conn.tickets), conn.tickets, moved, Some(self.id), self.parentHoldId, self.ticketTypeId, conn.now)
      && moved == Housed(old(conn.tickets), Some(self.id), self.ticketTypeId)
      && AllUnclaimed(old(conn.tickets), moved, conn.now)
  {
    hide Housed, Moved, Supply, AllUnclaimed, HoldsOk, HoldReferenced, LeavableWhere, QuantitySet;
    ghost var before := conn.tickets;
    ParentIsAnother(conn.holds, conn.tickets, conn.nextId, self);
    var emptied, moved' := SetQuantity(conn, self, 0);
    moved := moved';
    if emptied.Err? {
      return emptied, moved;
    }
    WhatStillRefers(conn.holds, before, conn.tickets, conn.orderItems, conn.nextId, self, moved, conn.now);
    if HoldReferenced(conn.holds, conn.tickets, conn.orderItems, self.id) {
      return Err(ForeignKeyError), moved;
    }
    UnreferencedHoldIsEmpty(conn.holds, conn.tickets, conn.orderItems, self.id, self.ticketTypeId);
    EmptiedHoldGaveAll(before, conn.tickets, self, ToU32(|Housed(before, Some(self.id), self.ticketTypeId)|), moved, conn.now);
    UnreferencedHoldCanGo(conn.holds, conn.tickets, conn.orderItems, conn.nextId, self.id);
    conn.holds := conn.holds - {self.id};
    return Ok(()), moved;
  }

  lemma ParentIsAnother(holds: map<Id, Hold>, tickets: seq<Ticket>, nextId: Id, self: Hold)
    requires HoldsOk(holds, tickets, nextId) && self.id in holds && holds[self.id] == self
    ensures self.parentHoldId != Some(self.id)
  {
  }

  lemma UnreferencedHoldIsEmpty(holds: map<Id, Hold>, tickets: seq<Ticket>, items: map<Id, OrderItem>, h: Id, t: Id)
    requires !HoldReferenced(holds, tickets, items, h)
    ensures Housed(tickets, Some(h), t) == {}
  {
    forall i: Id | i < |tickets| ensures tickets[i].holdId != Some(h) {
      assert tickets[i] in tickets;
    }
  }

  lemma EmptiedHoldGaveAll(before: seq<Ticket>, after: seq<Ticket>, self: Hold, count: nat, moved: set<Id>, now: Time)
    requires QuantitySet(before, after, self, count, 0, moved, now) && self.parentHoldId != Some(self.id)
    requires Housed(after, Some(self.id), self.ticketTypeId) == {}
    ensures Moved(before, after, moved, Some(self.id), self.parentHoldId, self.ticketTypeId, now)
    ensures moved == Housed(before, Some(self.id), self.ticketTypeId)
  {
    if count == 0 {
      assert moved == {};
      MovingRehouses(before, after, moved, self.parentHoldId, Some(self.id), self.ticketTypeId, now);
    } else {
      MovingRehouses(before, after, moved, Some(self.id), self.parentHoldId, self.ticketTypeId, now);
    }
  }

  lemma UnreferencedHoldCanGo(holds: map<Id, Hold>, tickets: seq<Ticket>, items: map<Id, OrderItem>, nextId: Id, h: Id)
    requires HoldsOk(holds, tickets, nextId) && !HoldReferenced(holds, tickets, items, h)
    ensures HoldsOk(holds - {h}, tickets, nextId)
  {
    forall i: Id | i < |tickets| && tickets[i].holdId.Some? ensures tickets[i].holdId.value != h {
      assert tickets[i] in tickets;
    }
  }
}
