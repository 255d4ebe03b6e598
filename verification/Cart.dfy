/** `Order::update_quantities` and `clear_cart` (db/src/models/orders.rs:425-698). */
module Cart {
  import opened Schema
  import opened CartLines
  import opened CartSteps
  import opened Inventory
  import opened OrderFees
  import opened OrderItems
  import opened OrderRows
  import opened Pools
  import opened RaisedRows
  import opened TicketInstances

  // ------------------------------------------------------------ looking the request up

  /** The request with its holds: a redemption code names the hold it belongs to. */
  ghost predicate IsMapping(items: seq<UpdateOrderItem>, mapped: seq<MappedLine>, holds: map<Id, Hold>) {
    && |mapped| == |items|
    && forall i :: 0 <= i < |items| ==>
       && mapped[i].pending && mapped[i].item == items[i]
       && match items[i].redemptionCode
          case None => mapped[i].holdId.None? && mapped[i].hold.None?
          case Some(code) =>
            && mapped[i].hold.Some? && mapped[i].holdId == Some(mapped[i].hold.value.id)
            && mapped[i].hold.value.redemptionCode == code
            && exists h :: h in holds && holds[h] == mapped[i].hold.value
  }

  predicate UnknownCode(item: UpdateOrderItem, holds: map<Id, Hold>) {
    item.redemptionCode.Some? && forall h :: h in holds ==> holds[h].redemptionCode != item.redemptionCode.value
  }

  method MapLines(conn: Connection, items: seq<UpdateOrderItem>) returns (r: Result<seq<MappedLine>>)
    ensures r.Ok? ==> IsMapping(items, r.value, conn.holds)
    ensures r.Ok? <==> forall i :: 0 <= i < |items| ==> !UnknownCode(items[i], conn.holds)
  {
    var mapped: seq<MappedLine> := [];
    for i := 0 to |items|
      invariant forall j :: 0 <= j < i ==> !UnknownCode(items[j], conn.holds)
      invariant IsMapping(items[..i], mapped, conn.holds)
    {
      var item := items[i];
      assert items[..i + 1] == items[..i] + [item];
      match item.redemptionCode {
        case None => mapped := mapped + [MappedLine(true, None, None, item)];
        case Some(code) =>
          if h :| h in conn.holds && conn.holds[h].redemptionCode == code {
            mapped := mapped + [MappedLine(true, Some(conn.holds[h].id), Some(conn.holds[h]), item)];
          } else {
            assert UnknownCode(items[i], conn.holds);
            return Err(ValidationError);
          }
      }
    }
    assert items[..|items|] == items;
    return Ok(mapped);
  }

  /** The first pending line with the ticket type and hold of the row. */
  method FirstMatch(mapped: seq<MappedLine>, row: OrderItem) returns (index: Option<nat>)
    ensures index == MatchOf(mapped, row)
  {
    for i := 0 to |mapped|
      invariant forall j :: 0 <= j < i ==> !Matches(mapped[j], row)
    {
      if Matches(mapped[i], row) {
        assert forall j :: 0 <= j < i ==> mapped[..i][j] == mapped[j];
        FirstIsMatch(mapped, row, i);
        return Some(i);
      }
    }
    return None;
  }

  lemma FirstIsMatch(mapped: seq<MappedLine>, row: OrderItem, i: nat)
    requires i < |mapped| && Matches(mapped[i], row) && forall j :: 0 <= j < i ==> !Matches(mapped[j], row)
    ensures MatchOf(mapped, row) == Some(i)
  {
    var _ := MatchOf(mapped, row);
  }

  // ------------------------------------------------------------ one existing item

  /** The price in force for a ticket type and the way of selling, and the event of the ticket type. */
  method CurrentPricing(conn: Connection, ticketTypeId: Id, boxOfficePricing: bool) returns (r: Result<(Pricing, Id)>)
    ensures r.Ok? <==> (ticketTypeId, boxOfficePricing) in conn.pricings && ticketTypeId in conn.ticketTypes
    ensures r.Ok? ==> r.value == (conn.pricings[(ticketTypeId, boxOfficePricing)], conn.ticketTypes[ticketTypeId].eventId)
  {
    if (ticketTypeId, boxOfficePricing) !in conn.pricings {
      return Err(NoResults);
    }
    if ticketTypeId !in conn.ticketTypes {
      return Err(QueryError);
    }
    return Ok((conn.pricings[(ticketTypeId, boxOfficePricing)], conn.ticketTypes[ticketTypeId].eventId));
  }

  // What each step asks for; `more` is how many tickets more there are to take by then than in `tickets`.

  ghost predicate CanLower(conn: Connection, items: map<Id, OrderItem>, tickets: seq<Ticket>, row: OrderItem, quantity: int)
    reads conn`lockedRows, conn`refundedTickets
  {
    && row.quantity - quantity <= Unlocked(tickets, row.id, conn.lockedRows)
    && InIncrements(conn.ticketTypes, row.ticketTypeId, quantity)
    && (quantity == 0 ==> !IsRecorded(items, conn.refundedTickets, row.id))
  }

  ghost predicate CanRemove(conn: Connection, items: map<Id, OrderItem>, tickets: seq<Ticket>, row: OrderItem)
    reads conn`lockedRows, conn`refundedTickets
  {
    row.quantity <= Unlocked(tickets, row.id, conn.lockedRows) && !IsRecorded(items, conn.refundedTickets, row.id)
  }

  /** `n` tickets of the type and hold can be reserved for a quantity that is in increments, at a price that is known. */
  ghost predicate CanTake(conn: Connection, tickets: seq<Ticket>, ticketTypeId: Option<Id>, holdId: Option<Id>, boxOfficePricing: bool,
                          quantity: int, n: int, more: int)
    reads conn`pricings, conn`now, conn`lockedRows
  {
    && ticketTypeId.Some? && ticketTypeId.value in conn.ticketTypes && (ticketTypeId.value, boxOfficePricing) in conn.pricings
    && InIncrements(conn.ticketTypes, ticketTypeId, quantity)
    && n <= Free(tickets, conn.now, conn.lockedRows, ticketTypeId.value, holdId) + more
  }

  ghost predicate CanSetQuantity(conn: Connection, items: map<Id, OrderItem>, tickets: seq<Ticket>, row: OrderItem, boxOfficePricing: bool,
                                 quantity: int, more: int)
    reads conn`pricings, conn`now, conn`lockedRows, conn`refundedTickets
  {
    if quantity < row.quantity then CanLower(conn, items, tickets, row, quantity)
    else row.quantity < quantity ==>
      CanTake(conn, tickets, row.ticketTypeId, row.holdId, boxOfficePricing, quantity, quantity - row.quantity, more)
  }

  ghost predicate CanMerge(conn: Connection, items: map<Id, OrderItem>, tickets: seq<Ticket>, mapped: seq<MappedLine>, row: OrderItem,
                           boxOfficePricing: bool, removeOthers: bool, more: int)
    reads conn`pricings, conn`now, conn`lockedRows, conn`refundedTickets
  {
    match MatchOf(mapped, row)
    case Some(i) => CanSetQuantity(conn, items, tickets, row, boxOfficePricing, mapped[i].item.quantity, more)
    case None => removeOthers ==> CanRemove(conn, items, tickets, row)
  }

  /** How many tickets merging the row frees; when negative, how many it takes. */
  function Freed(mapped: seq<MappedLine>, row: OrderItem, removeOthers: bool): (n: int) {
    match MatchOf(mapped, row)
    case Some(i) => row.quantity - mapped[i].item.quantity
    case None => if removeOthers then row.quantity else 0
  }

  /** The fees of all other items are the same. */
  ghost predicate FeesStay(before: map<Id, OrderItem>, after: map<Id, OrderItem>, except: set<Id>) {
    forall k :: k !in except ==> Children(after, k) == Children(before, k)
  }

  /**
    Raises an item to the quantity of a requested line. If its price has changed, the item stays as it is and a
    new one is inserted beside it, for the whole of the requested quantity but with only the difference reserved.
   */
  method IncreaseItem(conn: Connection, self: Order, row: OrderItem, line: MappedLine, boxOfficePricing: bool)
    returns (r: Result<()>)
    requires Inv(WorldOf(conn)) && IsCart(WorldOf(conn), self) && IsCartRow(WorldOf(conn), self, row)
    requires Matches(line, row) && row.quantity < line.item.quantity
    modifies conn`tickets, conn`orderItems, conn`nextId, conn`history
    ensures r.Ok? <==>
      CanTake(conn, old(conn.tickets), row.ticketTypeId, row.holdId, boxOfficePricing, line.item.quantity, line.item.quantity - row.quantity, 0)
    ensures r.Ok? ==>
      && Inv(WorldOf(conn)) && SameCart(old(WorldOf(conn)), WorldOf(conn))
      && Undisturbed(old(WorldOf(conn)), WorldOf(conn), {row.id})
      && PoolsMoved(old(conn.tickets), conn.tickets, conn.now, conn.lockedRows, row.ticketTypeId, row.holdId, row.quantity - line.item.quantity)
    ensures r.Ok? && PriceHolds(conn.pricings, boxOfficePricing, row) ==>
      && conn.history.repriced == old(conn.history.repriced)
      && conn.orderItems == old(conn.orderItems)[row.id := row.(quantity := line.item.quantity)]
    ensures r.Ok? && !PriceHolds(conn.pricings, boxOfficePricing, row) ==>
      && row.ticketTypeId.value in conn.ticketTypes
      && conn.history.repriced == old(conn.history.repriced)[old(conn.nextId) := row.quantity]
      && conn.orderItems == old(conn.orderItems)[old(conn.nextId) :=
           NewTicketsItem(self, row.ticketTypeId.value, conn.ticketTypes[row.ticketTypeId.value].eventId,
                          conn.pricings[(row.ticketTypeId.value, boxOfficePricing)], line.hold, line.holdId, line.item.quantity)
           .(id := old(conn.nextId))]
      && |Linked(conn.tickets, old(conn.nextId))| == line.item.quantity - row.quantity
  {
    hide Inv, InvBut, Reserves, Undisturbed, PriceUnderHold, Linked, IsLiveItem, InIncrements, PoolsMoved, Free;
    CartRowFacts(WorldOf(conn), self, row);
    var ticketTypeId := row.ticketTypeId.value;
    var priced :- CurrentPricing(conn, ticketTypeId, boxOfficePricing);
    var (pricing, eventId) := priced;
    if Some(pricing.id) != row.ticketPricingId {
      var item := NewTicketsItem(self, ticketTypeId, eventId, pricing, line.hold, line.holdId, line.item.quantity);
      var inserted :- InsertAndReserve(conn, self, item, line.item.quantity - ToU32(row.quantity));
      UndisturbedMore(old(WorldOf(conn)), WorldOf(conn), row.id);
    } else {
      var _ :- RaiseItem(conn, self, row, line.item.quantity);
    }
    return Ok(());
  }

  lemma UndisturbedMore(w: World, after: World, k: Id)
    requires Undisturbed(w, after, {})
    ensures Undisturbed(w, after, {k})
  {
  }

  /**
    What merging one row does to the lines in the cart and the lines still wanted: together they lose the row's own
    line, unless the row is kept without being asked for.
   */
  ghost predicate Merged(items: map<Id, OrderItem>, mapped: seq<MappedLine>, items': map<Id, OrderItem>, mapped': seq<MappedLine>,
                         row: OrderItem, kept: multiset<Line>, orderId: Id) {
    Lines(items', orderId) + Pending(mapped') + LineOf(orderId)(row) == Lines(items, orderId) + Pending(mapped) + kept
  }

  lemma MergedByTaking(items: map<Id, OrderItem>, nextId: Id, mapped: seq<MappedLine>, items': map<Id, OrderItem>,
                       row: OrderItem, index: nat, orderId: Id)
    requires Structured(items, nextId) && row.id in items && items[row.id] == row
    requires row.orderId == orderId && row.itemType == Tickets && row.ticketTypeId.Some?
    requires index < |mapped| && Matches(mapped[index], row)
    requires items' ==
      if mapped[index].item.quantity == 0 then Without(items, row.id)
      else items[row.id := row.(quantity := mapped[index].item.quantity)]
    ensures Merged(items, mapped, items', mapped[index := mapped[index].(pending := false)], row, multiset{}, orderId)
  {
    hide Lines, Pending;
    var m := mapped[index];
    var mapped' := mapped[index := m.(pending := false)];
    PendingAfterTaking(mapped, index);
    if m.item.quantity == 0 {
      LinesAfterRemove(items, nextId, row.id, orderId);
      assert Wanted(m) == multiset{};
      Exchange(Lines(items, orderId), Lines(items', orderId), Pending(mapped), Pending(mapped'), LineOf(orderId)(row), multiset{});
    } else {
      var updated := row.(quantity := m.item.quantity);
      LinesAfterReplace(items, row.id, updated, orderId);
      assert Wanted(m) == LineOf(orderId)(updated);
      Exchange(Lines(items, orderId), Lines(items', orderId), Pending(mapped), Pending(mapped'), LineOf(orderId)(row), Wanted(m));
    }
  }

  lemma Exchange(l: multiset<Line>, l': multiset<Line>, p: multiset<Line>, p': multiset<Line>, row: multiset<Line>, wanted: multiset<Line>)
    requires l' + row == l + wanted && p == p' + wanted
    ensures l' + p' + row == l + p + multiset{}
  {
    assert l' + p' + row == (l' + row) + p';
    assert l + (p' + wanted) == (l + wanted) + p';
  }

  lemma MergedByRemoving(items: map<Id, OrderItem>, nextId: Id, mapped: seq<MappedLine>, row: OrderItem, orderId: Id)
    requires Structured(items, nextId) && row.id in items && items[row.id] == row
    ensures Merged(items, mapped, Without(items, row.id), mapped, row, multiset{}, orderId)
  {
    LinesAfterRemove(items, nextId, row.id, orderId);
  }

  lemma MergedByKeeping(items: map<Id, OrderItem>, mapped: seq<MappedLine>, row: OrderItem, orderId: Id)
    ensures Merged(items, mapped, items, mapped, row, LineOf(orderId)(row), orderId)
  {
  }

  lemma MergedByAdding(items: map<Id, OrderItem>, items': map<Id, OrderItem>, mapped: seq<MappedLine>, row: OrderItem, index: nat,
                       orderId: Id)
    requires index < |mapped| && Lines(items', orderId) == Lines(items, orderId) + Wanted(mapped[index])
    ensures Merged(items, mapped, items', mapped[index := mapped[index].(pending := false)], row, LineOf(orderId)(row), orderId)
  {
    hide Lines, Pending, Wanted;
    PendingAfterTaking(mapped, index);
    var after := Pending(mapped[index := mapped[index].(pending := false)]);
    assert Lines(items, orderId) + Wanted(mapped[index]) + after == Lines(items, orderId) + (after + Wanted(mapped[index]));
  }

  /** Brings an item to the quantity of the requested line that matches it, or puts another beside it if the price has changed. */
  method TakeLine(conn: Connection, self: Order, row: OrderItem, line: MappedLine, boxOfficePricing: bool)
    returns (r: Result<()>, increased: bool)
    requires Inv(WorldOf(conn)) && IsCart(WorldOf(conn), self) && IsCartRow(WorldOf(conn), self, row)
    requires Matches(line, row) && HoldIsKnown(line, conn.holds)
    modifies conn`tickets, conn`orderItems, conn`nextId, conn`history
    ensures increased <==> row.quantity < line.item.quantity
    ensures r.Ok? <==> CanSetQuantity(conn, old(conn.orderItems), old(conn.tickets), row, boxOfficePricing, line.item.quantity, 0)
    ensures r.Ok? ==>
      && Inv(WorldOf(conn)) && SameCart(old(WorldOf(conn)), WorldOf(conn))
      && Undisturbed(old(WorldOf(conn)), WorldOf(conn), {row.id})
      && PoolsMoved(old(conn.tickets), conn.tickets, conn.now, conn.lockedRows, row.ticketTypeId, row.holdId, row.quantity - line.item.quantity)
      && FeesStay(old(conn.orderItems), conn.orderItems, {row.id})
      && SoldAtPrice(old(conn.orderItems), conn.orderItems, TermsOf(conn), boxOfficePricing, self.id)
    ensures r.Ok? && !(increased && !PriceHolds(conn.pricings, boxOfficePricing, row)) ==>
      && conn.history.repriced == old(conn.history.repriced)
      && conn.orderItems == (if line.item.quantity == 0 then Without(old(conn.orderItems), row.id)
                             else old(conn.orderItems)[row.id := row.(quantity := line.item.quantity)])
    ensures r.Ok? && increased && !PriceHolds(conn.pricings, boxOfficePricing, row) ==>
      && conn.history.repriced == old(conn.history.repriced)[old(conn.nextId) := row.quantity]
      && IsTwin(conn.orderItems, row, line.item.quantity, old(conn.nextId))
      && Lines(conn.orderItems, self.id) == Lines(old(conn.orderItems), self.id) + Wanted(line)
  {
    hide Inv, InvBut, Reserves, Undisturbed, Without, PriceHolds, Lines, PriceUnderHold, Enough, InIncrements, SoldAtPrice, PoolsMoved,
      Unlocked, IsRecorded, Free, FeesStay, Children, Structured, HoldIsKnown, IsMultiple;
    IncrementsAreMultiples(row, conn.ticketTypes, line.item.quantity);
    CartRowFacts(WorldOf(conn), self, row);
    InvIsStructured(WorldOf(conn));
    TakenFeesStay(conn.orderItems, conn.nextId, row, line.item.quantity);
    FreshId(WorldOf(conn));
    TakenAtPrice(conn.orderItems, row, line.item.quantity, TermsOf(conn), boxOfficePricing);
    increased := ToU32(row.quantity) < line.item.quantity;
    if line.item.quantity < ToU32(row.quantity) {
      r := ReduceItem(conn, self, row, line.item.quantity);
    } else if ToU32(row.quantity) < line.item.quantity {
      r := IncreaseItem(conn, self, row, line, boxOfficePricing);
      if r.Ok? && !PriceHolds(conn.pricings, boxOfficePricing, row) {
        NewRowFeesStay(old(conn.orderItems), old(conn.nextId), conn.orderItems[old(conn.nextId)], row.id);
        LinesAfterInsert(old(conn.orderItems), old(conn.nextId), conn.orderItems[old(conn.nextId)], self.id);
        NewRowAtPrice(old(conn.orderItems), old(conn.nextId), self, row.ticketTypeId.value,
                      conn.ticketTypes[row.ticketTypeId.value].eventId, conn.pricings[(row.ticketTypeId.value, boxOfficePricing)], line,
                      TermsOf(conn), boxOfficePricing);
      }
    } else {
      assert conn.orderItems[row.id := row.(quantity := line.item.quantity)] == conn.orderItems;
      NothingChanged(WorldOf(conn), {row.id});
      NothingMoved(conn.tickets, conn.now, conn.lockedRows, row.ticketTypeId, row.holdId);
      r := Ok(());
    }
  }

  lemma TakenFeesStay(items: map<Id, OrderItem>, nextId: Id, row: OrderItem, quantity: int)
    requires row.id in items && items[row.id] == row && row.itemType == Tickets && Structured(items, nextId)
    ensures FeesStay(items, Without(items, row.id), {row.id})
    ensures FeesStay(items, items[row.id := row.(quantity := quantity)], {row.id})
  {
  }

  lemma NewRowFeesStay(items: map<Id, OrderItem>, nextId: Id, row: OrderItem, k: Id)
    requires nextId !in items && row.parentId.None?
    ensures FeesStay(items, items[nextId := row], {k})
  {
  }

  /** Where quantities go in increments, they are multiples of them. */
  lemma IncrementsAreMultiples(row: OrderItem, ticketTypes: map<Id, TicketType>, quantity: int)
    ensures InIncrements(ticketTypes, row.ticketTypeId, quantity) ==> IsMultiple(row.(quantity := quantity), ticketTypes)
  {
  }

  lemma TakenAtPrice(items: map<Id, OrderItem>, row: OrderItem, quantity: int, terms: Terms, boxOfficePricing: bool)
    requires row.id in items && items[row.id] == row && row.itemType == Tickets
    ensures SoldAtPrice(items, Without(items, row.id), terms, boxOfficePricing, row.orderId)
    ensures quantity == row.quantity || IsMultiple(row.(quantity := quantity), terms.ticketTypes) ==>
      SoldAtPrice(items, items[row.id := row.(quantity := quantity)], terms, boxOfficePricing, row.orderId)
  {
    hide IsNewRow, IsMultiple;
    FewerRowsAtPrice(items, Without(items, row.id), terms, boxOfficePricing, row.orderId);
    if quantity == row.quantity || IsMultiple(row.(quantity := quantity), terms.ticketTypes) {
      RowAtPrice(items, row.id, row.(quantity := quantity), terms, boxOfficePricing, row.orderId);
    }
  }

  lemma NewRowAtPrice(items: map<Id, OrderItem>, k: Id, self: Order, ticketTypeId: Id, eventId: Id, pricing: Pricing, line: MappedLine,
                      terms: Terms, boxOfficePricing: bool)
    requires HoldIsKnown(line, terms.holds) && ticketTypeId in terms.ticketTypes && eventId == terms.ticketTypes[ticketTypeId].eventId
    requires (ticketTypeId, boxOfficePricing) in terms.pricings && pricing == terms.pricings[(ticketTypeId, boxOfficePricing)]
    requires InIncrements(terms.ticketTypes, Some(ticketTypeId), line.item.quantity)
    ensures
      var row := NewTicketsItem(self, ticketTypeId, eventId, pricing, line.hold, line.holdId, line.item.quantity).(id := k);
      SoldAtPrice(items, items[k := row], terms, boxOfficePricing, self.id)
  {
    var row := NewTicketsItem(self, ticketTypeId, eventId, pricing, line.hold, line.holdId, line.item.quantity).(id := k);
    RowAtPrice(items, k, row, terms, boxOfficePricing, self.id);
  }

  lemma FreshId(w: World)
    requires Inv(w)
    ensures w.nextId !in w.items && w.nextId !in w.history.repriced
  {
  }

  /** Merges one Tickets row of the cart with the request. */
  method MergeRow(conn: Connection, self: Order, row: OrderItem, mapped: seq<MappedLine>, boxOfficePricing: bool, removeOthers: bool)
    returns (r: Result<seq<MappedLine>>, increased: bool)
    requires HoldsAreKnown(mapped, conn.holds)
    requires Inv(WorldOf(conn)) && IsCart(WorldOf(conn), self) && IsCartRow(WorldOf(conn), self, row)
    modifies conn`tickets, conn`orderItems, conn`nextId, conn`history
    ensures r.Ok? <==> CanMerge(conn, old(conn.orderItems), old(conn.tickets), mapped, row, boxOfficePricing, removeOthers, 0)
    ensures r.Ok? ==>
      && Inv(WorldOf(conn)) && SameCart(old(WorldOf(conn)), WorldOf(conn))
      && Undisturbed(old(WorldOf(conn)), WorldOf(conn), {row.id})
      && SoldAtPrice(old(conn.orderItems), conn.orderItems, TermsOf(conn), boxOfficePricing, self.id)
      && r.value == TakenBy(mapped, row) && (increased <==> IsRaised(mapped, row))
      && PoolsMoved(old(conn.tickets), conn.tickets, conn.now, conn.lockedRows, row.ticketTypeId, row.holdId, Freed(mapped, row, removeOthers))
      && FeesStay(old(conn.orderItems), conn.orderItems, {row.id})
      && Merged(old(conn.orderItems), mapped, conn.orderItems, r.value, row,
                KeptLine(conn.pricings, boxOfficePricing, mapped, row, removeOthers), self.id)
    ensures r.Ok? && !IsRepriced(conn.pricings, boxOfficePricing, mapped, row) ==> conn.history.repriced == old(conn.history.repriced)
    ensures r.Ok? && IsRepriced(conn.pricings, boxOfficePricing, mapped, row) ==>
      && conn.history.repriced == old(conn.history.repriced)[old(conn.nextId) := row.quantity]
      && IsTwin(conn.orderItems, row, mapped[MatchOf(mapped, row).value].item.quantity, old(conn.nextId))
    ensures r.Ok? && LeftAlone(mapped, row, removeOthers) ==> unchanged(conn)
  {
    hide Inv, InvBut, Reserves, Undisturbed, Merged, Without, PriceHolds, Lines, Wanted, LineOf, SoldAtPrice, PoolsMoved, Unlocked, IsRecorded,
      CanSetQuantity, FeesStay;
    CartRowFacts(WorldOf(conn), self, row);
    InvIsStructured(WorldOf(conn));
    FreshId(WorldOf(conn));
    TakenFeesStay(conn.orderItems, conn.nextId, row, row.quantity);
    assert conn.orderItems[row.id := row.(quantity := row.quantity)] == conn.orderItems;
    NothingMoved(conn.tickets, conn.now, conn.lockedRows, row.ticketTypeId, row.holdId);
    TakenAtPrice(conn.orderItems, row, row.quantity, TermsOf(conn), boxOfficePricing);
    FewerRowsAtPrice(conn.orderItems, conn.orderItems, TermsOf(conn), boxOfficePricing, self.id);
    increased := false;
    var index := FirstMatch(mapped, row);
    if index.Some? {
      var taken;
      taken, increased := TakeLine(conn, self, row, mapped[index.value], boxOfficePricing);
      if taken.Err? {
        return Err(taken.error), increased;
      }
      if IsRepriced(conn.pricings, boxOfficePricing, mapped, row) {
        MergedByAdding(old(conn.orderItems), conn.orderItems, mapped, row, index.value, self.id);
      } else {
        MergedByTaking(old(conn.orderItems), old(conn.nextId), mapped, conn.orderItems, row, index.value, self.id);
      }
      return Ok(mapped[index.value := mapped[index.value].(pending := false)]), increased;
    }
    if removeOthers {
      var removed := RemoveItem(conn, self, row);
      if removed.Err? {
        return Err(removed.error), false;
      }
      MergedByRemoving(old(conn.orderItems), old(conn.nextId), mapped, row, self.id);
      return Ok(mapped), false;
    }
    MergedByKeeping(conn.orderItems, mapped, row, self.id);
    NothingChanged(WorldOf(conn), {row.id});
    return Ok(mapped), false;
  }

  ghost predicate OnlyTaken(mapped: seq<MappedLine>, after: seq<MappedLine>) {
    |after| == |mapped| && forall i :: 0 <= i < |mapped| ==> after[i] == mapped[i] || after[i] == mapped[i].(pending := false)
  }

  lemma InvIsStructured(w: World)
    requires Inv(w)
    ensures Structured(w.items, w.nextId)
  {
  }

  // ------------------------------------------------------------ fees do not disturb reservations

  lemma FeesLeaveTicketRows(before: map<Id, OrderItem>, after: map<Id, OrderItem>, nextId: Id, nextId': Id, rows: seq<OrderItem>,
                            orderId: Id, ticketTypes: map<Id, TicketType>, holds: map<Id, Hold>, events: map<Id, Event>)
    requires Structured(before, nextId) && FeesUpdated(before, after, nextId', rows, orderId, ticketTypes, holds, events)
    ensures Structured(after, nextId') && OneFeeEach(after)
    ensures forall k :: k in before && before[k].itemType == Tickets ==> k in after && after[k] == before[k]
    ensures forall k :: k in after && after[k].itemType == Tickets ==> k in before && after[k] == before[k]
    ensures forall k :: k in after ==>
      || after[k].orderId == orderId
      || (k in before && before[k].orderId == after[k].orderId)
      || (after[k].parentId.Some? && after[k].parentId.value in after && after[after[k].parentId.value].itemType == Tickets
          && after[after[k].parentId.value].orderId == after[k].orderId)
  {
    var base := WithoutEventFees(before, orderId);
    assert forall k :: k in before && before[k].itemType == Tickets ==> k in base && base[k] == before[k];
    assert ParentsAreOfFees(after);
    hide EventFeeTotal, EventCharges, AreRowsOf, ItemSettled, OneFeeEach;
  }

  /** `update_fees` stays within its order. */
  lemma FeesLeaveOtherOrders(before: map<Id, OrderItem>, after: map<Id, OrderItem>, nextId: Id, nextId': Id, rows: seq<OrderItem>,
                             orderId: Id, ticketTypes: map<Id, TicketType>, holds: map<Id, Hold>, events: map<Id, Event>, o: Id)
    requires Structured(before, nextId) && FeesUpdated(before, after, nextId', rows, orderId, ticketTypes, holds, events)
    requires o != orderId
    ensures KeepsRows(before, after, o)
  {
    var base := WithoutEventFees(before, orderId);
    var done := ChargedIds(Evented(rows), holds);
    FeesLeaveTicketRows(before, after, nextId, nextId', rows, orderId, ticketTypes, holds, events);
    forall k | k in done ensures k in before && before[k].orderId == orderId && before[k].itemType == Tickets {
      assert k in Ids(rows);
    }
    hide FeesUpdated;
    OtherRowsAreElsewhere(before, base, after, nextId, nextId', done, orderId, o);
  }

  lemma OtherRowsAreElsewhere(before: map<Id, OrderItem>, base: map<Id, OrderItem>, after: map<Id, OrderItem>, nextId: Id, nextId': Id,
                              done: set<Id>, orderId: Id, o: Id)
    requires Structured(before, nextId) && Structured(after, nextId') && o != orderId
    requires base == WithoutEventFees(before, orderId) && SameElsewhere(base, after, done, orderId)
    requires forall k :: k in done ==> k in before && before[k].orderId == orderId && before[k].itemType == Tickets
    requires forall k :: k in before && before[k].itemType == Tickets ==> k in after && after[k] == before[k]
    ensures KeepsRows(before, after, o)
  {
    hide Structured;
    forall r | (r in before && before[r].orderId == o) || (r in after && after[r].orderId == o)
      ensures r in before && r in after && after[r] == before[r]
    {
      if r in before && before[r].orderId == o {
        ParentInSameOrder(before, nextId, r);
        assert r in base;
      }
      if r in after && after[r].orderId == o {
        ParentInSameOrder(after, nextId', r);
      }
    }
  }

  lemma ParentInSameOrder(items: map<Id, OrderItem>, nextId: Id, k: Id)
    requires Structured(items, nextId) && k in items
    ensures items[k].parentId.Some? ==> items[k].parentId.value in items && items[items[k].parentId.value].orderId == items[k].orderId
  {
  }

  lemma UpdatingFeesIsSafe(w: World, after: World, rows: seq<OrderItem>, orderId: Id, ticketTypes: map<Id, TicketType>,
                           holds: map<Id, Hold>, events: map<Id, Event>)
    requires Inv(w) && orderId in w.orders && !IsPastDraft(w, orderId)
    requires FeesUpdated(w.items, after.items, after.nextId, rows, orderId, ticketTypes, holds, events)
    requires after == w.(items := after.items, nextId := after.nextId) && w.nextId <= after.nextId
    requires ItemsOf(w.items, orderId) == {} ==> after.items == w.items
    ensures Inv(after) && Undisturbed(w, after, {})
    ensures Lines(after.items, orderId) == Lines(w.items, orderId)
  {
    InvIsStructured(w);
    hide FeesUpdated, Frame, Undisturbed, Lines;
    FeesLeaveTicketRows(w.items, after.items, w.nextId, after.nextId, rows, orderId, ticketTypes, holds, events);
    LinesOfSameTickets(w.items, after.items, orderId);
    forall o | o != orderId ensures KeepsRows(w.items, after.items, o) {
      FeesLeaveOtherOrders(w.items, after.items, w.nextId, after.nextId, rows, orderId, ticketTypes, holds, events, o);
    }
    FeesKeepItems(w, after, orderId);
  }

  lemma FeesKeepItems(w: World, after: World, orderId: Id)
    requires Inv(w) && orderId in w.orders && after == w.(items := after.items, nextId := after.nextId) && w.nextId <= after.nextId
    requires !IsPastDraft(w, orderId) && forall o :: o != orderId ==> KeepsRows(w.items, after.items, o)
    requires Structured(after.items, after.nextId) && OneFeeEach(after.items)
    requires ItemsOf(w.items, orderId) == {} ==> after.items == w.items
    requires forall k :: k in w.items && w.items[k].itemType == Tickets ==> k in after.items && after.items[k] == w.items[k]
    requires forall k :: k in after.items && after.items[k].itemType == Tickets ==> k in w.items && after.items[k] == w.items[k]
    requires forall k :: k in after.items ==>
      || after.items[k].orderId == orderId
      || (k in w.items && w.items[k].orderId == after.items[k].orderId)
      || (after.items[k].parentId.Some? && after.items[k].parentId.value in after.items
          && after.items[after.items[k].parentId.value].itemType == Tickets
          && after.items[after.items[k].parentId.value].orderId == after.items[k].orderId)
    ensures Inv(after) && Undisturbed(w, after, {})
  {
    FeeRowsHaveOrders(w, after, orderId);
    FeesKeepFrame(w, after);
    FeesDisturbNobody(w, after, orderId);
    hide Frame, ItemsHaveOrders, OneFeeEach, Structured, Undisturbed, KeepsRows;
    forall k | k in after.items && after.items[k].itemType == Tickets ensures ItemOk(after, k) {
      assert ItemOk(w, k);
    }
  }

  lemma FeesDisturbNobody(w: World, after: World, orderId: Id)
    requires after == w.(items := after.items, nextId := after.nextId) && w.nextId <= after.nextId
    requires !IsPastDraft(w, orderId) && forall o :: o != orderId ==> KeepsRows(w.items, after.items, o)
    requires forall k :: k in w.items && w.items[k].itemType == Tickets ==> k in after.items && after.items[k] == w.items[k]
    ensures Undisturbed(w, after, {})
  {
    hide KeepsRows;
  }

  lemma FeesKeepFrame(w: World, after: World)
    requires Frame(w) && after == w.(items := after.items, nextId := after.nextId) && w.nextId <= after.nextId
    requires Structured(after.items, after.nextId) && OneFeeEach(after.items) && ItemsHaveOrders(after)
    requires forall k :: k in w.items && w.items[k].itemType == Tickets ==> k in after.items && after.items[k] == w.items[k]
    ensures Frame(after)
  {
    hide Structured, OneFeeEach, ItemsHaveOrders;
  }

  lemma FeeRowsHaveOrders(w: World, after: World, orderId: Id)
    requires ItemsHaveOrders(w) && orderId in w.orders && after == w.(items := after.items, nextId := after.nextId)
    requires ItemsOf(w.items, orderId) == {} ==> after.items == w.items
    requires forall k :: k in after.items && after.items[k].itemType == Tickets ==> k in w.items && after.items[k] == w.items[k]
    requires forall k :: k in after.items ==>
      || after.items[k].orderId == orderId
      || (k in w.items && w.items[k].orderId == after.items[k].orderId)
      || (after.items[k].parentId.Some? && after.items[k].parentId.value in after.items
          && after.items[after.items[k].parentId.value].itemType == Tickets
          && after.items[after.items[k].parentId.value].orderId == after.items[k].orderId)
    ensures ItemsHaveOrders(after)
  {
    if j :| j in ItemsOf(w.items, orderId) {
      assert w.orders[orderId].expiresAt.Some?;
    }
  }

  // ------------------------------------------------------------ all existing items

  /** The rows of the cart as loaded, all Tickets rows among them still in place. */
  ghost predicate AreCartRows(w: World, self: Order, rows: seq<OrderItem>) {
    DistinctIds(rows) && forall i :: 0 <= i < |rows| && rows[i].itemType == Tickets ==> IsCartRow(w, self, rows[i])
  }

  lemma UntouchedCartRow(w: World, after: World, self: Order, rows: seq<OrderItem>, i: nat, touched: set<Id>)
    requires Inv(w) && IsCart(w, self) && AreCartRows(w, self, rows) && i < |rows| && rows[i].itemType == Tickets
    requires SameCart(w, after) && Undisturbed(w, after, touched) && touched <= Ids(rows[..i])
    ensures IsCartRow(after, self, rows[i])
  {
    assert IsCartRow(w, self, rows[i]);
    CartRowFacts(w, self, rows[i]);
    DistinctFromEarlier(rows, i);
    assert KeepsItem(w, after, rows[i].id);
  }

  /** The lines in the cart after the first rows have been merged. */
  ghost predicate MergedSoFar(items: map<Id, OrderItem>, mapped: seq<MappedLine>, items': map<Id, OrderItem>, mapped': seq<MappedLine>,
                              done: seq<OrderItem>, kept: multiset<Line>, orderId: Id) {
    Lines(items', orderId) + Pending(mapped') + SeqLines(done, orderId) == Lines(items, orderId) + Pending(mapped) + kept
  }

  lemma MergedNext(items: map<Id, OrderItem>, mapped: seq<MappedLine>, items1: map<Id, OrderItem>, mapped1: seq<MappedLine>,
                   items2: map<Id, OrderItem>, mapped2: seq<MappedLine>, rows: seq<OrderItem>, i: nat,
                   kept: multiset<Line>, more: multiset<Line>, orderId: Id)
    requires i < |rows| && MergedSoFar(items, mapped, items1, mapped1, rows[..i], kept, orderId)
    requires Merged(items1, mapped1, items2, mapped2, rows[i], more, orderId)
    ensures MergedSoFar(items, mapped, items2, mapped2, rows[..i + 1], kept + more, orderId)
  {
    assert rows[..i + 1][..i] == rows[..i];
    hide Lines, Pending;
    MergeSums(Lines(items, orderId), Pending(mapped), Lines(items1, orderId), Pending(mapped1), Lines(items2, orderId),
              Pending(mapped2), SeqLines(rows[..i], orderId), LineOf(orderId)(rows[i]), kept, more);
  }

  lemma MergeSums(l0: multiset<Line>, p0: multiset<Line>, l1: multiset<Line>, p1: multiset<Line>, l2: multiset<Line>, p2: multiset<Line>,
                  done: multiset<Line>, row: multiset<Line>, kept: multiset<Line>, more: multiset<Line>)
    requires l1 + p1 + done == l0 + p0 + kept
    requires l2 + p2 + row == l1 + p1 + more
    ensures l2 + p2 + (done + row) == l0 + p0 + (kept + more)
  {
    assert l2 + p2 + (done + row) == (l2 + p2 + row) + done;
    assert (l1 + p1 + more) + done == (l1 + p1 + done) + more;
  }

  lemma TakenTwice(a: seq<MappedLine>, b: seq<MappedLine>, c: seq<MappedLine>)
    requires OnlyTaken(a, b) && OnlyTaken(b, c)
    ensures OnlyTaken(a, c)
  {
  }

  lemma StillLeftAlone(a: seq<MappedLine>, b: seq<MappedLine>, row: OrderItem, removeOthers: bool)
    requires OnlyTaken(a, b)
    ensures LeftAlone(a, row, removeOthers) ==> LeftAlone(b, row, removeOthers)
  {
  }

  lemma DistinctFromEarlier(rows: seq<OrderItem>, i: nat)
    requires i < |rows| && DistinctIds(rows)
    ensures Ids(rows[..i + 1]) == Ids(rows[..i]) + {rows[i].id}
    ensures rows[i].id !in Ids(rows[..i])
    ensures forall j :: 0 <= j < i ==> rows[j].id != rows[i].id
  {
    assert rows[..i + 1] == rows[..i] + [rows[i]];
    forall row | row in rows[..i] ensures row.id != rows[i].id {
      var j :| 0 <= j < i && rows[j] == row;
    }
  }

  /** What has been done once a row each has been merged for `twins`: `mapped` is pending no more where a row has taken a line. */
  ghost predicate MergedRows(start: World, w: World, rows: seq<OrderItem>, twins: seq<Option<Id>>, mapped: seq<MappedLine>,
                             terms: Terms, boxOfficePricing: bool, removeOthers: bool, orderId: Id)
    requires |twins| <= |rows|
  {
    var n := |twins|;
    && MergedSoFar(start.items, mapped, w.items, TakenByAll(mapped, rows[..n]), rows[..n],
                   KeptLines(terms.pricings, boxOfficePricing, mapped, rows[..n], removeOthers), orderId)
    && AreTwins(start.history.repriced, w.history.repriced, w.items, start.nextId, terms.pricings, boxOfficePricing, mapped, rows, twins)
    && SoldAtPrice(start.items, w.items, terms, boxOfficePricing, orderId)
  }

  lemma NoRowsMerged(w: World, rows: seq<OrderItem>, mapped: seq<MappedLine>, terms: Terms,
                     boxOfficePricing: bool, removeOthers: bool, orderId: Id)
    ensures OnlyTaken(mapped, mapped) && Undisturbed(w, w, {})
    ensures MergedRows(w, w, rows, [], mapped, terms, boxOfficePricing, removeOthers, orderId)
  {
    hide Undisturbed, SoldAtPrice, Lines, Pending;
    assert rows[..0] == [];
    NothingChanged(w, {});
    FewerRowsAtPrice(w.items, w.items, terms, boxOfficePricing, orderId);
    NoTwinsYet(w.history.repriced, w.items, w.nextId, terms.pricings, boxOfficePricing, mapped, rows);
  }

  lemma MergedRowsNext(start: World, b: World, w: World, self: Order, rows: seq<OrderItem>, twins: seq<Option<Id>>,
                       mapped: seq<MappedLine>, terms: Terms, boxOfficePricing: bool, removeOthers: bool,
                       n: nat, orderId: Id, except: set<Id>)
    requires n == |twins| < |rows| && rows[n].orderId == orderId
    requires MergedRows(start, b, rows, twins, mapped, terms, boxOfficePricing, removeOthers, orderId)
    requires Inv(b) && IsCart(b, self) && AreOld(rows, self, start.nextId) && start.nextId <= b.nextId
    requires Undisturbed(b, w, except) && except <= {rows[n].id} && (rows[n].itemType != Tickets ==> except == {})
    requires Merged(b.items, TakenByAll(mapped, rows[..n]), w.items, TakenBy(TakenByAll(mapped, rows[..n]), rows[n]), rows[n],
                    KeptLine(terms.pricings, boxOfficePricing, TakenByAll(mapped, rows[..n]), rows[n], removeOthers), orderId)
    requires Leaves(b, w, terms.pricings, boxOfficePricing, mapped, rows, n)
    requires SoldAtPrice(b.items, w.items, terms, boxOfficePricing, orderId)
    ensures MergedRows(start, w, rows, twins + [TwinLeft(b, terms.pricings, boxOfficePricing, mapped, rows, n)], mapped, terms,
                       boxOfficePricing, removeOthers, orderId)
  {
    hide Inv, IsCart, AreOld, AreTwins, Leaves, TwinLeft, Undisturbed, Merged, MergedSoFar, IsRepriced, KeptLine, TakenBy, SoldAtPrice;
    SoldAtPriceTwice(start.items, b.items, w.items, terms, boxOfficePricing, orderId);
    NextTwin(start.history.repriced, b, w, self, start.nextId, terms.pricings, boxOfficePricing, mapped, rows, twins, except);
    assert rows[..n + 1][..n] == rows[..n];
    MergedNext(start.items, mapped, b.items, TakenByAll(mapped, rows[..n]), w.items,
               TakenByAll(mapped, rows[..n + 1]), rows, n, KeptLines(terms.pricings, boxOfficePricing, mapped, rows[..n], removeOthers),
               KeptLine(terms.pricings, boxOfficePricing, TakenByAll(mapped, rows[..n]), rows[n], removeOthers), orderId);
  }

  /** Rows of fees take nothing and count for nothing. */
  lemma FeeRowsMerge(items: map<Id, OrderItem>, mapped: seq<MappedLine>, row: OrderItem, terms: Terms,
                     boxOfficePricing: bool, removeOthers: bool, orderId: Id)
    requires row.itemType != Tickets && row.orderId == orderId
    ensures Merged(items, mapped, items, TakenBy(mapped, row), row, KeptLine(terms.pricings, boxOfficePricing, mapped, row, removeOthers), orderId)
    ensures !IsRepriced(terms.pricings, boxOfficePricing, mapped, row) && !IsRaised(mapped, row)
    ensures SoldAtPrice(items, items, terms, boxOfficePricing, orderId)
  {
  }

  /** How many tickets of the type and hold merging the rows frees; when negative, how many it takes. */
  function FreedBy(mapped: seq<MappedLine>, rows: seq<OrderItem>, removeOthers: bool, t: Id, h: Option<Id>): (n: int) {
    if rows == [] then 0
    else
      var front, last := rows[..|rows| - 1], rows[|rows| - 1];
      FreedBy(mapped, front, removeOthers, t, h)
        + if last.itemType == Tickets && last.ticketTypeId == Some(t) && last.holdId == h
          then Freed(TakenByAll(mapped, front), last, removeOthers) else 0
  }

  /** The `i`-th row can be merged, once those before it have been, with what they have freed. */
  ghost predicate CanMergeAt(conn: Connection, items: map<Id, OrderItem>, tickets: seq<Ticket>, mapped: seq<MappedLine>,
                             rows: seq<OrderItem>, i: nat, boxOfficePricing: bool, removeOthers: bool)
    requires i < |rows|
    reads conn`pricings, conn`now, conn`lockedRows, conn`refundedTickets
  {
    rows[i].itemType == Tickets ==>
      CanMerge(conn, items, tickets, TakenByAll(mapped, rows[..i]), rows[i], boxOfficePricing, removeOthers,
               if rows[i].ticketTypeId.Some? then FreedBy(mapped, rows[..i], removeOthers, rows[i].ticketTypeId.value, rows[i].holdId) else 0)
  }

  /** Every row can be merged in its turn. */
  ghost predicate CanMergeAll(conn: Connection, items: map<Id, OrderItem>, tickets: seq<Ticket>, mapped: seq<MappedLine>,
                              rows: seq<OrderItem>, boxOfficePricing: bool, removeOthers: bool)
    reads conn`pricings, conn`now, conn`lockedRows, conn`refundedTickets
  {
    forall i :: 0 <= i < |rows| ==> CanMergeAt(conn, items, tickets, mapped, rows, i, boxOfficePricing, removeOthers)
  }

  function FreedIn(mapped: seq<MappedLine>, rows: seq<OrderItem>, removeOthers: bool): (change: (Id, Option<Id>) -> int) {
    (t: Id, h: Option<Id>) => FreedBy(mapped, rows, removeOthers, t, h)
  }

  /** What there is to take once the rows have been merged. */
  ghost predicate PoolsAfter(before: seq<Ticket>, after: seq<Ticket>, now: Time, locked: set<Id>, mapped: seq<MappedLine>,
                             rows: seq<OrderItem>, removeOthers: bool) {
    PoolsGrown(before, after, now, locked, FreedIn(mapped, rows, removeOthers))
  }

  lemma PoolsNext(a: seq<Ticket>, b: seq<Ticket>, c: seq<Ticket>, now: Time, locked: set<Id>, mapped: seq<MappedLine>,
                  rows: seq<OrderItem>, n: nat, removeOthers: bool)
    requires n < |rows| && PoolsAfter(a, b, now, locked, mapped, rows[..n], removeOthers)
    requires PoolsMoved(b, c, now, locked, rows[n].ticketTypeId, rows[n].holdId,
                        if rows[n].itemType == Tickets then Freed(TakenByAll(mapped, rows[..n]), rows[n], removeOthers) else 0)
    ensures PoolsAfter(a, c, now, locked, mapped, rows[..n + 1], removeOthers)
  {
    assert rows[..n + 1][..n] == rows[..n];
    hide Free, Freed;
  }

  /** A row that has not been touched can be merged now if it could be merged then, with what has been freed since. */
  lemma MergesAlike(conn: Connection, start: World, w: World, self: Order, mapped: seq<MappedLine>, rows: seq<OrderItem>, i: nat,
                    boxOfficePricing: bool, removeOthers: bool, touched: set<Id>)
    requires Inv(start) && IsCart(start, self) && AreCartRows(start, self, rows) && i < |rows| && rows[i].itemType == Tickets
    requires Undisturbed(start, w, touched) && touched <= Ids(rows[..i]) && FeesStay(start.items, w.items, Ids(rows[..i]))
    requires PoolsAfter(start.tickets, w.tickets, conn.now, conn.lockedRows, mapped, rows[..i], removeOthers)
    ensures CanMerge(conn, w.items, w.tickets, TakenByAll(mapped, rows[..i]), rows[i], boxOfficePricing, removeOthers, 0)
       <==> CanMergeAt(conn, start.items, start.tickets, mapped, rows, i, boxOfficePricing, removeOthers)
  {
    hide Inv, RecordsLittle, TakenByAll, FreedBy, InIncrements, MatchOf;
    assert IsCartRow(start, self, rows[i]);
    CartRowFacts(start, self, rows[i]);
    DistinctFromEarlier(rows, i);
    assert KeepsItem(start, w, rows[i].id);
    assert Unlocked(w.tickets, rows[i].id, conn.lockedRows) == Unlocked(start.tickets, rows[i].id, conn.lockedRows);
    assert IsRecorded(w.items, conn.refundedTickets, rows[i].id) <==> IsRecorded(start.items, conn.refundedTickets, rows[i].id);
  }

  lemma FeesStayTwice(a: map<Id, OrderItem>, b: map<Id, OrderItem>, c: map<Id, OrderItem>, e1: set<Id>, e2: set<Id>)
    requires FeesStay(a, b, e1) && FeesStay(b, c, e2)
    ensures FeesStay(a, c, e1 + e2)
  {
    hide Children;
  }

  /** Merges one row of the cart with what the rows before it have left pending. */
  method MergeNext(conn: Connection, self: Order, rows: seq<OrderItem>, n: nat, left: seq<MappedLine>, boxOfficePricing: bool,
                   removeOthers: bool, ghost mapped: seq<MappedLine>, ghost start: World, ghost twins: seq<Option<Id>>)
    returns (r: Result<seq<MappedLine>>, increased: bool, ghost twin: Option<Id>)
    requires |twins| == n < |rows| && rows[n].orderId == self.id && left == TakenByAll(mapped, rows[..n])
    requires HoldsAreKnown(left, conn.holds)
    requires Inv(WorldOf(conn)) && IsCart(WorldOf(conn), self) && AreOld(rows, self, start.nextId) && start.nextId <= conn.nextId
    requires rows[n].itemType == Tickets ==> IsCartRow(WorldOf(conn), self, rows[n])
    requires MergedRows(start, WorldOf(conn), rows, twins, mapped, TermsOf(conn), boxOfficePricing, removeOthers, self.id)
    modifies conn`tickets, conn`orderItems, conn`nextId, conn`history
    ensures r.Ok? <==> (rows[n].itemType == Tickets ==>
      CanMerge(conn, old(conn.orderItems), old(conn.tickets), left, rows[n], boxOfficePricing, removeOthers, 0))
    ensures r.Ok? ==> HoldsAreKnown(r.value, conn.holds)
    ensures r.Ok? ==>
      && PoolsMoved(old(conn.tickets), conn.tickets, conn.now, conn.lockedRows, rows[n].ticketTypeId, rows[n].holdId,
                    if rows[n].itemType == Tickets then Freed(left, rows[n], removeOthers) else 0)
      && FeesStay(old(conn.orderItems), conn.orderItems, {rows[n].id})
    ensures r.Ok? ==>
      && Inv(WorldOf(conn)) && SameCart(old(WorldOf(conn)), WorldOf(conn))
      && MergedRows(start, WorldOf(conn), rows, twins + [twin], mapped, TermsOf(conn), boxOfficePricing, removeOthers, self.id)
      && Undisturbed(old(WorldOf(conn)), WorldOf(conn), {rows[n].id})
      && r.value == TakenByAll(mapped, rows[..n + 1]) && (increased <==> IsRaised(left, rows[n]))
    ensures r.Ok? && increased ==> rows[n].itemType == Tickets && rows[n].ticketTypeId.Some?
    ensures r.Ok? && (rows[n].itemType != Tickets || LeftAlone(left, rows[n], removeOthers)) ==> unchanged(conn)
  {
    hide Inv, Undisturbed, Merged, MergedRows, IsTwin, AreOld, IsCart, SoldAtPrice, TwinLeft, Requested, IsRepriced, KeptLine, TakenBy, IsRaised,
      Leaves, LeftAlone, SameCart, PoolsMoved, CanMerge, FeesStay, Freed, HoldsAreKnown, OnlyTaken;
    ghost var before := WorldOf(conn);
    SameCartStill(before, before, before);
    TakenOnce(left, rows[n]);
    HoldsStayKnown(left, TakenBy(left, rows[n]), conn.holds);
    var row := rows[n];
    assert rows[..n + 1][..n] == rows[..n];
    twin := TwinLeft(before, conn.pricings, boxOfficePricing, mapped, rows, n);
    if row.itemType != Tickets {
      FeeRowsMerge(conn.orderItems, left, row, TermsOf(conn), boxOfficePricing, removeOthers, self.id);
      NothingLeft(before, before, conn.pricings, boxOfficePricing, mapped, rows, n);
      NothingChanged(before, {});
      NothingChanged(before, {row.id});
      NothingMoved(conn.tickets, conn.now, conn.lockedRows, row.ticketTypeId, row.holdId);
      SameFeesStay(conn.orderItems, {row.id});
      MergedRowsNext(start, before, before, self, rows, twins, mapped, TermsOf(conn), boxOfficePricing, removeOthers, n, self.id, {});
      TakesNothing(left, row);
      return Ok(left), false, twin;
    }
    CartRowFacts(before, self, row);
    r, increased := MergeRow(conn, self, row, left, boxOfficePricing, removeOthers);
    if r.Ok? {
      TwinIsLeft(before, WorldOf(conn), conn.pricings, boxOfficePricing, mapped, rows, n, left);
      MergedRowsNext(start, before, WorldOf(conn), self, rows, twins, mapped, TermsOf(conn), boxOfficePricing, removeOthers, n, self.id, {row.id});
    }
  }

  lemma SameFeesStay(items: map<Id, OrderItem>, except: set<Id>)
    ensures FeesStay(items, items, except)
  {
  }

  lemma NothingLeft(w: World, after: World, pricings: map<(Id, bool), Pricing>, boxOfficePricing: bool, mapped: seq<MappedLine>,
                    rows: seq<OrderItem>, n: nat)
    requires n < |rows| && !IsRepriced(pricings, boxOfficePricing, TakenByAll(mapped, rows[..n]), rows[n])
    requires after.history.repriced == w.history.repriced
    ensures Leaves(w, after, pricings, boxOfficePricing, mapped, rows, n)
  {
  }

  lemma TwinIsLeft(w: World, after: World, pricings: map<(Id, bool), Pricing>, boxOfficePricing: bool, mapped: seq<MappedLine>,
                   rows: seq<OrderItem>, n: nat, left: seq<MappedLine>)
    requires n < |rows| && (rows[n].itemType == Tickets ==> 0 <= rows[n].quantity) && left == TakenByAll(mapped, rows[..n])
    requires
      if IsRepriced(pricings, boxOfficePricing, left, rows[n])
      then
        && after.history.repriced == w.history.repriced[w.nextId := rows[n].quantity]
        && IsTwin(after.items, rows[n], left[MatchOf(left, rows[n]).value].item.quantity, w.nextId)
      else after.history.repriced == w.history.repriced
    ensures Leaves(w, after, pricings, boxOfficePricing, mapped, rows, n)
  {
    hide IsTwin;
  }

  /** Merges every row of the cart with the request, in the order they were loaded. `touched` are the items changed. */
  method MergeRows(conn: Connection, self: Order, rows: seq<OrderItem>, mapped: seq<MappedLine>, boxOfficePricing: bool,
                   removeOthers: bool)
    returns (r: Result<seq<MappedLine>>, checks: seq<Id>, ghost touched: set<Id>, ghost twins: seq<Option<Id>>)
    requires HoldsAreKnown(mapped, conn.holds)
    requires Inv(WorldOf(conn)) && IsCart(WorldOf(conn), self) && AreCartRows(WorldOf(conn), self, rows)
    requires forall row :: row in rows ==> row.orderId == self.id
    modifies conn`tickets, conn`orderItems, conn`nextId, conn`history
    ensures r.Ok? <==> CanMergeAll(conn, old(conn.orderItems), old(conn.tickets), mapped, rows, boxOfficePricing, removeOthers)
    ensures r.Ok? ==> HoldsAreKnown(r.value, conn.holds)
    ensures r.Ok? ==> PoolsAfter(old(conn.tickets), conn.tickets, conn.now, conn.lockedRows, mapped, rows, removeOthers)
    ensures r.Ok? ==>
      && Inv(WorldOf(conn)) && SameCart(old(WorldOf(conn)), WorldOf(conn))
      && touched <= Ids(rows) && Undisturbed(old(WorldOf(conn)), WorldOf(conn), touched)
      && (forall j :: 0 <= j < |rows| && LeftAlone(mapped, rows[j], removeOthers) ==> rows[j].id !in touched)
      && r.value == TakenByAll(mapped, rows) && checks == RaisedTypes(mapped, rows)
      && |twins| == |rows|
      && MergedRows(old(WorldOf(conn)), WorldOf(conn), rows, twins, mapped, TermsOf(conn), boxOfficePricing, removeOthers, self.id)
  {
    hide Inv, Undisturbed, MergedRows, IsCartRow, OnlyTaken, LeftAlone, AreCartRows, Ids, IsRaised, TakenBy, MatchOf, SameCart, IsCart, AreOld,
      PoolsMoved, PoolsAfter, FeesStay, CanMergeAt, CanMerge, Freed, HoldsAreKnown;
    var mapped' := mapped;
    checks, touched, twins := [], {}, [];
    ghost var start := WorldOf(conn);
    CartRowsAreOld(start, self, rows);
    NoRowsMerged(start, rows, mapped, TermsOf(conn), boxOfficePricing, removeOthers, self.id);
    SameCartStill(start, start, start);
    NothingFreed(start.tickets, conn.now, conn.lockedRows, mapped, rows, removeOthers);
    SameFeesStay(start.items, Ids(rows[..0]));
    for i := 0 to |rows|
      invariant Inv(WorldOf(conn)) && SameCart(start, WorldOf(conn))
      invariant PoolsAfter(start.tickets, conn.tickets, conn.now, conn.lockedRows, mapped, rows[..i], removeOthers)
      invariant FeesStay(start.items, conn.orderItems, Ids(rows[..i]))
      invariant forall j :: 0 <= j < i ==> CanMergeAt(conn, start.items, start.tickets, mapped, rows, j, boxOfficePricing, removeOthers)
      invariant touched <= Ids(rows[..i]) && Undisturbed(start, WorldOf(conn), touched)
      invariant forall j :: 0 <= j < i && LeftAlone(mapped, rows[j], removeOthers) ==> rows[j].id !in touched
      invariant OnlyTaken(mapped, mapped') && HoldsAreKnown(mapped', conn.holds)
      invariant mapped' == TakenByAll(mapped, rows[..i]) && checks == RaisedTypes(mapped, rows[..i])
      invariant |twins| == i
      invariant MergedRows(start, WorldOf(conn), rows, twins, mapped, TermsOf(conn), boxOfficePricing, removeOthers, self.id)
    {
      var row := rows[i];
      assert row in rows;
      RowsAreDistinct(start, self, rows);
      DistinctFromEarlier(rows, i);
      assert rows[..i + 1][..i] == rows[..i];
      ghost var before := WorldOf(conn);
      CartUnchanged(start, before, self);
      if row.itemType == Tickets {
        UntouchedCartRow(start, before, self, rows, i, touched);
        MergesAlike(conn, start, before, self, mapped, rows, i, boxOfficePricing, removeOthers, touched);
      }
      CanMergeFees(conn, start.items, start.tickets, mapped, rows, i, boxOfficePricing, removeOthers);
      var next, increased;
      ghost var twin;
      next, increased, twin := MergeNext(conn, self, rows, i, mapped', boxOfficePricing, removeOthers, mapped, start, twins);
      if next.Err? {
        return Err(next.error), checks, touched, twins;
      }
      twins := twins + [twin];
      SameCartStill(start, before, WorldOf(conn));
      PoolsNext(start.tickets, before.tickets, conn.tickets, conn.now, conn.lockedRows, mapped, rows, i, removeOthers);
      FeesStayTwice(start.items, before.items, conn.orderItems, Ids(rows[..i]), {row.id});
      StillLeftAlone(mapped, mapped', row, removeOthers);
      if !LeftAlone(mapped, row, removeOthers) && row.itemType == Tickets {
        UndisturbedTwice(start, before, WorldOf(conn), touched, {row.id});
        touched := touched + {row.id};
      }
      TakenOnce(mapped', row);
      TakenTwice(mapped, mapped', next.value);
      mapped' := next.value;
      if increased {
        checks := checks + [row.ticketTypeId.value];
      }
    }
    assert rows[..|rows|] == rows;
    return Ok(mapped'), checks, touched, twins;
  }

  lemma HoldsStayKnown(mapped: seq<MappedLine>, after: seq<MappedLine>, holds: map<Id, Hold>)
    requires OnlyTaken(mapped, after) && HoldsAreKnown(mapped, holds)
    ensures HoldsAreKnown(after, holds)
  {
    forall i | 0 <= i < |after| ensures HoldIsKnown(after[i], holds) {
      assert HoldIsKnown(mapped[i], holds);
    }
  }

  lemma NothingFreed(tickets: seq<Ticket>, now: Time, locked: set<Id>, mapped: seq<MappedLine>, rows: seq<OrderItem>, removeOthers: bool)
    ensures PoolsAfter(tickets, tickets, now, locked, mapped, rows[..0], removeOthers)
  {
  }

  lemma CanMergeFees(conn: Connection, items: map<Id, OrderItem>, tickets: seq<Ticket>, mapped: seq<MappedLine>, rows: seq<OrderItem>, i: nat,
                     boxOfficePricing: bool, removeOthers: bool)
    requires i < |rows|
    ensures rows[i].itemType != Tickets ==> CanMergeAt(conn, items, tickets, mapped, rows, i, boxOfficePricing, removeOthers)
  {
  }

  lemma CartRowsAreOld(w: World, self: Order, rows: seq<OrderItem>)
    requires Inv(w) && AreCartRows(w, self, rows)
    ensures AreOld(rows, self, w.nextId)
  {
    forall i | 0 <= i < |rows| && rows[i].itemType == Tickets ensures rows[i].orderId == self.id && rows[i].id < w.nextId {
      assert IsCartRow(w, self, rows[i]);
    }
  }

  lemma SameCartStill(a: World, b: World, c: World)
    requires (SameCart(a, b) && SameCart(b, c)) || a == b == c
    ensures SameCart(a, c)
  {
  }

  lemma CartUnchanged(w: World, after: World, self: Order)
    requires IsCart(w, self) && SameCart(w, after)
    ensures IsCart(after, self) && w.nextId <= after.nextId
  {
  }

  lemma TakesNothing(mapped: seq<MappedLine>, row: OrderItem)
    requires row.itemType != Tickets
    ensures TakenBy(mapped, row) == mapped && !IsRaised(mapped, row)
  {
  }

  lemma TakenOnce(mapped: seq<MappedLine>, row: OrderItem)
    ensures OnlyTaken(mapped, TakenBy(mapped, row))
  {
  }

  lemma RowsAreDistinct(w: World, self: Order, rows: seq<OrderItem>)
    requires AreCartRows(w, self, rows)
    ensures DistinctIds(rows)
  {
  }

  // ------------------------------------------------------------ new items

  /** Adds an item for a requested line and reserves all of its tickets. */
  method AddLine(conn: Connection, self: Order, line: MappedLine, boxOfficePricing: bool) returns (r: Result<()>)
    requires Inv(WorldOf(conn)) && IsCart(WorldOf(conn), self) && self.expiresAt.Some?
    requires line.pending && 0 < line.item.quantity && HoldIsKnown(line, conn.holds)
    modifies conn`tickets, conn`orderItems, conn`nextId, conn`history
    ensures r.Ok? <==> CanTake(conn, old(conn.tickets), Some(line.item.ticketTypeId), line.holdId, boxOfficePricing, line.item.quantity,
                               line.item.quantity, 0)
    ensures r.Ok? ==> PoolsMoved(old(conn.tickets), conn.tickets, conn.now, conn.lockedRows, Some(line.item.ticketTypeId), line.holdId,
                                 -(line.item.quantity as int))
    ensures r.Ok? ==>
      && Inv(WorldOf(conn)) && SameCart(old(WorldOf(conn)), WorldOf(conn))
      && Undisturbed(old(WorldOf(conn)), WorldOf(conn), {})
      && conn.history.repriced == old(conn.history.repriced)
      && Lines(conn.orderItems, self.id) == Lines(old(conn.orderItems), self.id) + Wanted(line)
      && SoldAtPrice(old(conn.orderItems), conn.orderItems, TermsOf(conn), boxOfficePricing, self.id)
  {
    hide Inv, Undisturbed, Lines, PriceUnderHold, SoldAtPrice, PoolsMoved, Free, InIncrements;
    var priced :- CurrentPricing(conn, line.item.ticketTypeId, boxOfficePricing);
    var (pricing, eventId) := priced;
    var item := NewTicketsItem(self, line.item.ticketTypeId, eventId, pricing, line.hold, line.holdId, line.item.quantity);
    var inserted :- InsertAndReserve(conn, self, item, line.item.quantity);
    LinesAfterInsert(old(conn.orderItems), inserted, item.(id := inserted), self.id);
    NewRowAtPrice(old(conn.orderItems), inserted, self, line.item.ticketTypeId, eventId, pricing, line, TermsOf(conn), boxOfficePricing);
    assert LineOf(self.id)(item.(id := inserted)) == Wanted(line);
    return Ok(());
  }

  predicate IsWanted(line: MappedLine) {
    line.pending && 0 < line.item.quantity
  }

  /** How many tickets of the type and hold the lines take. */
  function AddedBy(mapped: seq<MappedLine>, t: Id, h: Option<Id>): (n: int) {
    if mapped == [] then 0
    else
      var last := mapped[|mapped| - 1];
      AddedBy(mapped[..|mapped| - 1], t, h)
        + if IsWanted(last) && last.item.ticketTypeId == t && last.holdId == h then last.item.quantity else 0
  }

  function TakenUpBy(mapped: seq<MappedLine>): (change: (Id, Option<Id>) -> int) {
    (t: Id, h: Option<Id>) => -AddedBy(mapped, t, h)
  }

  function NoneFreed(): (change: (Id, Option<Id>) -> int) {
    (t: Id, h: Option<Id>) => 0
  }

  /** The `i`-th line, if it is wanted, can be added after those before it, `freed` being what has been freed until then. */
  ghost predicate CanAddAt(conn: Connection, tickets: seq<Ticket>, mapped: seq<MappedLine>, i: nat, boxOfficePricing: bool,
                           freed: (Id, Option<Id>) -> int)
    requires i < |mapped|
    reads conn`pricings, conn`now, conn`lockedRows
  {
    var t, h, quantity := mapped[i].item.ticketTypeId, mapped[i].holdId, mapped[i].item.quantity;
    IsWanted(mapped[i]) ==> CanTake(conn, tickets, Some(t), h, boxOfficePricing, quantity, quantity, freed(t, h) - AddedBy(mapped[..i], t, h))
  }

  /** Every line that is wanted can be added in its turn. */
  ghost predicate CanAddAll(conn: Connection, tickets: seq<Ticket>, mapped: seq<MappedLine>, boxOfficePricing: bool,
                            freed: (Id, Option<Id>) -> int)
    reads conn`pricings, conn`now, conn`lockedRows
  {
    forall i :: 0 <= i < |mapped| ==> CanAddAt(conn, tickets, mapped, i, boxOfficePricing, freed)
  }

  /** What can be taken of more tickets can be taken of fewer with the difference freed before. */
  lemma CanAddFromMore(conn: Connection, before: seq<Ticket>, after: seq<Ticket>, mapped: seq<MappedLine>, boxOfficePricing: bool,
                       more: (Id, Option<Id>) -> int, freed: (Id, Option<Id>) -> int, all: (Id, Option<Id>) -> int)
    requires PoolsGrown(before, after, conn.now, conn.lockedRows, more) && forall t: Id, h: Option<Id> :: all(t, h) == freed(t, h) + more(t, h)
    ensures CanAddAll(conn, after, mapped, boxOfficePricing, freed) <==> CanAddAll(conn, before, mapped, boxOfficePricing, all)
  {
    hide Free, AddedBy, InIncrements;
    forall i | 0 <= i < |mapped|
      ensures CanAddAt(conn, after, mapped, i, boxOfficePricing, freed) <==> CanAddAt(conn, before, mapped, i, boxOfficePricing, all)
    {
    }
  }

  lemma AddsAlike(conn: Connection, before: seq<Ticket>, after: seq<Ticket>, mapped: seq<MappedLine>, i: nat, boxOfficePricing: bool)
    requires i < |mapped| && IsWanted(mapped[i])
    requires PoolsGrown(before, after, conn.now, conn.lockedRows, TakenUpBy(mapped[..i]))
    ensures
      var line := mapped[i];
      CanTake(conn, after, Some(line.item.ticketTypeId), line.holdId, boxOfficePricing, line.item.quantity, line.item.quantity, 0)
      <==> CanAddAt(conn, before, mapped, i, boxOfficePricing, NoneFreed())
  {
    hide Free, AddedBy, InIncrements;
  }

  lemma AddedNext(a: seq<Ticket>, b: seq<Ticket>, c: seq<Ticket>, now: Time, locked: set<Id>, mapped: seq<MappedLine>, i: nat)
    requires i < |mapped| && PoolsGrown(a, b, now, locked, TakenUpBy(mapped[..i]))
    requires if IsWanted(mapped[i])
             then PoolsMoved(b, c, now, locked, Some(mapped[i].item.ticketTypeId), mapped[i].holdId, -(mapped[i].item.quantity as int))
             else c == b
    ensures PoolsGrown(a, c, now, locked, TakenUpBy(mapped[..i + 1]))
  {
    hide Free;
    assert mapped[..i + 1][..i] == mapped[..i];
  }

  method AddLines(conn: Connection, self: Order, mapped: seq<MappedLine>, boxOfficePricing: bool)
    returns (r: Result<()>, checks: seq<Id>)
    requires HoldsAreKnown(mapped, conn.holds)
    requires Inv(WorldOf(conn)) && IsCart(WorldOf(conn), self) && self.expiresAt.Some?
    modifies conn`tickets, conn`orderItems, conn`nextId, conn`history
    ensures r.Ok? <==> CanAddAll(conn, old(conn.tickets), mapped, boxOfficePricing, NoneFreed())
    ensures r.Ok? ==>
      && Inv(WorldOf(conn)) && SameCart(old(WorldOf(conn)), WorldOf(conn))
      && Undisturbed(old(WorldOf(conn)), WorldOf(conn), {})
      && conn.history.repriced == old(conn.history.repriced)
      && checks == AddedTypes(mapped)
      && Lines(conn.orderItems, self.id) == Lines(old(conn.orderItems), self.id) + Pending(mapped)
      && SoldAtPrice(old(conn.orderItems), conn.orderItems, TermsOf(conn), boxOfficePricing, self.id)
  {
    hide Inv, Undisturbed, Lines, Wanted, SameCart, IsCart, SoldAtPrice, PoolsMoved, PoolsGrown, CanAddAt, CanTake, HoldIsKnown;
    checks := [];
    ghost var start := WorldOf(conn);
    NothingChanged(start, {});
    SameCartStill(start, start, start);
    FewerRowsAtPrice(start.items, start.items, TermsOf(conn), boxOfficePricing, self.id);
    NothingAdded(start.tickets, conn.now, conn.lockedRows, mapped);
    for i := 0 to |mapped|
      invariant forall j :: 0 <= j < i ==> CanAddAt(conn, start.tickets, mapped, j, boxOfficePricing, NoneFreed())
      invariant PoolsGrown(start.tickets, conn.tickets, conn.now, conn.lockedRows, TakenUpBy(mapped[..i]))
      invariant Inv(WorldOf(conn)) && SameCart(start, WorldOf(conn)) && Undisturbed(start, WorldOf(conn), {})
      invariant conn.history.repriced == start.history.repriced && checks == AddedTypes(mapped[..i])
      invariant Lines(conn.orderItems, self.id) == Lines(start.items, self.id) + Pending(mapped[..i])
      invariant SoldAtPrice(start.items, conn.orderItems, TermsOf(conn), boxOfficePricing, self.id)
    {
      assert mapped[..i + 1][..i] == mapped[..i];
      var line := mapped[i];
      if line.item.quantity == 0 || !line.pending {
        NothingWanted(line);
        UnwantedCanBeAdded(conn, start.tickets, mapped, i, boxOfficePricing);
        AddedNext(start.tickets, conn.tickets, conn.tickets, conn.now, conn.lockedRows, mapped, i);
        continue;
      }
      checks := checks + [line.item.ticketTypeId];
      ghost var before := WorldOf(conn);
      CartUnchanged(start, before, self);
      AddsAlike(conn, start.tickets, before.tickets, mapped, i, boxOfficePricing);
      var added := AddLine(conn, self, line, boxOfficePricing);
      if added.Err? {
        return added, checks;
      }
      AddedNext(start.tickets, before.tickets, conn.tickets, conn.now, conn.lockedRows, mapped, i);
      UndisturbedStill(start, before, WorldOf(conn));
      SameCartStill(start, before, WorldOf(conn));
      SoldAtPriceTwice(start.items, before.items, conn.orderItems, TermsOf(conn), boxOfficePricing, self.id);
    }
    assert mapped[..|mapped|] == mapped;
    return Ok(()), checks;
  }

  lemma NothingAdded(tickets: seq<Ticket>, now: Time, locked: set<Id>, mapped: seq<MappedLine>)
    ensures PoolsGrown(tickets, tickets, now, locked, TakenUpBy(mapped[..0]))
  {
  }

  lemma UnwantedCanBeAdded(conn: Connection, tickets: seq<Ticket>, mapped: seq<MappedLine>, i: nat, boxOfficePricing: bool)
    requires i < |mapped| && !IsWanted(mapped[i])
    ensures CanAddAt(conn, tickets, mapped, i, boxOfficePricing, NoneFreed())
  {
  }

  lemma NothingWanted(line: MappedLine)
    requires line.item.quantity == 0 || !line.pending
    ensures Wanted(line) == multiset{}
  {
  }

  lemma UndisturbedStill(a: World, b: World, c: World)
    requires Undisturbed(a, b, {}) && Undisturbed(b, c, {})
    ensures Undisturbed(a, c, {})
  {
    UndisturbedTwice(a, b, c, {}, {});
  }

  // ------------------------------------------------------------ clearing

  ghost predicate NoTickets(items: map<Id, OrderItem>, orderId: Id) {
    forall k :: k in items && items[k].orderId == orderId ==> items[k].itemType != Tickets
  }

  /** `clear_cart` */
  method ClearCart(conn: Connection, self: Order) returns (r: Result<()>, ghost rows: seq<OrderItem>)
    requires Inv(WorldOf(conn)) && IsCart(WorldOf(conn), self)
    modifies conn`tickets, conn`orderItems
    ensures AreRowsOf(rows, old(conn.orderItems), self.id)
    ensures r.Ok? <==> CanMergeAll(conn, old(conn.orderItems), old(conn.tickets), [], rows, false, true)
    ensures r.Ok? ==> PoolsAfter(old(conn.tickets), conn.tickets, conn.now, conn.lockedRows, [], rows, true)
    ensures r.Ok? ==>
      && Inv(WorldOf(conn))
      && Undisturbed(old(WorldOf(conn)), WorldOf(conn), ItemsOf(old(conn.orderItems), self.id))
      && NoTickets(conn.orderItems, self.id) && OnlyRowsOf(old(conn.orderItems), conn.orderItems)
  {
    hide Inv, Undisturbed, AreCartRows, AreRowsOf, IsListing, Ids, ItemsOf, Cleared, NoTickets, Structured, CanMergeAt, PoolsAfter, FeesStay;
    InvIsStructured(WorldOf(conn));
    StructuredIsKeyed(conn.orderItems, conn.nextId);
    var loaded := FindForOrder(conn, self.id);
    rows := loaded;
    ghost var start := WorldOf(conn);
    RowsAreCartRows(start, self, rows);
    NothingCleared(start, rows);
    NothingFreed(start.tickets, conn.now, conn.lockedRows, [], rows, true);
    SameFeesStay(start.items, Ids(rows[..0]));
    for i := 0 to |loaded|
      invariant Inv(WorldOf(conn)) && Cleared(start, WorldOf(conn), rows, i)
      invariant PoolsAfter(start.tickets, conn.tickets, conn.now, conn.lockedRows, [], rows[..i], true)
      invariant FeesStay(start.items, conn.orderItems, Ids(rows[..i]))
      invariant forall j :: 0 <= j < i ==> CanMergeAt(conn, start.items, start.tickets, [], rows, j, false, true)
    {
      r := ClearRow(conn, self, loaded, i, start);
      if r.Err? {
        return r, rows;
      }
    }
    assert rows[..|rows|] == rows;
    EverythingCleared(start, WorldOf(conn), rows, self.id);
    return Ok(()), rows;
  }

  /** Rows have gone, and the rest are as they were. */
  ghost predicate OnlyRowsOf(before: map<Id, OrderItem>, after: map<Id, OrderItem>) {
    forall k :: k in after ==> k in before && after[k] == before[k]
  }

  /** The first `i` rows have gone, if they were tickets; nothing else has changed. */
  ghost predicate Cleared(start: World, w: World, rows: seq<OrderItem>, i: nat)
    requires i <= |rows|
  {
    && w == start.(items := w.items, tickets := w.tickets)
    && Undisturbed(start, w, Ids(rows[..i]))
    && OnlyRowsOf(start.items, w.items)
    && forall j :: 0 <= j < i && rows[j].itemType == Tickets ==> rows[j].id !in w.items
  }

  lemma NothingCleared(w: World, rows: seq<OrderItem>)
    ensures Cleared(w, w, rows, 0)
  {
  }

  method ClearRow(conn: Connection, self: Order, rows: seq<OrderItem>, i: nat, ghost start: World) returns (r: Result<()>)
    requires Inv(start) && IsCart(start, self) && AreCartRows(start, self, rows) && i < |rows|
    requires Inv(WorldOf(conn)) && Cleared(start, WorldOf(conn), rows, i)
    requires PoolsAfter(start.tickets, conn.tickets, conn.now, conn.lockedRows, [], rows[..i], true)
    requires FeesStay(start.items, conn.orderItems, Ids(rows[..i]))
    modifies conn`tickets, conn`orderItems
    ensures r.Ok? <==> CanMergeAt(conn, start.items, start.tickets, [], rows, i, false, true)
    ensures r.Ok? ==>
      && Inv(WorldOf(conn)) && Cleared(start, WorldOf(conn), rows, i + 1)
      && PoolsAfter(start.tickets, conn.tickets, conn.now, conn.lockedRows, [], rows[..i + 1], true)
      && FeesStay(start.items, conn.orderItems, Ids(rows[..i + 1]))
  {
    hide Inv, Undisturbed, IsCartRow, AreCartRows, Ids, CanMergeAt, PoolsAfter, PoolsMoved, FeesStay, TakenByAll, Unlocked, IsRecorded, Structured;
    var row := rows[i];
    NothingToTake(rows[..i]);
    InvIsStructured(WorldOf(conn));
    RowsAreDistinct(start, self, rows);
    DistinctFromEarlier(rows, i);
    ghost var before := WorldOf(conn);
    if row.itemType == Tickets {
      UntouchedCartRow(start, before, self, rows, i, Ids(rows[..i]));
      MergesAlike(conn, start, before, self, [], rows, i, false, true, Ids(rows[..i]));
      CartRowIsStored(before, self, row);
      TakenFeesStay(before.items, conn.nextId, row, 0);
      var _ :- RemoveItem(conn, self, row);
      UndisturbedTwice(start, before, WorldOf(conn), Ids(rows[..i]), {row.id});
      PoolsNext(start.tickets, before.tickets, conn.tickets, conn.now, conn.lockedRows, [], rows, i, true);
      FeesStayTwice(start.items, before.items, conn.orderItems, Ids(rows[..i]), {row.id});
    } else {
      CanMergeFees(conn, start.items, start.tickets, [], rows, i, false, true);
      NothingMoved(conn.tickets, conn.now, conn.lockedRows, row.ticketTypeId, row.holdId);
      PoolsNext(start.tickets, before.tickets, conn.tickets, conn.now, conn.lockedRows, [], rows, i, true);
      SameFeesStay(conn.orderItems, {row.id});
      FeesStayTwice(start.items, before.items, conn.orderItems, Ids(rows[..i]), {row.id});
      NothingChanged(before, {row.id});
      UndisturbedTwice(start, before, before, Ids(rows[..i]), {row.id});
    }
    return Ok(());
  }

  lemma CartRowIsStored(w: World, self: Order, row: OrderItem)
    requires IsCartRow(w, self, row)
    ensures row.id in w.items && w.items[row.id] == row && row.itemType == Tickets
  {
  }

  /** Nothing is pending where nothing was asked for. */
  lemma {:induction false} NothingToTake(rows: seq<OrderItem>)
    ensures TakenByAll([], rows) == []
  {
    if rows != [] {
      NothingToTake(rows[..|rows| - 1]);
    }
  }

  lemma EverythingCleared(start: World, w: World, rows: seq<OrderItem>, orderId: Id)
    requires AreRowsOf(rows, start.items, orderId) && Cleared(start, w, rows, |rows|)
    ensures Undisturbed(start, w, ItemsOf(start.items, orderId)) && NoTickets(w.items, orderId) && OnlyRowsOf(start.items, w.items)
  {
    assert rows[..|rows|] == rows;
    AllRowsGone(start.items, w.items, rows, orderId);
  }

  lemma RowsAreCartRows(w: World, self: Order, rows: seq<OrderItem>)
    requires AreRowsOf(rows, w.items, self.id)
    ensures AreCartRows(w, self, rows) && Ids(rows) == ItemsOf(w.items, self.id)
    ensures IsListing(rows, w.items, self.id) && forall row :: row in rows ==> row.orderId == self.id
  {
    forall row | row in rows ensures row.id in w.items && w.items[row.id] == row && row.orderId == self.id {
      assert row.id in Ids(rows);
    }
  }

  lemma AllRowsGone(items: map<Id, OrderItem>, items': map<Id, OrderItem>, rows: seq<OrderItem>, orderId: Id)
    requires AreRowsOf(rows, items, orderId)
    requires OnlyRowsOf(items, items')
    requires forall j :: 0 <= j < |rows| && rows[j].itemType == Tickets ==> rows[j].id !in items'
    ensures NoTickets(items', orderId)
  {
    forall k | k in items' && items'[k].orderId == orderId ensures items'[k].itemType != Tickets {
      assert k in Ids(rows);
      var j :| 0 <= j < |rows| && rows[j].id == k;
    }
  }

  // ------------------------------------------------------------ limits

  /** The ticket counts for the user: queries/quantity_of_tickets_per_user_per_event.sql */
  predicate CountsFor(t: Ticket, orders: map<Id, Order>, items: map<Id, OrderItem>, now: Time, userId: Id, ticketTypeId: Id, eventId: Id) {
    && t.reservedUntil.Some? && now < t.reservedUntil.value
    && t.orderItemId.Some? && t.orderItemId.value in items
    && var item := items[t.orderItemId.value];
    && item.ticketTypeId == Some(ticketTypeId) && item.eventId == Some(eventId)
    && item.orderId in orders
    && var order := orders[item.orderId];
    (order.userId == userId && order.onBehalfOfUserId.None?) || order.onBehalfOfUserId == Some(userId)
  }

  function TicketsOfUser(tickets: seq<Ticket>, orders: map<Id, Order>, items: map<Id, OrderItem>, now: Time, userId: Id,
                         ticketTypeId: Id, eventId: Id): (rows: set<Id>)
  {
    set i: Id | i < |tickets| && CountsFor(tickets[i], orders, items, now, userId, ticketTypeId, eventId)
  }

  ghost predicate WithinLimit(w: World, ticketTypes: map<Id, TicketType>, userId: Id, ticketTypeId: Id) {
    ticketTypeId in ticketTypes && ticketTypes[ticketTypeId].limitPerPerson > 0 ==>
      |TicketsOfUser(w.tickets, w.orders, w.items, w.now, userId, ticketTypeId, ticketTypes[ticketTypeId].eventId)|
        <= ticketTypes[ticketTypeId].limitPerPerson
  }

  method CheckLimits(conn: Connection, userId: Id, checks: seq<Id>) returns (r: Result<()>)
    ensures r.Ok? <==> forall t :: t in checks ==> WithinLimit(WorldOf(conn), conn.ticketTypes, userId, t)
  {
    for i := 0 to |checks|
      invariant forall t :: t in checks[..i] ==> WithinLimit(WorldOf(conn), conn.ticketTypes, userId, t)
    {
      var t := checks[i];
      if t in conn.ticketTypes && conn.ticketTypes[t].limitPerPerson > 0 {
        var taken := TicketsOfUser(conn.tickets, conn.orders, conn.orderItems, conn.now, userId, t, conn.ticketTypes[t].eventId);
        if |taken| > conn.ticketTypes[t].limitPerPerson {
          assert t in checks && !WithinLimit(WorldOf(conn), conn.ticketTypes, userId, t);
          return Err(ValidationError);
        }
      }
    }
    assert checks[..|checks|] == checks;
    return Ok(());
  }

  /** Fee rows do not count. */
  lemma FeesLeaveTicketsOfUser(w: World, after: World, userId: Id, ticketTypeId: Id, eventId: Id)
    requires LinksOk(w) && after == w.(items := after.items, nextId := after.nextId)
    requires forall k :: k in w.items && w.items[k].itemType == Tickets ==> k in after.items && after.items[k] == w.items[k]
    ensures TicketsOfUser(w.tickets, w.orders, w.items, w.now, userId, ticketTypeId, eventId)
         == TicketsOfUser(w.tickets, w.orders, after.items, w.now, userId, ticketTypeId, eventId)
  {
    forall i: Id | i < |w.tickets| ensures
      CountsFor(w.tickets[i], w.orders, w.items, w.now, userId, ticketTypeId, eventId)
      == CountsFor(w.tickets[i], w.orders, after.items, w.now, userId, ticketTypeId, eventId)
    {
      if w.tickets[i].orderItemId.Some? {
        assert w.tickets[i].orderItemId.value in after.items;
      }
    }
  }

  // ------------------------------------------------------------ the request

  /** Locks the cart, and empties it when the way of selling changes. */
  method PrepareCart(conn: Connection, self: Order, boxOfficePricing: bool) returns (r: Result<()>, cart: Order, ghost cleared: seq<OrderItem>)
    requires Inv(WorldOf(conn)) && self.id in conn.orders
    requires conn.orders[self.id].version == self.version ==> IsCart(WorldOf(conn), self)
    modifies conn`orders, conn`orderItems, conn`tickets
    ensures old(conn.orders)[self.id].version == self.version ==> AreCleared(cleared, old(conn.orderItems), self, boxOfficePricing)
    ensures r.Ok? <==>
      && old(conn.orders)[self.id].version == self.version
      && CanMergeAll(conn, old(conn.orderItems), old(conn.tickets), [], cleared, false, true)
    ensures r.Ok? ==> PoolsAfter(old(conn.tickets), conn.tickets, conn.now, conn.lockedRows, [], cleared, true)
    ensures r.Ok? ==>
      && old(conn.orders)[self.id].version == self.version
      && cart == self.(version := self.version + 1, boxOfficePricing := boxOfficePricing)
      && conn.orders == old(conn.orders)[self.id := cart]
      && Inv(WorldOf(conn)) && IsCart(WorldOf(conn), cart)
      && Undisturbed(old(WorldOf(conn)), WorldOf(conn), ItemsOf(old(conn.orderItems), self.id))
    ensures r.Ok? && boxOfficePricing != self.boxOfficePricing ==> NoTickets(conn.orderItems, self.id)
    ensures r.Ok? ==> OnlyRowsOf(old(conn.orderItems), conn.orderItems)
    ensures r.Ok? && boxOfficePricing == self.boxOfficePricing ==>
      && conn.orderItems == old(conn.orderItems) && conn.tickets == old(conn.tickets)
      && Undisturbed(old(WorldOf(conn)), WorldOf(conn), {})
  {
    hide Inv, Undisturbed, ItemsOf, NoTickets, AreRowsOf, CanMergeAll, PoolsAfter;
    ghost var start := WorldOf(conn);
    cleared := [];
    NothingFreed(conn.tickets, conn.now, conn.lockedRows, [], [], true);
    NothingToMerge(conn, conn.orderItems, conn.tickets);
    r, cart := LockVersion(conn, self);
    if r.Err? {
      return;
    }
    ReplacingOrderIsSafe(start, cart);
    if boxOfficePricing != cart.boxOfficePricing {
      ghost var locked := WorldOf(conn);
      var emptied, rows := ClearCart(conn, cart);
      r, cleared := emptied, rows;
      if r.Err? {
        return;
      }
      ghost var cleared := WorldOf(conn);
      cart := UpdateBoxOfficePricing(conn, cart, boxOfficePricing);
      UndisturbedTwice(start, locked, cleared, {}, ItemsOf(start.items, self.id));
      UndisturbedTwice(start, cleared, WorldOf(conn), {} + ItemsOf(start.items, self.id), {});
      assert {} + ItemsOf(start.items, self.id) + {} == ItemsOf(start.items, self.id);
    } else {
      UndisturbedMost(start, WorldOf(conn), ItemsOf(start.items, self.id));
    }
  }

  /** The rows that are cleared first: those of the cart, if it is to be sold another way. */
  ghost predicate AreCleared(cleared: seq<OrderItem>, items: map<Id, OrderItem>, self: Order, boxOfficePricing: bool) {
    if boxOfficePricing == self.boxOfficePricing then cleared == [] else AreRowsOf(cleared, items, self.id)
  }

  lemma NothingToMerge(conn: Connection, items: map<Id, OrderItem>, tickets: seq<Ticket>)
    ensures CanMergeAll(conn, items, tickets, [], [], false, true)
  {
  }

  lemma UndisturbedMost(w: World, after: World, except: set<Id>)
    requires Undisturbed(w, after, {})
    ensures Undisturbed(w, after, except)
  {
  }

  /** Merges the request into the items the cart has, which are loaded as `rows`. */
  method MergeExisting(conn: Connection, self: Order, mapped: seq<MappedLine>, boxOfficePricing: bool, removeOthers: bool)
    returns (r: Result<seq<MappedLine>>, checks: seq<Id>, ghost rows: seq<OrderItem>, ghost twins: seq<Option<Id>>, ghost touched: set<Id>)
    requires HoldsAreKnown(mapped, conn.holds)
    requires Inv(WorldOf(conn)) && IsCart(WorldOf(conn), self)
    modifies conn`orderItems, conn`tickets, conn`nextId, conn`history
    ensures AreRowsOf(rows, old(conn.orderItems), self.id)
    ensures r.Ok? <==> CanMergeAll(conn, old(conn.orderItems), old(conn.tickets), mapped, rows, boxOfficePricing, removeOthers)
    ensures r.Ok? ==> HoldsAreKnown(r.value, conn.holds)
    ensures r.Ok? ==> PoolsAfter(old(conn.tickets), conn.tickets, conn.now, conn.lockedRows, mapped, rows, removeOthers)
    ensures r.Ok? ==>
      && Inv(WorldOf(conn)) && SameCart(old(WorldOf(conn)), WorldOf(conn))
      && touched <= ItemsOf(old(conn.orderItems), self.id)
      && Undisturbed(old(WorldOf(conn)), WorldOf(conn), touched)
      && SparesLeftAlone(old(conn.orderItems), self.id, mapped, removeOthers, touched)
      && SoldAtPrice(old(conn.orderItems), conn.orderItems, TermsOf(conn), boxOfficePricing, self.id)
      && r.value == TakenByAll(mapped, rows) && checks == RaisedTypes(mapped, rows)
      && |twins| == |rows| && AreOld(rows, self, old(conn.nextId))
      && AreTwins(old(conn.history.repriced), conn.history.repriced, conn.orderItems, old(conn.nextId), conn.pricings, boxOfficePricing,
                  mapped, rows, twins)
      && Lines(conn.orderItems, self.id) + Pending(r.value)
           == Pending(mapped) + KeptLines(conn.pricings, boxOfficePricing, mapped, rows, removeOthers)
  {
    hide Inv, Undisturbed, Lines, Pending, SeqLines, MergedSoFar, LeftAlone, AreCartRows, AreRowsOf, Structured, KeptLines,
      RaisedTypes, TakenByAll, SameCart, SparesLeftAlone, SoldAtPrice, AreTwins, AreOld, CanMergeAll, PoolsAfter, HoldsAreKnown;
    InvIsStructured(WorldOf(conn));
    StructuredIsKeyed(conn.orderItems, conn.nextId);
    ghost var start := WorldOf(conn);
    var loaded := FindForOrder(conn, self.id);
    rows := loaded;
    RowsAreCartRows(start, self, rows);
    CartRowsAreOld(start, self, rows);
    r, checks, touched, twins := MergeRows(conn, self, loaded, mapped, boxOfficePricing, removeOthers);
    if r.Ok? {
      LeftAloneRows(rows, start, mapped, removeOthers, touched, self.id);
      ListedLines(rows, start.items, self.id);
      assert rows[..|rows|] == rows;
      MergedAll(start.items, mapped, conn.orderItems, r.value, rows,
                KeptLines(conn.pricings, boxOfficePricing, mapped, rows, removeOthers), self.id);
    }
  }

  /** Items the request does not speak of are not among those touched, unless others are to be removed. */
  ghost predicate SparesLeftAlone(items: map<Id, OrderItem>, orderId: Id, mapped: seq<MappedLine>, removeOthers: bool, touched: set<Id>) {
    forall k :: k in ItemsOf(items, orderId) && LeftAlone(mapped, items[k], removeOthers) ==> k !in touched
  }

  method EnsureExpiry(conn: Connection, self: Order) returns (r: Result<()>, cart: Order)
    requires Inv(WorldOf(conn)) && IsCart(WorldOf(conn), self)
    modifies conn`orders
    ensures r.Ok?
    ensures cart == self.(expiresAt := if self.expiresAt.None? then Some(conn.now + CART_EXPIRY_TIME) else self.expiresAt)
    ensures conn.orders == old(conn.orders)[self.id := cart]
    ensures Inv(WorldOf(conn)) && IsCart(WorldOf(conn), cart)
    ensures Undisturbed(old(WorldOf(conn)), WorldOf(conn), {})
  {
    hide Inv, Undisturbed;
    if self.expiresAt.None? {
      r, cart := SetExpiry(conn, self);
    } else {
      assert conn.orders[self.id := self] == conn.orders;
      NothingChanged(WorldOf(conn), {});
      r, cart := Ok(()), self;
    }
  }

  /** What the request has done to the lines of the cart, whose items were loaded as `rows`. */
  ghost predicate LinesMerged(w: World, after: World, mapped: seq<MappedLine>, rows: seq<OrderItem>, twins: seq<Option<Id>>, pricings: map<(Id, bool), Pricing>,
                              boxOfficePricing: bool, removeOthers: bool, orderId: Id) {
    && after.history.settled == w.history.settled
    && |twins| == |rows|
    && AreTwins(w.history.repriced, after.history.repriced, after.items, w.nextId, pricings, boxOfficePricing, mapped, rows, twins)
    && Lines(after.items, orderId)
         == Pending(mapped) + KeptLines(pricings, boxOfficePricing, mapped, rows, removeOthers)
  }

  /** Merges the request, gives the cart an expiry if it has none, and adds what is left. */
  method MergeRequest(conn: Connection, self: Order, mapped: seq<MappedLine>, boxOfficePricing: bool, removeOthers: bool)
    returns (r: Result<seq<Id>>, cart: Order, ghost rows: seq<OrderItem>, ghost twins: seq<Option<Id>>, ghost touched: set<Id>)
    requires HoldsAreKnown(mapped, conn.holds)
    requires Inv(WorldOf(conn)) && IsCart(WorldOf(conn), self)
    modifies conn`orders, conn`orderItems, conn`tickets, conn`nextId, conn`history
    ensures AreRowsOf(rows, old(conn.orderItems), self.id)
    ensures r.Ok? <==>
      && CanMergeAll(conn, old(conn.orderItems), old(conn.tickets), mapped, rows, boxOfficePricing, removeOthers)
      && CanAddAll(conn, old(conn.tickets), TakenByAll(mapped, rows), boxOfficePricing, FreedIn(mapped, rows, removeOthers))
    ensures r.Ok? ==>
      && cart == self.(expiresAt := if self.expiresAt.None? then Some(conn.now + CART_EXPIRY_TIME) else self.expiresAt)
      && conn.orders == old(conn.orders)[self.id := cart]
      && Inv(WorldOf(conn)) && IsCart(WorldOf(conn), cart)
      && touched <= ItemsOf(old(conn.orderItems), self.id)
      && Undisturbed(old(WorldOf(conn)), WorldOf(conn), touched)
      && SparesLeftAlone(old(conn.orderItems), self.id, mapped, removeOthers, touched)
      && r.value == RaisedTypes(mapped, rows) + AddedTypes(TakenByAll(mapped, rows))
      && AreOld(rows, self, old(conn.nextId))
      && LinesMerged(old(WorldOf(conn)), WorldOf(conn), mapped, rows, twins, conn.pricings, boxOfficePricing, removeOthers, self.id)
      && SoldAtPrice(old(conn.orderItems), conn.orderItems, TermsOf(conn), boxOfficePricing, self.id)
  {
    hide Inv, Undisturbed, Lines, Pending, ItemsOf, SparesLeftAlone, AreRowsOf, KeptLines, RaisedTypes, AddedTypes, TakenByAll, SoldAtPrice,
      AreTwins, AreOld, CanMergeAll, CanAddAll, PoolsAfter, HoldsAreKnown;
    ghost var start := WorldOf(conn);
    cart := self;
    var merged, checks, rows', twins', touched' := MergeExisting(conn, self, mapped, boxOfficePricing, removeOthers);
    rows, twins, touched := rows', twins', touched';
    if merged.Err? {
      return Err(merged.error), cart, rows, twins, touched;
    }
    ghost var between := WorldOf(conn);
    var _, cart' := EnsureExpiry(conn, self);
    cart := cart';
    ghost var ready := WorldOf(conn);
    AddsAfterMerging(conn, start.tickets, ready.tickets, merged.value, mapped, rows, boxOfficePricing, removeOthers);
    var added, moreChecks := AddLines(conn, cart, merged.value, boxOfficePricing);
    if added.Err? {
      return Err(added.error), cart, rows, twins, touched;
    }
    UndisturbedThrice(start, between, ready, WorldOf(conn), touched);
    TwinsRemain(start.history.repriced, ready, WorldOf(conn), self, cart, start.nextId, conn.pricings, boxOfficePricing, mapped, rows, twins);
    SoldAtPriceTwice(start.items, between.items, conn.orderItems, TermsOf(conn), boxOfficePricing, self.id);
    return Ok(checks + moreChecks), cart, rows, twins, touched;
  }

  lemma AddsAfterMerging(conn: Connection, before: seq<Ticket>, after: seq<Ticket>, left: seq<MappedLine>, mapped: seq<MappedLine>,
                         rows: seq<OrderItem>, boxOfficePricing: bool, removeOthers: bool)
    requires PoolsAfter(before, after, conn.now, conn.lockedRows, mapped, rows, removeOthers)
    ensures CanAddAll(conn, after, left, boxOfficePricing, NoneFreed())
       <==> CanAddAll(conn, before, left, boxOfficePricing, FreedIn(mapped, rows, removeOthers))
  {
    hide CanAddAll, PoolsGrown, FreedBy;
    CanAddFromMore(conn, before, after, left, boxOfficePricing, FreedIn(mapped, rows, removeOthers), NoneFreed(),
                   FreedIn(mapped, rows, removeOthers));
  }

  /** A step that disturbs nobody and sells nothing short leaves the twins in place. */
  lemma TwinsRemain(before: map<Id, int>, w: World, after: World, self: Order, cart: Order, first: Id, pricings: map<(Id, bool), Pricing>,
                    boxOfficePricing: bool, mapped: seq<MappedLine>, rows: seq<OrderItem>, twins: seq<Option<Id>>)
    requires AreTwins(before, w.history.repriced, w.items, first, pricings, boxOfficePricing, mapped, rows, twins)
    requires Inv(w) && IsCart(w, cart) && cart.id == self.id && AreOld(rows, self, first) && Undisturbed(w, after, {})
    requires after.history.repriced == w.history.repriced
    ensures AreTwins(before, after.history.repriced, after.items, first, pricings, boxOfficePricing, mapped, rows, twins)
  {
    hide Inv, Undisturbed, HasTwin, IsCart;
    assert AreOld(rows, cart, first);
    TwinsStay(before, w, after, cart, first, pricings, boxOfficePricing, mapped, rows, twins, {});
  }

  lemma UndisturbedThrice(a: World, b: World, c: World, d: World, except: set<Id>)
    requires Undisturbed(a, b, except) && Undisturbed(b, c, {}) && Undisturbed(c, d, {})
    ensures Undisturbed(a, d, except)
  {
    UndisturbedTwice(a, b, c, except, {});
    UndisturbedTwice(a, c, d, except + {}, {});
    assert except + {} + {} == except;
  }

  lemma MergedAll(items: map<Id, OrderItem>, mapped: seq<MappedLine>, items': map<Id, OrderItem>, mapped': seq<MappedLine>,
                  rows: seq<OrderItem>, kept: multiset<Line>, orderId: Id)
    requires MergedSoFar(items, mapped, items', mapped', rows, kept, orderId)
    requires SeqLines(rows, orderId) == Lines(items, orderId)
    ensures Lines(items', orderId) + Pending(mapped') == Pending(mapped) + kept
  {
    hide Lines, Pending, SeqLines;
    var all := Lines(items, orderId);
    assert (Pending(mapped) + kept) + all == all + Pending(mapped) + kept;
    Cancel(Lines(items', orderId) + Pending(mapped'), Pending(mapped) + kept, all);
  }

  lemma LeftAloneRows(rows: seq<OrderItem>, w: World, mapped: seq<MappedLine>, removeOthers: bool, touched: set<Id>, orderId: Id)
    requires IsListing(rows, w.items, orderId)
    requires forall j :: 0 <= j < |rows| && LeftAlone(mapped, rows[j], removeOthers) ==> rows[j].id !in touched
    ensures SparesLeftAlone(w.items, orderId, mapped, removeOthers, touched)
  {
    forall k | k in ItemsOf(w.items, orderId) && LeftAlone(mapped, w.items[k], removeOthers) ensures k !in touched {
      assert k in Ids(rows);
      var row :| row in rows && row.id == k;
      var j :| 0 <= j < |rows| && rows[j] == row;
    }
  }

  /** An empty cart can lose its expiry unless that is now. */
  ghost predicate CanDropExpiry(w: World, self: Order) {
    ItemsOf(w.items, self.id) == {} && self.expiresAt.Some? ==> w.now < self.expiresAt.value
  }

  /** The emptiness test. */
  method DropExpiryIfEmpty(conn: Connection, self: Order) returns (r: Result<()>, cart: Order)
    requires Inv(WorldOf(conn)) && IsCart(WorldOf(conn), self)
    modifies conn`orders
    ensures r.Ok? <==> CanDropExpiry(old(WorldOf(conn)), self)
    ensures r.Ok? ==>
      && cart == self.(expiresAt := if ItemsOf(conn.orderItems, self.id) == {} then None else self.expiresAt)
      && conn.orders == old(conn.orders)[self.id := cart]
      && Inv(WorldOf(conn)) && IsCart(WorldOf(conn), cart)
      && Undisturbed(old(WorldOf(conn)), WorldOf(conn), {})
  {
    hide Inv, Undisturbed, AreRowsOf, Structured;
    InvIsStructured(WorldOf(conn));
    StructuredIsKeyed(conn.orderItems, conn.nextId);
    var rows := FindForOrder(conn, self.id);
    RowsAreCartRows(WorldOf(conn), self, rows);
    NoRowsNoItems(rows, conn.orderItems, self.id);
    if |rows| == 0 {
      r, cart := RemoveExpiry(conn, self);
    } else {
      assert conn.orders[self.id := self] == conn.orders;
      NothingChanged(WorldOf(conn), {});
      r, cart := Ok(()), self;
    }
  }

  /** The emptiness test, the limits and the fees. The test runs before event fees are dropped. */
  method Finish(conn: Connection, self: Order, checks: seq<Id>) returns (r: Result<()>, cart: Order, ghost feeRows: seq<OrderItem>)
    requires Inv(WorldOf(conn)) && IsCart(WorldOf(conn), self)
    requires SchedulesAscend(conn.ticketTypes)
    modifies conn`orders, conn`orderItems, conn`nextId
    ensures r.Ok? <==> CanFinish(conn, old(WorldOf(conn)), self, checks)
    ensures r.Ok? ==>
      && cart == self.(expiresAt := if ItemsOf(old(conn.orderItems), self.id) == {} then None else self.expiresAt)
      && conn.orders == old(conn.orders)[self.id := cart]
      && Inv(WorldOf(conn)) && IsCart(WorldOf(conn), cart)
      && Undisturbed(old(WorldOf(conn)), WorldOf(conn), {})
      && Lines(conn.orderItems, self.id) == Lines(old(conn.orderItems), self.id)
      && FeesUpdated(old(conn.orderItems), conn.orderItems, conn.nextId, feeRows, self.id, conn.ticketTypes, conn.holds, conn.events)
      && (forall t :: t in checks ==> WithinLimit(WorldOf(conn), conn.ticketTypes, self.userId, t))
      && forall k :: k in conn.orderItems && conn.orderItems[k].itemType == Tickets ==>
           k in old(conn.orderItems) && old(conn.orderItems)[k] == conn.orderItems[k]
  {
    hide Inv, Undisturbed, Lines, FeesUpdated, AreRowsOf, Structured, WithinLimit, CanDropExpiry, CanUpdateOrderFees, ItemsOf;
    feeRows := [];
    ghost var start := WorldOf(conn);
    r, cart := DropExpiryIfEmpty(conn, self);
    if r.Err? {
      return;
    }
    ghost var before := WorldOf(conn);
    LimitsLookPastExpiry(start, before, self, cart, conn.ticketTypes);
    r := CheckLimits(conn, self.userId, checks);
    if r.Err? {
      return;
    }
    FeesLookPastExpiry(conn, start.items, self, cart);
    r, feeRows := UpdateOrderFees(conn, cart);
    if r.Ok? {
      UndisturbedStill(start, before, WorldOf(conn));
      forall t | t in checks ensures WithinLimit(WorldOf(conn), conn.ticketTypes, self.userId, t) {
        InvLinks(before);
        FeesLeaveLimits(before, WorldOf(conn), conn.ticketTypes, self.userId, t);
      }
    }
  }

  /** The cart can be left as the request has made it: its expiry goes if it is empty, the limits hold, and the fees can be updated. */
  ghost predicate CanFinish(conn: Connection, w: World, self: Order, checks: seq<Id>)
    reads conn`tickets, conn`refundedTickets, conn`holds
  {
    && CanDropExpiry(w, self)
    && (forall t :: t in checks ==> WithinLimit(w, conn.ticketTypes, self.userId, t))
    && CanUpdateOrderFees(conn, w.items, self)
  }

  lemma LimitsLookPastExpiry(w: World, after: World, self: Order, cart: Order, ticketTypes: map<Id, TicketType>)
    requires self.id in w.orders && w.orders[self.id] == self && cart == self.(expiresAt := cart.expiresAt)
    requires after == w.(orders := w.orders[self.id := cart])
    ensures forall t :: WithinLimit(after, ticketTypes, self.userId, t) <==> WithinLimit(w, ticketTypes, self.userId, t)
  {
    forall t: Id, e: Id ensures TicketsOfUser(after.tickets, after.orders, after.items, after.now, self.userId, t, e)
      == TicketsOfUser(w.tickets, w.orders, w.items, w.now, self.userId, t, e)
    {
    }
  }

  lemma FeesLookPastExpiry(conn: Connection, items: map<Id, OrderItem>, self: Order, cart: Order)
    requires cart == self.(expiresAt := cart.expiresAt)
    ensures CanUpdateOrderFees(conn, items, cart) <==> CanUpdateOrderFees(conn, items, self)
  {
  }

  lemma FeesLeaveLimits(w: World, after: World, ticketTypes: map<Id, TicketType>, userId: Id, t: Id)
    requires LinksOk(w) && after == w.(items := after.items, nextId := after.nextId) && WithinLimit(w, ticketTypes, userId, t)
    requires forall k :: k in w.items && w.items[k].itemType == Tickets ==> k in after.items && after.items[k] == w.items[k]
    ensures WithinLimit(after, ticketTypes, userId, t)
  {
    hide LinksOk;
    if t in ticketTypes {
      FeesLeaveTicketsOfUser(w, after, userId, t, ticketTypes[t].eventId);
    }
  }

  lemma InvLinks(w: World)
    requires Inv(w)
    ensures LinksOk(w) && OneFeeEach(w.items)
  {
  }

  lemma NoRowsNoItems(rows: seq<OrderItem>, items: map<Id, OrderItem>, orderId: Id)
    requires IsListing(rows, items, orderId)
    ensures |rows| == 0 <==> ItemsOf(items, orderId) == {}
  {
    assert rows != [] ==> rows[0] in rows && rows[0].id in Ids(rows);
  }

  /** `update_fees` on a cart. */
  method UpdateOrderFees(conn: Connection, self: Order) returns (r: Result<()>, ghost feeRows: seq<OrderItem>)
    requires Inv(WorldOf(conn)) && self.id in conn.orders && !IsPastDraft(WorldOf(conn), self.id)
    requires SchedulesAscend(conn.ticketTypes)
    modifies conn`orderItems, conn`nextId
    ensures r.Ok? <==> CanUpdateOrderFees(conn, old(conn.orderItems), self)
    ensures r.Ok? ==>
      && Inv(WorldOf(conn))
      && Undisturbed(old(WorldOf(conn)), WorldOf(conn), {})
      && Lines(conn.orderItems, self.id) == Lines(old(conn.orderItems), self.id)
      && FeesUpdated(old(conn.orderItems), conn.orderItems, conn.nextId, feeRows, self.id, conn.ticketTypes, conn.holds, conn.events)
      && forall k :: k in old(conn.orderItems) && old(conn.orderItems)[k].itemType == Tickets ==>
           k in conn.orderItems && conn.orderItems[k] == old(conn.orderItems)[k]
    ensures r.Ok? ==> forall k :: k in conn.orderItems && conn.orderItems[k].itemType == Tickets ==>
      k in old(conn.orderItems) && old(conn.orderItems)[k] == conn.orderItems[k]
  {
    hide Inv, Undisturbed, Lines, FeesUpdated, OneFeeEach, Structured, CanUpdateOrderFees, LinksOk;
    InvIsStructured(WorldOf(conn));
    InvLinks(WorldOf(conn));
    ghost var before := WorldOf(conn);
    r, feeRows := UpdateFees(conn, self);
    if r.Ok? {
      UpdatingFeesIsSafe(before, WorldOf(conn), feeRows, self.id, conn.ticketTypes, conn.holds, conn.events);
      FeesLeaveTicketRows(before.items, conn.orderItems, before.nextId, conn.nextId, feeRows, self.id, conn.ticketTypes,
                          conn.holds, conn.events);
    }
  }

  // ------------------------------------------------------------ update_quantities

  /** A quarter of an hour from when the first item went in; later updates do not extend it. */
  function ExpiryOf(self: Order, now: Time): (e: Option<Time>) {
    if self.expiresAt.None? then Some(now + CART_EXPIRY_TIME) else self.expiresAt
  }

  /** The outcome of a successful update, for the cart and for everybody else. */
  ghost predicate Updated(w: World, after: World, self: Order, cart: Order, wanted: seq<MappedLine>, boxOfficePricing: bool,
                          removeOthers: bool) {
    && self.status == Draft
    && cart == self.(version := self.version + 1, boxOfficePricing := boxOfficePricing, expiresAt := cart.expiresAt)
    && (cart.expiresAt == None || cart.expiresAt == if self.expiresAt.None? then Some(w.now + 15 * 60) else self.expiresAt)
    && after.orders == w.orders[self.id := cart]
    && Undisturbed(w, after, ItemsOf(w.items, self.id))
    && (boxOfficePricing == self.boxOfficePricing && !removeOthers ==>
          forall k :: IsLiveItem(w, k) && w.items[k].orderId == self.id && NoMatch(wanted, w.items[k]) ==> KeepsItem(w, after, k))
  }

  /** The rows the request is merged with: those of the cart, which is emptied first if it is to be sold another way. */
  ghost predicate AreMerged(rows: seq<OrderItem>, items: map<Id, OrderItem>, self: Order, boxOfficePricing: bool) {
    if boxOfficePricing == self.boxOfficePricing then AreRowsOf(rows, items, self.id)
    else forall row :: row in rows ==> row.itemType != Tickets
  }

  /** The cart once the request has been merged into it. */
  function Opened(self: Order, boxOfficePricing: bool, now: Time): (cart: Order) {
    self.(version := self.version + 1, boxOfficePricing := boxOfficePricing, expiresAt := ExpiryOf(self, now))
  }

  /** The version is the one read, the rows to be cleared can be removed one after the other, and all codes are known. */
  ghost predicate CanPrepare(conn: Connection, self: Order, items: seq<UpdateOrderItem>, cleared: seq<OrderItem>)
    requires self.id in conn.orders
    reads conn`orders, conn`holds, conn`orderItems, conn`tickets, conn`pricings, conn`now, conn`lockedRows, conn`refundedTickets
  {
    && conn.orders[self.id].version == self.version
    && CanMergeAll(conn, conn.orderItems, conn.tickets, [], cleared, false, true)
    && forall i :: 0 <= i < |items| ==> !UnknownCode(items[i], conn.holds)
  }

  /** What clearing and merging free together. */
  function FreedInAll(cleared: seq<OrderItem>, wanted: seq<MappedLine>, rows: seq<OrderItem>, removeOthers: bool)
    : (change: (Id, Option<Id>) -> int)
  {
    (t: Id, h: Option<Id>) => FreedBy([], cleared, true, t, h) + FreedBy(wanted, rows, removeOthers, t, h)
  }

  /** The rows can be merged with the request one after the other, and then the lines added that are left, with what has been freed by then. */
  ghost predicate CanSell(conn: Connection, wanted: seq<MappedLine>, rows: seq<OrderItem>, cleared: seq<OrderItem>, boxOfficePricing: bool,
                          removeOthers: bool)
    reads conn`orderItems, conn`tickets, conn`pricings, conn`now, conn`lockedRows, conn`refundedTickets
  {
    && CanMergeAll(conn, conn.orderItems, conn.tickets, wanted, rows, boxOfficePricing, removeOthers)
    && CanAddAll(conn, conn.tickets, TakenByAll(wanted, rows), boxOfficePricing, FreedInAll(cleared, wanted, rows, removeOthers))
  }

  /** Everything up to the limits and the fees. */
  method MergeAndAdd(conn: Connection, self: Order, items: seq<UpdateOrderItem>, boxOfficePricing: bool, removeOthers: bool)
    returns (r: Result<seq<Id>>, cart: Order, ghost wanted: seq<MappedLine>, ghost rows: seq<OrderItem>, ghost twins: seq<Option<Id>>,
             ghost cleared: seq<OrderItem>, ghost prepared: World, ghost touched: set<Id>)
    requires Inv(WorldOf(conn)) && self.id in conn.orders
    requires conn.orders[self.id].version == self.version ==> IsCart(WorldOf(conn), self)
    modifies conn`orders, conn`orderItems, conn`tickets, conn`nextId, conn`history
    ensures old(conn.orders)[self.id].version == self.version ==> AreCleared(cleared, old(conn.orderItems), self, boxOfficePricing)
    ensures old(CanPrepare(conn, self, items, cleared)) ==>
      IsMapping(items, wanted, conn.holds) && AreMerged(rows, old(conn.orderItems), self, boxOfficePricing)
    ensures r.Ok? <==> old(CanPrepare(conn, self, items, cleared)) && old(CanSell(conn, wanted, rows, cleared, boxOfficePricing, removeOthers))
    ensures r.Ok? ==>
      && old(conn.orders)[self.id].version == self.version && r.value == RaisedTypes(wanted, rows) + AddedTypes(TakenByAll(wanted, rows))
      && cart == Opened(self, boxOfficePricing, conn.now) && conn.orders == old(conn.orders)[self.id := cart]
      && Inv(WorldOf(conn)) && IsCart(WorldOf(conn), cart)
      && Undisturbed(old(WorldOf(conn)), prepared, ItemsOf(old(conn.orderItems), self.id)) && OnlyRowsOf(old(conn.orderItems), prepared.items)
      && (if boxOfficePricing == self.boxOfficePricing
          then prepared.items == old(conn.orderItems) && Undisturbed(old(WorldOf(conn)), prepared, {})
          else NoTickets(prepared.items, self.id))
      && touched <= ItemsOf(prepared.items, self.id) && Undisturbed(prepared, WorldOf(conn), touched)
      && SparesLeftAlone(prepared.items, self.id, wanted, removeOthers, touched)
      && SoldAtPrice(prepared.items, conn.orderItems, TermsOf(conn), boxOfficePricing, self.id)
      && AreOld(rows, self, old(conn.nextId))
      && LinesMerged(old(WorldOf(conn)), WorldOf(conn), wanted, rows, twins, conn.pricings, boxOfficePricing, removeOthers, self.id)
  {
    hide Inv, Undisturbed, ItemsOf, NoTickets, CanMergeAll, CanAddAll, IsMapping, AreRowsOf, AreMerged, AreCleared, UnknownCode, PoolsAfter,
      FreedInAll, SparesLeftAlone, SoldAtPrice, AreOld, AreTwins, KeptLines, Pending, Lines, TakenByAll, RaisedTypes, AddedTypes, OnlyRowsOf;
    ghost var start := WorldOf(conn);
    wanted, rows, twins, prepared, touched := [], [], [], start, {};
    var ready, cart', cleared' := PrepareCart(conn, self, boxOfficePricing);
    cart, cleared := cart', cleared';
    if ready.Err? {
      return Err(ready.error), cart, wanted, rows, twins, cleared, prepared, touched;
    }
    prepared := WorldOf(conn);
    var mapped := MapLines(conn, items);
    if mapped.Err? {
      return Err(mapped.error), cart, wanted, rows, twins, cleared, prepared, touched;
    }
    wanted := mapped.value;
    var merged, cart'', rows', twins', touched' := MergeRequest(conn, cart, mapped.value, boxOfficePricing, removeOthers);
    rows, twins, touched := rows', twins', touched';
    PreparedRowsAreMerged(start.items, prepared.items, rows, self, boxOfficePricing);
    SellsAlike(conn, start, prepared, self, wanted, rows, cleared, boxOfficePricing, removeOthers);
    assert merged.Ok? ==> AreOld(rows, self, start.nextId) by {
      if merged.Ok? {
        OldForBoth(rows, cart, self, start.nextId);
      }
    }
    r, cart := merged, cart'';
  }

  lemma OldForBoth(rows: seq<OrderItem>, self: Order, other: Order, first: Id)
    requires AreOld(rows, self, first) && self.id == other.id
    ensures AreOld(rows, other, first)
  {
  }

  /** After clearing, the request can be merged and added exactly if it could be before, with what clearing frees. */
  lemma SellsAlike(conn: Connection, start: World, prepared: World, self: Order, wanted: seq<MappedLine>, rows: seq<OrderItem>,
                   cleared: seq<OrderItem>, boxOfficePricing: bool, removeOthers: bool)
    requires AreMerged(rows, start.items, self, boxOfficePricing)
    requires AreCleared(cleared, start.items, self, boxOfficePricing)
    requires PoolsAfter(start.tickets, prepared.tickets, conn.now, conn.lockedRows, [], cleared, true)
    requires boxOfficePricing == self.boxOfficePricing ==> prepared.items == start.items && prepared.tickets == start.tickets
    ensures CanMergeAll(conn, prepared.items, prepared.tickets, wanted, rows, boxOfficePricing, removeOthers)
       <==> CanMergeAll(conn, start.items, start.tickets, wanted, rows, boxOfficePricing, removeOthers)
    ensures CanAddAll(conn, prepared.tickets, TakenByAll(wanted, rows), boxOfficePricing, FreedIn(wanted, rows, removeOthers))
       <==> CanAddAll(conn, start.tickets, TakenByAll(wanted, rows), boxOfficePricing, FreedInAll(cleared, wanted, rows, removeOthers))
  {
    hide CanAddAll, PoolsGrown, CanMerge, TakenByAll, FreedBy, AreRowsOf;
    CanAddFromMore(conn, start.tickets, prepared.tickets, TakenByAll(wanted, rows), boxOfficePricing, FreedIn([], cleared, true),
                   FreedIn(wanted, rows, removeOthers), FreedInAll(cleared, wanted, rows, removeOthers));
    if boxOfficePricing != self.boxOfficePricing {
      assert forall i :: 0 <= i < |rows| ==> rows[i] in rows && rows[i].itemType != Tickets;
    }
  }

  /**
    `update_quantities`. Whatever the request, the reservation invariant survives and other live carts notice nothing.
    The lines of the cart become the requested ones with a positive quantity, duplicates included, and beside them the
    lines that stay: those nothing was asked of, unless others were to be removed, and those raised at a price that has
    changed. Of each row put beside one of these, as many tickets are never reserved as the other has (`twins` are the new rows);
    nothing else is ever sold short. The limits hold for every ticket type of which there are more now. The
    fees are settled last; `done` is the state before that, and `feeRows` the order in which the items are gone through.

    It succeeds exactly if the version is the one read, the codes are known, and every row (cleared first, if the cart is to be
    sold another way) and every line can be served in its turn with the tickets there are and those freed until then; and if the
    limits hold in `done`, the fees can be updated, and the cart, if it is empty, does not expire at this very moment.
   */
  method UpdateQuantities(conn: Connection, self: Order, items: seq<UpdateOrderItem>, boxOfficePricing: bool, removeOthers: bool)
    returns (r: Result<()>, cart: Order, ghost wanted: seq<MappedLine>, ghost rows: seq<OrderItem>, ghost twins: seq<Option<Id>>,
             ghost cleared: seq<OrderItem>, ghost done: World, ghost feeRows: seq<OrderItem>)
    requires Inv(WorldOf(conn)) && self.id in conn.orders
    requires conn.orders[self.id].version == self.version ==> IsCart(WorldOf(conn), self)
    requires SchedulesAscend(conn.ticketTypes)
    modifies conn`orders, conn`orderItems, conn`tickets, conn`nextId, conn`history
    ensures old(conn.orders)[self.id].version == self.version ==> AreCleared(cleared, old(conn.orderItems), self, boxOfficePricing)
    ensures old(CanPrepare(conn, self, items, cleared)) ==>
      IsMapping(items, wanted, conn.holds) && AreMerged(rows, old(conn.orderItems), self, boxOfficePricing)
    ensures old(CanPrepare(conn, self, items, cleared)) && old(CanSell(conn, wanted, rows, cleared, boxOfficePricing, removeOthers)) ==>
      IsDone(old(WorldOf(conn)), done, self, wanted, rows, twins, conn.pricings, boxOfficePricing, removeOthers)
    ensures r.Ok? <==>
      && old(CanPrepare(conn, self, items, cleared)) && old(CanSell(conn, wanted, rows, cleared, boxOfficePricing, removeOthers))
      && CanFinish(conn, done, Opened(self, boxOfficePricing, conn.now), RaisedTypes(wanted, rows) + AddedTypes(TakenByAll(wanted, rows)))
    ensures r.Ok? ==>
      && old(conn.orders)[self.id].version == self.version
      && Inv(WorldOf(conn)) && IsCart(WorldOf(conn), cart)
      && IsMapping(items, wanted, conn.holds) && AreMerged(rows, old(conn.orderItems), self, boxOfficePricing)
      && Updated(old(WorldOf(conn)), WorldOf(conn), self, cart, wanted, boxOfficePricing, removeOthers)
      && (cart.expiresAt.None? <==> ItemsOf(done.items, self.id) == {})
      && (conn.history.repriced == old(conn.history.repriced) <==> NoneRepriced(conn.pricings, boxOfficePricing, wanted, rows))
      && LinesMerged(old(WorldOf(conn)), WorldOf(conn), wanted, rows, twins, conn.pricings, boxOfficePricing, removeOthers, self.id)
      && (forall t :: t in RaisedTypes(wanted, rows) + AddedTypes(TakenByAll(wanted, rows)) ==>
           WithinLimit(WorldOf(conn), conn.ticketTypes, self.userId, t))
      && SoldAtPrice(old(conn.orderItems), conn.orderItems, TermsOf(conn), boxOfficePricing, self.id)
      && (boxOfficePricing != self.boxOfficePricing || AllAtPrice(old(conn.orderItems), conn.pricings, boxOfficePricing, self.id)
          ==> AllAtPrice(conn.orderItems, conn.pricings, boxOfficePricing, self.id))
      && FeesUpdated(done.items, conn.orderItems, conn.nextId, feeRows, self.id, conn.ticketTypes, conn.holds, conn.events)
  {
    hide Inv, Undisturbed, Lines, Pending, IsMapping, NoMatch, LeftAlone, ItemsOf, KeepsItem, Updated, FeesUpdated,
      SparesLeftAlone, WithinLimit, NoTickets, SchedulesAscend, IsLiveItem, AreRowsOf, NoneRepriced, KeptLines, RaisedTypes, AddedTypes,
      TakenByAll, AreMerged, SoldAtPrice, AllAtPrice, AreTwins, AreOld, CanPrepare, CanSell, CanFinish, IsDone, AreCleared, OnlyRowsOf;
    ghost var start := WorldOf(conn);
    feeRows := [];
    var merged, cart', wanted', rows', twins', cleared', prepared, touched := MergeAndAdd(conn, self, items, boxOfficePricing, removeOthers);
    wanted, rows, twins, cleared, done := wanted', rows', twins', cleared', WorldOf(conn);
    if merged.Err? {
      return Err(merged.error), cart', wanted, rows, twins, cleared, done, feeRows;
    }
    ItIsDone(start, prepared, done, self, cart', wanted, rows, twins, touched, conn.pricings, boxOfficePricing, removeOthers);
    r, cart, feeRows := Finish(conn, cart', merged.value);
    if r.Ok? {
      UpdateIsUpdated(start, prepared, done, WorldOf(conn), self, cart, wanted, touched, boxOfficePricing, removeOthers);
      TwinsRemain(start.history.repriced, done, WorldOf(conn), self, cart', start.nextId, conn.pricings, boxOfficePricing, wanted, rows, twins);
      ShortagesAreOld(start);
      ShortIffRepriced(start.history.repriced, conn.history.repriced, conn.orderItems, start.nextId, conn.pricings, boxOfficePricing, wanted,
                       rows, twins);
      PricesAfterUpdate(start.items, prepared.items, done.items, conn.orderItems, self, TermsOf(conn), boxOfficePricing);
    }
  }

  /** What holds before the limits and the fees are looked at. */
  ghost predicate IsDone(w: World, done: World, self: Order, wanted: seq<MappedLine>, rows: seq<OrderItem>, twins: seq<Option<Id>>,
                         pricings: map<(Id, bool), Pricing>, boxOfficePricing: bool, removeOthers: bool) {
    && Inv(done) && done.orders == w.orders[self.id := Opened(self, boxOfficePricing, w.now)]
    && Undisturbed(w, done, ItemsOf(w.items, self.id))
    && LinesMerged(w, done, wanted, rows, twins, pricings, boxOfficePricing, removeOthers, self.id)
  }

  lemma ItIsDone(w: World, prepared: World, done: World, self: Order, cart: Order, wanted: seq<MappedLine>, rows: seq<OrderItem>,
                 twins: seq<Option<Id>>, touched: set<Id>, pricings: map<(Id, bool), Pricing>, boxOfficePricing: bool, removeOthers: bool)
    requires Inv(done) && done.orders == w.orders[self.id := Opened(self, boxOfficePricing, w.now)]
    requires Undisturbed(w, prepared, ItemsOf(w.items, self.id)) && OnlyRowsOf(w.items, prepared.items)
    requires Undisturbed(prepared, done, touched) && touched <= ItemsOf(prepared.items, self.id)
    requires LinesMerged(w, done, wanted, rows, twins, pricings, boxOfficePricing, removeOthers, self.id)
    ensures IsDone(w, done, self, wanted, rows, twins, pricings, boxOfficePricing, removeOthers)
  {
    hide Inv, Undisturbed, LinesMerged;
    UndisturbedTwice(w, prepared, done, ItemsOf(w.items, self.id), touched);
    assert touched <= ItemsOf(w.items, self.id);
    assert ItemsOf(w.items, self.id) + touched == ItemsOf(w.items, self.id);
  }

  /** Preparing and finishing leave the prices of the rows they leave. */
  lemma PricesAfterUpdate(items: map<Id, OrderItem>, prepared: map<Id, OrderItem>, done: map<Id, OrderItem>, after: map<Id, OrderItem>,
                          self: Order, terms: Terms, boxOfficePricing: bool)
    requires OnlyRowsOf(items, prepared) && SoldAtPrice(prepared, done, terms, boxOfficePricing, self.id)
    requires forall k :: k in after && after[k].itemType == Tickets ==> k in done && done[k] == after[k]
    requires if boxOfficePricing == self.boxOfficePricing then prepared == items else NoTickets(prepared, self.id)
    ensures SoldAtPrice(items, after, terms, boxOfficePricing, self.id)
    ensures boxOfficePricing != self.boxOfficePricing || AllAtPrice(items, terms.pricings, boxOfficePricing, self.id)
      ==> AllAtPrice(after, terms.pricings, boxOfficePricing, self.id)
  {
    hide SoldAtPrice, AllAtPrice, NoTickets;
    FewerRowsAtPrice(items, prepared, terms, boxOfficePricing, self.id);
    FewerRowsAtPrice(done, after, terms, boxOfficePricing, self.id);
    SoldAtPriceTwice(items, prepared, done, terms, boxOfficePricing, self.id);
    SoldAtPriceTwice(items, done, after, terms, boxOfficePricing, self.id);
    SoldAtPriceTwice(prepared, done, after, terms, boxOfficePricing, self.id);
    if boxOfficePricing != self.boxOfficePricing || AllAtPrice(items, terms.pricings, boxOfficePricing, self.id) {
      PreparedAtPrice(items, prepared, self, terms.pricings, boxOfficePricing);
      AtPriceStill(prepared, after, terms, boxOfficePricing, self.id);
    }
  }

  lemma ShortagesAreOld(w: World)
    requires Inv(w)
    ensures forall k :: k in w.history.repriced ==> k < w.nextId
  {
  }

  lemma PreparedAtPrice(items: map<Id, OrderItem>, prepared: map<Id, OrderItem>, self: Order, pricings: map<(Id, bool), Pricing>,
                        boxOfficePricing: bool)
    requires if boxOfficePricing != self.boxOfficePricing then NoTickets(prepared, self.id)
             else prepared == items && AllAtPrice(items, pricings, boxOfficePricing, self.id)
    ensures AllAtPrice(prepared, pricings, boxOfficePricing, self.id)
  {
  }

  lemma PreparedRowsAreMerged(items: map<Id, OrderItem>, prepared: map<Id, OrderItem>, rows: seq<OrderItem>, self: Order,
                              boxOfficePricing: bool)
    requires if boxOfficePricing != self.boxOfficePricing then NoTickets(prepared, self.id) else prepared == items
    requires AreRowsOf(rows, prepared, self.id)
    ensures AreMerged(rows, items, self, boxOfficePricing)
  {
    if boxOfficePricing != self.boxOfficePricing {
      forall row | row in rows ensures row.itemType != Tickets {
        assert row.id in Ids(rows);
      }
    }
  }

  lemma UpdateIsUpdated(w: World, prepared: World, done: World, after: World, self: Order, cart: Order, wanted: seq<MappedLine>,
                        touched: set<Id>, boxOfficePricing: bool, removeOthers: bool)
    requires self.status == Draft
    requires cart == self.(version := self.version + 1, boxOfficePricing := boxOfficePricing, expiresAt := cart.expiresAt)
    requires cart.expiresAt == None || cart.expiresAt == ExpiryOf(self, w.now)
    requires after.orders == w.orders[self.id := cart]
    requires Undisturbed(w, prepared, ItemsOf(w.items, self.id))
    requires boxOfficePricing == self.boxOfficePricing ==> prepared.items == w.items && Undisturbed(w, prepared, {})
    requires Undisturbed(prepared, done, touched) && touched <= ItemsOf(prepared.items, self.id)
    requires SparesLeftAlone(prepared.items, self.id, wanted, removeOthers, touched)
    requires Undisturbed(done, after, {})
    ensures Updated(w, after, self, cart, wanted, boxOfficePricing, removeOthers)
  {
    hide RecordsLittle, KeepsRows, KeepsItem, NoMatch;
    UndisturbedTwice(prepared, done, after, touched, {});
    assert touched + {} == touched;
    RecordsLittleTwice(w, prepared, after);
    forall o | IsPastDraft(w, o) ensures KeepsRows(w.items, after.items, o) {
      assert IsPastDraft(prepared, o);
      KeepsRowsTwice(w.items, prepared.items, after.items, o);
    }
    forall k | IsLiveItem(w, k) && k !in ItemsOf(w.items, self.id) ensures KeepsItem(w, after, k) && IsLiveItem(after, k) {
      assert KeepsItem(w, prepared, k) && IsLiveItem(prepared, k);
      KeepingRow(w, prepared, k);
      assert k !in touched;
      assert KeepsItem(prepared, after, k) && IsLiveItem(after, k);
      KeepingTwice(w, prepared, after, k);
    }
    if boxOfficePricing == self.boxOfficePricing && !removeOthers {
      forall k | IsLiveItem(w, k) && w.items[k].orderId == self.id && NoMatch(wanted, w.items[k]) ensures KeepsItem(w, after, k) {
        assert k in ItemsOf(prepared.items, self.id) && LeftAlone(wanted, prepared.items[k], removeOthers);
        assert KeepsItem(w, prepared, k) && IsLiveItem(prepared, k);
        assert k !in touched;
        assert KeepsItem(prepared, after, k);
        KeepingTwice(w, prepared, after, k);
      }
    }
  }

  lemma KeepingRow(w: World, after: World, k: Id)
    requires k in w.items && KeepsItem(w, after, k)
    ensures k in after.items && after.items[k] == w.items[k]
  {
  }

  lemma KeepingTwice(a: World, b: World, c: World, k: Id)
    requires k in a.items && KeepsItem(a, b, k) && k in b.items && KeepsItem(b, c, k)
    ensures KeepsItem(a, c, k)
  {
  }

  lemma KeepsRowsTwice(a: map<Id, OrderItem>, b: map<Id, OrderItem>, c: map<Id, OrderItem>, o: Id)
    requires KeepsRows(a, b, o) && KeepsRows(b, c, o)
    ensures KeepsRows(a, c, o)
  {
  }
}
