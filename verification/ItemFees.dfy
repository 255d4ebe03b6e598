/** `OrderItem::update_fees`: the per-unit fee row of one Tickets item (db/src/models/order_items.rs:89-160). */
module ItemFees {
  import opened Schema
  import opened FeeSchedules
  import opened OrderItems
  import opened OrderRows

  /** The row `update_fees` inserts when there is none. */
  function NewFee(item: OrderItem, range: FeeScheduleRange): (row: OrderItem) {
    OrderItem(0, item.orderId, PerUnitFees, None, item.eventId, item.quantity, range.feeInCents, None, Some(item.id), None,
              range.companyFeeInCents, range.clientFeeInCents, 0)
  }

  ghost predicate KeepsParents(before: map<Id, OrderItem>, after: map<Id, OrderItem>) {
    forall r :: r in before && r in after ==> before[r].parentId == after[r].parentId && before[r].itemType == after[r].itemType
  }

  /** Outside the fees of `k` the two tables are the same, and no row changes parents. */
  ghost predicate OnlyFeesOf(before: map<Id, OrderItem>, after: map<Id, OrderItem>, k: Id) {
    && (forall r {:trigger r in after} {:trigger r in before} ::
          && !(r in before && IsFeeOf(before[r], k))
          && !(r in after && IsFeeOf(after[r], k))
          ==> (r in before <==> r in after) && (r in before ==> after[r] == before[r]))
    && KeepsParents(before, after)
  }

  /** Rows that are new have new ids. */
  ghost predicate NewIdsFrom(before: map<Id, OrderItem>, after: map<Id, OrderItem>, nextId: Id) {
    forall r :: r in after && r !in before ==> nextId <= r
  }

  ghost predicate NoFee(items: map<Id, OrderItem>, k: Id) {
    forall f :: f in items ==> !IsFeeOf(items[f], k)
  }

  /**
    `f` is the fee row of `item`, at the rate of `range`. A row that was there before keeps everything but its
    quantity and its price: `OrderItem::update` writes no other columns.
   */
  ghost predicate IsFeeRow(before: map<Id, OrderItem>, after: map<Id, OrderItem>, f: Id, item: OrderItem, range: FeeScheduleRange) {
    && f in after && IsFeeOf(after[f], item.id)
    && (f in before ==> IsFeeOf(before[f], item.id))
    && (f !in before ==> NoFee(before, item.id))
    && after[f] ==
       if f in before then before[f].(quantity := item.quantity, unitPriceInCents := range.feeInCents)
       else OrderItem(f, item.orderId, PerUnitFees, None, item.eventId, item.quantity, range.feeInCents, None, Some(item.id), None,
                      range.companyFeeInCents, range.clientFeeInCents, 0)
  }

  /** The item has the fee its price calls for: the one of the applicable range, or none below every threshold. */
  ghost predicate FeeSettled(before: map<Id, OrderItem>, after: map<Id, OrderItem>, item: OrderItem, ranges: seq<FeeScheduleRange>) {
    if Covered(ranges, item.unitPriceInCents) then
      exists f, range :: IsApplicable(ranges, item.unitPriceInCents, range) && IsFeeRow(before, after, f, item, range)
    else
      NoFee(after, item.id)
  }

  predicate IsComp(holds: map<Id, Hold>, holdId: Option<Id>) {
    holdId.Some? && holdId.value in holds && holds[holdId.value].holdType == Comp
  }

  /** `find_fee_item` */
  method FindFeeItem(conn: Connection, itemId: Id) returns (fee: Option<OrderItem>)
    requires Keyed(conn.orderItems)
    ensures fee.Some? ==> fee.value.id in conn.orderItems && conn.orderItems[fee.value.id] == fee.value && IsFeeOf(fee.value, itemId)
    ensures fee.None? ==> NoFee(conn.orderItems, itemId)
  {
    if f :| f in conn.orderItems && IsFeeOf(conn.orderItems[f], itemId) {
      return Some(conn.orderItems[f]);
    }
    return None;
  }

  /** The fee row of the item, if there is one, may be deleted: the order is a draft, and nothing refers to the row. */
  ghost predicate FeeCanGo(items: map<Id, OrderItem>, tickets: seq<Ticket>, records: seq<RefundedTicket>, itemId: Id, order: Order) {
    forall f :: f in items && IsFeeOf(items[f], itemId) ==> order.status == Draft && !IsNamed(tickets, records, f)
  }

  lemma FeeGoesIf(items: map<Id, OrderItem>, tickets: seq<Ticket>, records: seq<RefundedTicket>, itemId: Id, order: Order,
                  fee: Option<OrderItem>)
    requires OneFeeEach(items)
    requires fee.Some? ==> fee.value.id in items && items[fee.value.id] == fee.value && IsFeeOf(fee.value, itemId)
    requires fee.None? ==> NoFee(items, itemId)
    ensures FeeCanGo(items, tickets, records, itemId, order) <==>
      (fee.Some? ==> order.status == Draft && !IsNamed(tickets, records, fee.value.id))
  {
  }

  method DropFee(conn: Connection, self: OrderItem, order: Order, fee: Option<OrderItem>) returns (r: Result<()>)
    requires Structured(conn.orderItems, conn.nextId) && OneFeeEach(conn.orderItems)
    requires fee.Some? ==> fee.value.id in conn.orderItems && conn.orderItems[fee.value.id] == fee.value && IsFeeOf(fee.value, self.id)
    requires fee.None? ==> NoFee(conn.orderItems, self.id)
    modifies conn`orderItems
    ensures r.Ok? <==> FeeCanGo(old(conn.orderItems), conn.tickets, conn.refundedTickets, self.id, order)
    ensures r.Ok? ==>
      && NoFee(conn.orderItems, self.id)
      && Structured(conn.orderItems, conn.nextId) && OneFeeEach(conn.orderItems)
      && OnlyFeesOf(old(conn.orderItems), conn.orderItems, self.id)
      && conn.orderItems.Keys <= old(conn.orderItems.Keys)
  {
    hide FeeCanGo, Referenced, IsNamed;
    FeeGoesIf(conn.orderItems, conn.tickets, conn.refundedTickets, self.id, order, fee);
    if fee.Some? {
      FeesAreReferencedIfNamed(conn.orderItems, conn.nextId, conn.tickets, conn.refundedTickets, fee.value.id);
      var _ :- DestroyItem(conn, order, fee.value.id);
      WithoutStaysStructured(old(conn.orderItems), conn.nextId, fee.value.id);
      FeesHaveNoChildren(old(conn.orderItems), conn.nextId, fee.value.id);
      assert conn.orderItems == old(conn.orderItems) - {fee.value.id};
    }
    return Ok(());
  }

  lemma NoFeesTouched(items: map<Id, OrderItem>, k: Id)
    ensures OnlyFeesOf(items, items, k)
  {
  }

  lemma FeesHaveNoChildren(items: map<Id, OrderItem>, nextId: Id, f: Id)
    requires Structured(items, nextId) && f in items && items[f].itemType == PerUnitFees
    ensures Children(items, f) == {}
  {
  }

  method PutFee(conn: Connection, self: OrderItem, fee: Option<OrderItem>, range: FeeScheduleRange)
    requires Structured(conn.orderItems, conn.nextId) && OneFeeEach(conn.orderItems)
    requires self.id in conn.orderItems && conn.orderItems[self.id] == self && self.itemType == Tickets
    requires fee.Some? ==> fee.value.id in conn.orderItems && conn.orderItems[fee.value.id] == fee.value && IsFeeOf(fee.value, self.id)
    requires fee.None? ==> NoFee(conn.orderItems, self.id)
    modifies conn`orderItems, conn`nextId
    ensures exists f :: IsFeeRow(old(conn.orderItems), conn.orderItems, f, self, range)
    ensures Structured(conn.orderItems, conn.nextId) && OneFeeEach(conn.orderItems)
    ensures OnlyFeesOf(old(conn.orderItems), conn.orderItems, self.id)
    ensures NewIdsFrom(old(conn.orderItems), conn.orderItems, old(conn.nextId)) && old(conn.nextId) <= conn.nextId
  {
    match fee
    case Some(row) =>
      var updated := row.(quantity := self.quantity, unitPriceInCents := range.feeInCents);
      conn.orderItems := conn.orderItems[row.id := updated];
      assert IsFeeRow(old(conn.orderItems), conn.orderItems, row.id, self, range);
    case None =>
      var inserted := InsertItem(conn, NewFee(self, range));
      InsertStaysStructured(old(conn.orderItems), old(conn.nextId), inserted);
      assert IsFeeRow(old(conn.orderItems), conn.orderItems, inserted.id, self, range);
  }

  /** The fee of an item can be brought up to date: its type and its hold are there, and a fee that must go can. */
  ghost predicate CanUpdateFees(conn: Connection, items: map<Id, OrderItem>, self: OrderItem, order: Order)
    reads conn`tickets, conn`refundedTickets, conn`holds
  {
    && self.ticketTypeId.Some? && self.ticketTypeId.value in conn.ticketTypes
    && var covered := Covered(conn.ticketTypes[self.ticketTypeId.value].feeRanges, self.unitPriceInCents);
    && (covered && self.holdId.Some? ==> self.holdId.value in conn.holds)
    && (!covered || IsComp(conn.holds, self.holdId) ==> FeeCanGo(items, conn.tickets, conn.refundedTickets, self.id, order))
  }

  method UpdateItemFees(conn: Connection, self: OrderItem, order: Order) returns (r: Result<()>)
    requires Structured(conn.orderItems, conn.nextId) && OneFeeEach(conn.orderItems)
    requires self.id in conn.orderItems && conn.orderItems[self.id] == self
    requires forall t :: t in conn.ticketTypes ==> Ascending(conn.ticketTypes[t].feeRanges)
    modifies conn`orderItems, conn`nextId
    ensures r.Ok? <==> self.itemType != Tickets || CanUpdateFees(conn, old(conn.orderItems), self, order)
    ensures r.Ok? ==>
      && Structured(conn.orderItems, conn.nextId) && OneFeeEach(conn.orderItems)
      && OnlyFeesOf(old(conn.orderItems), conn.orderItems, self.id)
      && NewIdsFrom(old(conn.orderItems), conn.orderItems, old(conn.nextId)) && old(conn.nextId) <= conn.nextId
    ensures r.Ok? && self.itemType == Tickets ==>
      && self.ticketTypeId.value in conn.ticketTypes
      && if IsComp(conn.holds, self.holdId) then NoFee(conn.orderItems, self.id)
         else FeeSettled(old(conn.orderItems), conn.orderItems, self, conn.ticketTypes[self.ticketTypeId.value].feeRanges)
    ensures r.Ok? && self.itemType != Tickets ==> unchanged(conn)
  {
    hide Structured, OneFeeEach, OnlyFeesOf, IsFeeRow, NoFee, IsApplicable, Ascending, FeeCanGo;
    if self.itemType == PerUnitFees || self.itemType == EventFees {
      NoFeesTouched(conn.orderItems, self.id);
      return Ok(());
    }
    StructuredIsKeyed(conn.orderItems, conn.nextId);
    var fee := FindFeeItem(conn, self.id);
    if self.ticketTypeId.None? {
      return Err(NoResults);
    }
    if self.ticketTypeId.value !in conn.ticketTypes {
      return Err(QueryError);
    }
    var ranges := conn.ticketTypes[self.ticketTypeId.value].feeRanges;
    if Covered(ranges, self.unitPriceInCents) {
      // Under the guard the lookup cannot fail.
      var found := GetRange(ranges, self.unitPriceInCents);
      assert found.Ok?;
      var range := found.value;
      // A comp is free of fees.
      if self.holdId.Some? {
        if self.holdId.value !in conn.holds {
          return Err(QueryError);
        }
        if conn.holds[self.holdId.value].holdType == Comp {
          r := DropFee(conn, self, order, fee);
          return;
        }
      }
      PutFee(conn, self, fee, range);
    } else {
      r := DropFee(conn, self, order, fee);
      return;
    }
    return Ok(());
  }

  /** Settling a fee that is already settled changes nothing at all. */
  lemma SettlingTwiceIsSettlingOnce(a: map<Id, OrderItem>, b: map<Id, OrderItem>, c: map<Id, OrderItem>, item: OrderItem,
                                    ranges: seq<FeeScheduleRange>, r: Id)
    requires Ascending(ranges) && OneFeeEach(b) && OneFeeEach(c)
    requires FeeSettled(a, b, item, ranges) && FeeSettled(b, c, item, ranges)
    requires (r in b && IsFeeOf(b[r], item.id)) || (r in c && IsFeeOf(c[r], item.id))
    ensures r in b && r in c && b[r] == c[r]
  {
    var f, range :| IsApplicable(ranges, item.unitPriceInCents, range) && IsFeeRow(a, b, f, item, range);
    var g, range' :| IsApplicable(ranges, item.unitPriceInCents, range') && IsFeeRow(b, c, g, item, range');
    ApplicableRangeIsUnique(ranges, item.unitPriceInCents, range, range');
    assert f == g;
  }
}
