/** `OrderItem::refund_one_unit` and `RefundedTicket` (db/src/models/order_items.rs, refunded_tickets.rs). */
module RefundUnits {
  import opened Schema
  import opened Sums
  import opened OrderItems

  /** What the refund code needs to know of `order_items` and never disturbs. */
  ghost predicate Refundable(items: map<Id, OrderItem>) {
    Keyed(items) && FeesFollowParents(items)
  }

  /** One more unit of `k` refunded. */
  function Bump(items: map<Id, OrderItem>, k: Id): (r: map<Id, OrderItem>)
    requires k in items
  {
    items[k := items[k].(refundedQuantity := items[k].refundedQuantity + 1)]
  }

  function BumpBoth(items: map<Id, OrderItem>, k: Id, fee: Option<Id>): (r: map<Id, OrderItem>)
    requires k in items
    requires fee.Some? ==> fee.value in items
  {
    Bump(if fee.Some? then Bump(items, fee.value) else items, k)
  }

  /** The price of one unit of `k`, with its fee where one is charged back. */
  function UnitPrices(items: map<Id, OrderItem>, k: Id, fee: Option<Id>): (cents: int)
    requires k in items
    requires fee.Some? ==> fee.value in items
  {
    items[k].unitPriceInCents + if fee.Some? then items[fee.value].unitPriceInCents else 0
  }

  ghost predicate HasFee(items: map<Id, OrderItem>, k: Id) {
    exists f :: f in items && IsFeeOf(items[f], k)
  }

  /** `fee` is the row that `find_fee_item` finds, where the fee of a ticket is to be refunded with it; otherwise there is none. */
  ghost predicate LooksUp(items: map<Id, OrderItem>, item: OrderItem, refundFees: bool, fee: Option<Id>) {
    if refundFees && item.itemType == Tickets && HasFee(items, item.id)
    then fee.Some? && fee.value in items && IsFeeOf(items[fee.value], item.id)
    else fee.None?
  }

  ghost function LookedUp(items: map<Id, OrderItem>, item: OrderItem, refundFees: bool): (fee: Option<Id>)
    ensures LooksUp(items, item, refundFees, fee)
  {
    if refundFees && item.itemType == Tickets && HasFee(items, item.id)
    then var f :| f in items && IsFeeOf(items[f], item.id); Some(f)
    else None
  }

  ghost predicate OrderTakesRefunds(orders: map<Id, Order>, orderId: Id) {
    orderId in orders && orders[orderId].status in {Paid, PartiallyPaid}
  }

  /** `items` differs from `before` only in refunded quantities, which only grew, no further than to the quantity, and only in `orderId`. */
  ghost predicate OnlyRefunds(before: map<Id, OrderItem>, items: map<Id, OrderItem>, orderId: Id) {
    && items.Keys == before.Keys
    && forall k {:trigger items[k]} :: k in before ==>
       && items[k] == before[k].(refundedQuantity := items[k].refundedQuantity)
       && before[k].refundedQuantity <= items[k].refundedQuantity
       && (before[k].refundedQuantity <= before[k].quantity ==> items[k].refundedQuantity <= items[k].quantity)
       && (before[k].orderId != orderId ==> items[k] == before[k])
  }

  lemma BumpLowersTheTotal(items: map<Id, OrderItem>, k: Id)
    requires k in items
    ensures OrderTotal(Bump(items, k), items[k].orderId) == OrderTotal(items, items[k].orderId) - items[k].unitPriceInCents
  {
    var row := items[k];
    var bumped := row.(refundedQuantity := row.refundedQuantity + 1);
    SumUpdate(items, Due(row.orderId), k, bumped);
    OneUnitLess(row.unitPriceInCents, row.quantity - row.refundedQuantity);
    assert bumped.quantity - bumped.refundedQuantity == row.quantity - row.refundedQuantity - 1;
  }

  lemma OneUnitLess(price: int, open: int)
    ensures price * (open - 1) == price * open - price
  {
  }

  lemma BumpKeepsRefundable(items: map<Id, OrderItem>, k: Id)
    requires k in items && Refundable(items)
    requires items[k].refundedQuantity != items[k].quantity
    ensures Refundable(Bump(items, k)) && OnlyRefunds(items, Bump(items, k), items[k].orderId)
  {
  }

  lemma OnlyRefundsTransitive(a: map<Id, OrderItem>, b: map<Id, OrderItem>, c: map<Id, OrderItem>, orderId: Id)
    requires OnlyRefunds(a, b, orderId) && OnlyRefunds(b, c, orderId)
    ensures OnlyRefunds(a, c, orderId)
  {
    forall k | k in a ensures k in c && c[k] == a[k].(refundedQuantity := c[k].refundedQuantity) {
      assert b[k] == a[k].(refundedQuantity := b[k].refundedQuantity);
      assert c[k] == b[k].(refundedQuantity := c[k].refundedQuantity);
    }
    assert c.Keys == a.Keys;
    forall k | k in a
      ensures a[k].refundedQuantity <= c[k].refundedQuantity && (a[k].orderId != orderId ==> c[k] == a[k])
      ensures a[k].refundedQuantity <= a[k].quantity ==> c[k].refundedQuantity <= c[k].quantity
    {
      assert b[k] == a[k].(refundedQuantity := b[k].refundedQuantity);
      assert a[k].refundedQuantity <= b[k].refundedQuantity <= c[k].refundedQuantity;
    }
  }

  /** Adding two truncated amounts and truncating again loses nothing but multiples of 2^32. */
  lemma TruncatedSum(a: int, b: int)
    ensures ToU32(ToU32(a) + b) == ToU32(a + b)
  {
    var q := a / U32_SIZE;
    assert ToU32(a) + b == (a + b) - q * U32_SIZE;
    TruncationIgnoresMultiples(a + b, q);
  }

  lemma TruncationIgnoresMultiples(x: int, q: int)
    ensures ToU32(x - q * U32_SIZE) == ToU32(x)
  {
    var d, m := x / U32_SIZE, x % U32_SIZE;
    assert x - q * U32_SIZE == (d - q) * U32_SIZE + m;
  }

  /** Refunding a unit of `k` and one of its fee: a legal refund, lowering the total by both prices. */
  lemma BumpBothIsARefund(items: map<Id, OrderItem>, k: Id, fee: Option<Id>)
    requires k in items && Refundable(items)
    requires fee.Some? ==>
      && fee.value in items && IsFeeOf(items[fee.value], k)
      && items[fee.value].refundedQuantity != items[fee.value].quantity
    requires items[k].refundedQuantity != items[k].quantity
    ensures Refundable(BumpBoth(items, k, fee)) && OnlyRefunds(items, BumpBoth(items, k, fee), items[k].orderId)
    ensures OrderTotal(items, items[k].orderId) - OrderTotal(BumpBoth(items, k, fee), items[k].orderId)
         == UnitPrices(items, k, fee)
  {
    if fee.Some? {
      var mid := Bump(items, fee.value);
      BumpKeepsRefundable(items, fee.value);
      BumpLowersTheTotal(items, fee.value);
      assert mid[k] == items[k];
      BumpKeepsRefundable(mid, k);
      BumpLowersTheTotal(mid, k);
      OnlyRefundsTransitive(items, mid, Bump(mid, k), items[k].orderId);
    } else {
      BumpKeepsRefundable(items, k);
      BumpLowersTheTotal(items, k);
    }
  }

  /**
    Refunds one unit, and with `refundFees` one unit of the fee charged for a ticket.
    `fee` is the fee row charged back, or the one there would have been to charge back: `find_fee_item` takes the first it finds.
   */
  method RefundOneUnit(conn: Connection, self: OrderItem, refundFees: bool)
    returns (r: Result<u32>, ghost fee: Option<Id>)
    requires Refundable(conn.orderItems)
    requires self.id in conn.orderItems && conn.orderItems[self.id] == self
    modifies conn`orderItems
    ensures LooksUp(old(conn.orderItems), self, refundFees, fee)
    ensures r.Ok? <==>
      && OrderTakesRefunds(conn.orders, self.orderId)
      && self.refundedQuantity != self.quantity
      && (fee.Some? ==> old(conn.orderItems)[fee.value].refundedQuantity != old(conn.orderItems)[fee.value].quantity)
    ensures r.Ok? ==> conn.orderItems == BumpBoth(old(conn.orderItems), self.id, fee)
    ensures r.Ok? ==> r.value == ToU32(UnitPrices(old(conn.orderItems), self.id, fee))
    decreases self.itemType == Tickets
  {
    fee := LookedUp(conn.orderItems, self, refundFees);
    if self.orderId !in conn.orders {
      return Err(QueryError), fee;
    }
    if conn.orders[self.orderId].status != Paid && conn.orders[self.orderId].status != PartiallyPaid {
      return Err(BusinessProcessError), fee;
    } else if self.refundedQuantity == self.quantity {
      return Err(BusinessProcessError), fee;
    }

    var refundAmount := self.unitPriceInCents;
    if refundFees && self.itemType == Tickets {
      if f :| f in conn.orderItems && IsFeeOf(conn.orderItems[f], self.id) {
        fee := Some(f);
        var feeRefund, _ := RefundOneUnit(conn, conn.orderItems[f], true);
        if feeRefund.Err? {
          return Err(feeRefund.error), fee;
        }
        refundAmount := refundAmount + feeRefund.value;
      }
    }

    TruncatedSum(refundAmount - self.unitPriceInCents, self.unitPriceInCents);
    conn.orderItems := conn.orderItems[self.id := self.(refundedQuantity := self.refundedQuantity + 1)];
    return Ok(ToU32(refundAmount)), fee;
  }
}
