/** `Order::refund` and the refunded_tickets table (db/src/models/orders.rs, refunded_tickets.rs). */
module OrderRefunds {
  import opened Schema
  import opened OrderItems
  import opened RefundUnits
  import opened TicketInstances

  datatype RefundItem = RefundItem(orderItemId: Id, ticketInstanceId: Option<Id>)

  // ------------------------------------------------------------ refunded_tickets

  /** The oldest record of a ticket, which is the one the lookup returns. */
  function Oldest(rows: seq<RefundedTicket>, ticketId: Id): (r: Option<Id>)
    ensures r.Some? ==>
      && r.value < |rows| && rows[r.value].ticketInstanceId == ticketId
      && forall j: Id :: j < r.value ==> rows[j].ticketInstanceId != ticketId
    ensures r.None? ==> forall j: Id :: j < |rows| ==> rows[j].ticketInstanceId != ticketId
  {
    if rows == [] then None
    else
      var earlier := Oldest(rows[..|rows| - 1], ticketId);
      if earlier.Some? then earlier
      else if rows[|rows| - 1].ticketInstanceId == ticketId then Some(|rows| - 1)
      else None
  }

  /** The insert happens whether or not a record was found: `unwrap_or` evaluates its argument. */
  function Registered(rows: seq<RefundedTicket>, ticketId: Id, itemId: Id): (r: seq<RefundedTicket>)
    ensures Oldest(r, ticketId).Some?
  {
    rows + [RefundedTicket(itemId, ticketId, None, None)]
  }

  method FindOldest(rows: seq<RefundedTicket>, ticketId: Id) returns (r: Option<Id>)
    ensures r == Oldest(rows, ticketId)
  {
    var i := 0;
    while i < |rows|
      invariant i <= |rows|
      invariant forall j: Id :: j < i ==> rows[j].ticketInstanceId != ticketId
    {
      if rows[i].ticketInstanceId == ticketId {
        return Some(i);
      }
      i := i + 1;
    }
    return None;
  }

  method FindOrCreateByTicketInstance(conn: Connection, ticketId: Id, ticket: Ticket) returns (r: Result<Id>)
    modifies conn`refundedTickets
    ensures r.Ok? <==> ticket.orderItemId.Some?
    ensures r.Ok? ==>
      && conn.refundedTickets == Registered(old(conn.refundedTickets), ticketId, ticket.orderItemId.value)
      && Oldest(conn.refundedTickets, ticketId) == Some(r.value)
    ensures r.Err? ==> unchanged(conn)
  {
    if ticket.orderItemId.None? {
      return Err(BusinessProcessError);
    }
    var found := FindOldest(conn.refundedTickets, ticketId);
    conn.refundedTickets := conn.refundedTickets + [RefundedTicket(ticket.orderItemId.value, ticketId, None, None)];
    if found.Some? {
      return Ok(found.value);
    }
    return Ok(|conn.refundedTickets| - 1);
  }

  function Marked(row: RefundedTicket, justFee: bool, now: Time): (r: RefundedTicket) {
    row.(
      ticketRefundedAt := if !justFee && row.ticketRefundedAt.None? then Some(now) else row.ticketRefundedAt,
      feeRefundedAt := if row.feeRefundedAt.None? then Some(now) else row.feeRefundedAt)
  }

  method MarkRefunded(conn: Connection, recordId: Id, justFee: bool)
    requires recordId < |conn.refundedTickets|
    modifies conn`refundedTickets
    ensures conn.refundedTickets == old(conn.refundedTickets)[recordId :=
      Marked(old(conn.refundedTickets)[recordId], justFee, conn.now)]
  {
    var row := conn.refundedTickets[recordId];
    if !justFee && row.ticketRefundedAt.None? {
      row := row.(ticketRefundedAt := Some(conn.now));
    }
    if row.feeRefundedAt.None? {
      row := row.(feeRefundedAt := Some(conn.now));
    }
    conn.refundedTickets := conn.refundedTickets[recordId := row];
  }

  /** The records after refunding `ticketId`, linked to `itemId` at the time. */
  function Recorded(rows: seq<RefundedTicket>, ticketId: Id, itemId: Id, justFee: bool, now: Time): (r: seq<RefundedTicket>)
  {
    var registered := Registered(rows, ticketId, itemId);
    var j := Oldest(registered, ticketId).value;
    registered[j := Marked(registered[j], justFee, now)]
  }

  // ------------------------------------------------------------ one line of a request

  /** `was_transferred`: the owner of the wallet is not the buyer. An organization's wallet has no owner to compare. */
  function WasTransferred(t: Ticket, items: map<Id, OrderItem>, orders: map<Id, Order>, wallets: map<Id, Option<Id>>)
    : (r: Result<bool>)
  {
    if t.walletId !in wallets then Err(QueryError)
    else if t.orderItemId.None? || t.orderItemId.value !in items then Ok(true)
    else
      var orderId := items[t.orderItemId.value].orderId;
      if wallets[t.walletId].None? || orderId !in orders then Err(QueryError)
      else Ok(orders[orderId].userId != wallets[t.walletId].value)
  }

  predicate TicketRelated(item: OrderItem) {
    item.itemType == Tickets || item.itemType == PerUnitFees
  }

  /** Whether refunding `item` through this record is refused as a second refund. */
  predicate AlreadyRefunded(row: RefundedTicket, item: OrderItem) {
    row.ticketRefundedAt.Some? || (row.feeRefundedAt.Some? && item.itemType == PerUnitFees)
  }

  /** The ticket is in a wallet of the user whose order it was sold to. */
  predicate BuyerHasIt(t: Ticket, items: map<Id, OrderItem>, orders: map<Id, Order>, wallets: map<Id, Option<Id>>) {
    && t.orderItemId.Some? && t.orderItemId.value in items && items[t.orderItemId.value].orderId in orders
    && t.walletId in wallets && wallets[t.walletId] == Some(orders[items[t.orderItemId.value].orderId].userId)
  }

  /** What has been freed was in wallets of its buyers. */
  ghost predicate FreedByBuyers(before: seq<Ticket>, after: seq<Ticket>, items: map<Id, OrderItem>, orders: map<Id, Order>,
                                wallets: map<Id, Option<Id>>) {
    && |after| == |before|
    && forall i: Id {:trigger after[i]} {:trigger before[i]} :: i < |after| && before[i].orderItemId.Some? && after[i].orderItemId.None? ==>
       BuyerHasIt(before[i], items, orders, wallets)
  }

  /** What is still linked is as it was. */
  ghost predicate LinkedAreSame(before: seq<Ticket>, after: seq<Ticket>) {
    && |after| == |before|
    && forall i: Id {:trigger after[i]} {:trigger before[i]} :: i < |after| && after[i].orderItemId.Some? ==> after[i] == before[i]
  }

  lemma FreedByBuyersTwice(a: seq<Ticket>, b: seq<Ticket>, c: seq<Ticket>, items: map<Id, OrderItem>, items': map<Id, OrderItem>, orderId: Id,
                           orders: map<Id, Order>, wallets: map<Id, Option<Id>>)
    requires FreedByBuyers(a, b, items, orders, wallets) && LinkedAreSame(a, b) && OnlyRefunds(items, items', orderId)
    requires FreedByBuyers(b, c, items', orders, wallets) && LinkedAreSame(b, c)
    ensures FreedByBuyers(a, c, items, orders, wallets) && LinkedAreSame(a, c)
  {
    forall i: Id | i < |c| && a[i].orderItemId.Some? && c[i].orderItemId.None? ensures BuyerHasIt(a[i], items, orders, wallets) {
      if b[i].orderItemId.Some? {
        assert BuyerHasIt(b[i], items', orders, wallets);
        assert items'[b[i].orderItemId.value] == items[b[i].orderItemId.value].(refundedQuantity := items'[b[i].orderItemId.value].refundedQuantity);
      }
    }
  }

  lemma NothingFreedYet(tickets: seq<Ticket>, items: map<Id, OrderItem>, orders: map<Id, Order>, wallets: map<Id, Option<Id>>)
    ensures FreedByBuyers(tickets, tickets, items, orders, wallets) && LinkedAreSame(tickets, tickets)
  {
  }

  /** The ticket has been sold and can be given back by its buyer, through a record that says it has not been refunded yet. */
  ghost predicate CanGiveBack(conn: Connection, items: map<Id, OrderItem>, tickets: seq<Ticket>, records: seq<RefundedTicket>,
                              item: OrderItem, ticketId: Id)
    reads conn`orders, conn`lockedRows
  {
    && ticketId < |tickets|
    && var ticket := tickets[ticketId];
    && ticket.orderItemId.Some?
    && (ticket.status == Redeemed || (ticket.status == Purchased && ticketId !in conn.lockedRows))
    && WasTransferred(ticket, items, conn.orders, conn.wallets) == Ok(false)
    && var registered := Registered(records, ticketId, ticket.orderItemId.value);
    !AlreadyRefunded(registered[Oldest(registered, ticketId).value], item)
  }

  /** The record part, the ticket part and the transfer check of one ticket-related line. */
  method RefundTicket(conn: Connection, item: OrderItem, ticketId: Id) returns (r: Result<bool>)
    modifies conn`refundedTickets, conn`tickets, conn`history
    ensures r.Ok? <==> CanGiveBack(conn, conn.orderItems, old(conn.tickets), old(conn.refundedTickets), item, ticketId)
    ensures r.Ok? ==>
      && ticketId < |old(conn.tickets)|
      && var ticket := old(conn.tickets)[ticketId];
      && ticket.orderItemId.Some?
      && ticket.status in {Purchased, Redeemed}
      && BuyerHasIt(ticket, conn.orderItems, conn.orders, conn.wallets)
      && (var registered := Registered(old(conn.refundedTickets), ticketId, ticket.orderItemId.value);
          var record := registered[Oldest(registered, ticketId).value];
          !AlreadyRefunded(record, item) && r.value == record.feeRefundedAt.None?)
      && conn.refundedTickets
         == Recorded(old(conn.refundedTickets), ticketId, ticket.orderItemId.value, item.itemType == PerUnitFees, conn.now)
      && conn.tickets == old(conn.tickets)[ticketId :=
           if ticket.status == Redeemed then ticket else ReleaseRow(conn.now)(ticket)]
      && conn.history == if ticket.status == Redeemed then old(conn.history)
                         else old(conn.history).(lost := old(conn.history.lost) + {(ticket.orderItemId.value, ticketId)})
  {
    if ticketId >= |conn.tickets| {
      return Err(QueryError);
    }
    var ticket := conn.tickets[ticketId];
    var recordId :- FindOrCreateByTicketInstance(conn, ticketId, ticket);
    var record := conn.refundedTickets[recordId];
    if AlreadyRefunded(record, item) {
      return Err(BusinessProcessError);
    }
    var transferred :- WasTransferred(ticket, conn.orderItems, conn.orders, conn.wallets);
    if transferred {
      return Err(BusinessProcessError);
    }
    MarkRefunded(conn, recordId, item.itemType == PerUnitFees);
    if ticket.status != Redeemed {
      var _ :- Release(conn, ticketId, ticket);
    }
    return Ok(record.feeRefundedAt.None?);
  }

  /** The three tables a refund writes. */
  datatype RefundState = RefundState(items: map<Id, OrderItem>, tickets: seq<Ticket>, records: seq<RefundedTicket>)

  function StateOf(conn: Connection): (s: RefundState)
    reads conn
  {
    RefundState(conn.orderItems, conn.tickets, conn.refundedTickets)
  }

  /** `fee` is a fee row of `k` that still has a unit to refund, if it is anything. */
  ghost predicate ChargesBack(items: map<Id, OrderItem>, k: Id, fee: Option<Id>) {
    fee.Some? ==>
      && fee.value in items && IsFeeOf(items[fee.value], k)
      && items[fee.value].refundedQuantity != items[fee.value].quantity
  }

  /** The record through which a refund of `ticketId` goes. */
  function RecordFor(s: RefundState, ticketId: Id): (r: RefundedTicket)
    requires ticketId < |s.tickets| && s.tickets[ticketId].orderItemId.Some?
  {
    var registered := Registered(s.records, ticketId, s.tickets[ticketId].orderItemId.value);
    registered[Oldest(registered, ticketId).value]
  }

  /** What one line of a refund request does to a ticket and its record. */
  ghost predicate TicketStep(s: RefundState, after: RefundState, item: OrderItem, ticketId: Id, fee: Option<Id>, now: Time) {
    && ticketId < |s.tickets|
    && var ticket := s.tickets[ticketId];
    && ticket.orderItemId.Some?
    && ticket.status in {Purchased, Redeemed}
    && !AlreadyRefunded(RecordFor(s, ticketId), item)
    && (fee.Some? <==> RecordFor(s, ticketId).feeRefundedAt.None? && item.itemType == Tickets && HasFee(s.items, item.id))
    && after.tickets == s.tickets[ticketId := if ticket.status == Redeemed then ticket else ReleaseRow(now)(ticket)]
    && after.records == Recorded(s.records, ticketId, ticket.orderItemId.value, item.itemType == PerUnitFees, now)
  }

  /** What one line of a successful refund request does. */
  ghost predicate LineStep(s: RefundState, after: RefundState, line: RefundItem, fee: Option<Id>, orderId: Id, now: Time) {
    && line.orderItemId in s.items
    && var item := s.items[line.orderItemId];
    && item.id == line.orderItemId
    && item.orderId == orderId
    && item.refundedQuantity != item.quantity
    && ChargesBack(s.items, item.id, fee)
    && after.items == BumpBoth(s.items, item.id, fee)
    && if TicketRelated(item)
       then line.ticketInstanceId.Some? && TicketStep(s, after, item, line.ticketInstanceId.value, fee, now)
       else fee.None? && after.tickets == s.tickets && after.records == s.records
  }

  /** The record of the line's ticket does not say that its fee has been refunded. */
  ghost predicate FeesDue(s: RefundState, item: OrderItem, line: RefundItem) {
    TicketRelated(item) ==>
      && line.ticketInstanceId.Some? && line.ticketInstanceId.value < |s.tickets|
      && s.tickets[line.ticketInstanceId.value].orderItemId.Some?
      && RecordFor(s, line.ticketInstanceId.value).feeRefundedAt.None?
  }

  /** `fee` is the fee row to refund with the line's item, if there is one. */
  ghost predicate LooksUpFee(s: RefundState, line: RefundItem, fee: Option<Id>) {
    line.orderItemId in s.items ==>
      LooksUp(s.items, s.items[line.orderItemId], FeesDue(s, s.items[line.orderItemId], line), fee)
  }

  ghost function FeeLookedUp(s: RefundState, line: RefundItem): (fee: Option<Id>)
    ensures LooksUpFee(s, line, fee)
  {
    if line.orderItemId in s.items
    then LookedUp(s.items, s.items[line.orderItemId], FeesDue(s, s.items[line.orderItemId], line))
    else None
  }

  /** One unit of the line's item can be refunded, and one of `fee`, with the ticket the line names. */
  ghost predicate CanRefundLine(conn: Connection, s: RefundState, orderId: Id, line: RefundItem, fee: Option<Id>)
    reads conn`orders, conn`lockedRows
  {
    && line.orderItemId in s.items && s.items[line.orderItemId].orderId == orderId
    && (line.ticketInstanceId.Some? ==> line.ticketInstanceId.value < |s.tickets|)
    && var item := s.items[line.orderItemId];
    && (TicketRelated(item) ==>
          line.ticketInstanceId.Some? && CanGiveBack(conn, s.items, s.tickets, s.records, item, line.ticketInstanceId.value))
    && OrderTakesRefunds(conn.orders, orderId)
    && item.refundedQuantity != item.quantity
    && (fee.Some? ==> fee.value in s.items && s.items[fee.value].refundedQuantity != s.items[fee.value].quantity)
  }

  method RefundLine(conn: Connection, self: Order, line: RefundItem) returns (r: Result<u32>, ghost fee: Option<Id>)
    requires Refundable(conn.orderItems)
    modifies conn`orderItems, conn`refundedTickets, conn`tickets, conn`history
    ensures LooksUpFee(old(StateOf(conn)), line, fee)
    ensures r.Ok? <==> CanRefundLine(conn, old(StateOf(conn)), self.id, line, fee)
    ensures r.Ok? ==>
      && LineStep(old(StateOf(conn)), StateOf(conn), line, fee, self.id, conn.now)
      && OrderTakesRefunds(conn.orders, self.id)
      && r.value == ToU32(UnitPrices(old(conn.orderItems), line.orderItemId, fee))
      && TakesBack(old(conn.tickets), conn.tickets, old(conn.history), conn.history)
      && FreedByBuyers(old(conn.tickets), conn.tickets, old(conn.orderItems), conn.orders, conn.wallets)
      && LinkedAreSame(old(conn.tickets), conn.tickets)
  {
    hide WasTransferred, BuyerHasIt, Oldest, UnitPrices, AlreadyRefunded, IsFeeOf, LookedUp, CanGiveBack, OrderTakesRefunds;
    fee := FeeLookedUp(StateOf(conn), line);
    if line.orderItemId !in conn.orderItems {
      return Err(QueryError), fee;
    }
    var item := conn.orderItems[line.orderItemId];
    if item.orderId != self.id {
      return Err(BusinessProcessError), fee;
    }
    if line.ticketInstanceId.Some? && line.ticketInstanceId.value >= |conn.tickets| {
      return Err(QueryError), fee;
    }
    var refundFees := true;
    if TicketRelated(item) {
      if line.ticketInstanceId.None? {
        return Err(BusinessProcessError), fee;
      }
      var feeOpen := RefundTicket(conn, item, line.ticketInstanceId.value);
      if feeOpen.Err? {
        return Err(feeOpen.error), fee;
      }
      refundFees := feeOpen.value;
    }
    r, fee := RefundOneUnit(conn, item, refundFees);
  }

  /** What is asked of a line besides its ticket's being in a wallet of the buyer. */
  ghost predicate CanRefundOtherwise(conn: Connection, s: RefundState, orderId: Id, line: RefundItem, fee: Option<Id>)
    reads conn`orders, conn`lockedRows
  {
    && line.orderItemId in s.items && s.items[line.orderItemId].orderId == orderId
    && (line.ticketInstanceId.Some? ==> line.ticketInstanceId.value < |s.tickets|)
    && var item := s.items[line.orderItemId];
    && OrderTakesRefunds(conn.orders, orderId) && item.refundedQuantity != item.quantity
    && (fee.Some? ==> fee.value in s.items && s.items[fee.value].refundedQuantity != s.items[fee.value].quantity)
    && (item.itemType in {Tickets, PerUnitFees} ==>
          && line.ticketInstanceId.Some?
          && var ticketId := line.ticketInstanceId.value;
          && var ticket := s.tickets[ticketId];
          && (ticket.status == Redeemed || (ticket.status == Purchased && ticketId !in conn.lockedRows))
          && (ticket.orderItemId.Some? ==>
                var record := RecordFor(s, ticketId);
                && record.ticketRefundedAt.None?
                && (item.itemType == PerUnitFees ==> record.feeRefundedAt.None?)))
  }

  /** A line can be refunded exactly if that holds and its ticket is still with the buyer. */
  lemma OnlyBuyersAreRefunded(conn: Connection, s: RefundState, orderId: Id, line: RefundItem, fee: Option<Id>)
    ensures CanRefundLine(conn, s, orderId, line, fee) <==>
      && CanRefundOtherwise(conn, s, orderId, line, fee)
      && (s.items[line.orderItemId].itemType in {Tickets, PerUnitFees} ==>
            BuyerHasIt(s.tickets[line.ticketInstanceId.value], s.items, conn.orders, conn.wallets))
  {
    hide Oldest;
  }

  lemma LineStepIsARefund(s: RefundState, after: RefundState, line: RefundItem, fee: Option<Id>, orderId: Id, now: Time)
    requires Refundable(s.items)
    requires LineStep(s, after, line, fee, orderId, now)
    ensures Refundable(after.items) && OnlyRefunds(s.items, after.items, orderId)
    ensures OrderTotal(s.items, orderId) - OrderTotal(after.items, orderId) == UnitPrices(s.items, line.orderItemId, fee)
  {
    BumpBothIsARefund(s.items, line.orderItemId, fee);
  }

  // ------------------------------------------------------------ event fees

  predicate Open(item: OrderItem) {
    item.refundedQuantity != item.quantity
  }

  /** An item other than an event fee that keeps the event fees of `eventId` alive. */
  predicate KeepsEventFee(item: OrderItem, orderId: Id, eventId: Option<Id>) {
    item.orderId == orderId && item.itemType != EventFees && eventId.Some? && item.eventId == eventId && Open(item)
  }

  /** `event_fee_items_with_no_associated_items` */
  function Sweepable(items: map<Id, OrderItem>, orderId: Id): (ids: set<Id>) {
    set e | e in items && items[e].orderId == orderId && items[e].itemType == EventFees && Open(items[e])
            && forall j :: j in items ==> !KeepsEventFee(items[j], orderId, items[e].eventId)
  }

  ghost function BumpAll(items: map<Id, OrderItem>, ids: set<Id>): (r: map<Id, OrderItem>) {
    map k | k in items :: if k in ids then items[k].(refundedQuantity := items[k].refundedQuantity + 1) else items[k]
  }

  method SweepEventFees(conn: Connection, self: Order, soFar: u32) returns (r: Result<u32>)
    requires Refundable(conn.orderItems)
    modifies conn`orderItems
    ensures r.Ok? <==> Sweepable(old(conn.orderItems), self.id) == {} || OrderTakesRefunds(conn.orders, self.id)
    ensures forall e :: e in Sweepable(old(conn.orderItems), self.id) <==>
      && e in old(conn.orderItems)
      && var fee := old(conn.orderItems)[e];
      && fee.orderId == self.id && fee.itemType == EventFees && fee.refundedQuantity != fee.quantity
      && forall j :: j in old(conn.orderItems) && old(conn.orderItems)[j].orderId == self.id ==>
           || old(conn.orderItems)[j].itemType == EventFees || fee.eventId.None? || old(conn.orderItems)[j].eventId != fee.eventId
           || old(conn.orderItems)[j].refundedQuantity == old(conn.orderItems)[j].quantity
    ensures r.Ok? ==>
      && conn.orderItems == BumpAll(old(conn.orderItems), Sweepable(old(conn.orderItems), self.id))
      && Refundable(conn.orderItems)
      && OnlyRefunds(old(conn.orderItems), conn.orderItems, self.id)
      && r.value == ToU32(soFar + OrderTotal(old(conn.orderItems), self.id) - OrderTotal(conn.orderItems, self.id))
  {
    hide OnlyRefunds, Refundable, OrderTotal, ToU32, Sweepable, BumpAll;
    var loaded := conn.orderItems;
    var left := Sweepable(loaded, self.id);
    var total: int := soFar;
    ghost var due, swept := left, {};
    NothingRefundedYet(loaded, self.id);
    U32IsUntouched(soFar);
    SweepableRows(loaded, self.id);
    while left != {}
      invariant swept <= due && left == due - swept && (swept != {} ==> OrderTakesRefunds(conn.orders, self.id))
      invariant conn.orderItems == BumpAll(loaded, swept)
      invariant Refundable(conn.orderItems) && OnlyRefunds(loaded, conn.orderItems, self.id)
      invariant total == ToU32(soFar + OrderTotal(loaded, self.id) - OrderTotal(conn.orderItems, self.id))
      decreases left
    {
      var e :| e in left;
      ghost var items := conn.orderItems;
      var refund := SweepOne(conn, e, loaded[e], loaded, swept);
      if refund.Err? {
        return refund;
      }
      AccumulatedRefund(soFar + OrderTotal(loaded, self.id) - OrderTotal(items, self.id),
                        OrderTotal(items, self.id) - OrderTotal(conn.orderItems, self.id));
      total := ToU32(total + refund.value);
      left, swept := left - {e}, swept + {e};
    }
    assert swept == due;
    return Ok(total);
  }

  /** One round of the sweep; `row` was loaded before the first. */
  method SweepOne(conn: Connection, e: Id, row: OrderItem, ghost loaded: map<Id, OrderItem>, ghost swept: set<Id>)
    returns (r: Result<u32>)
    requires Refundable(conn.orderItems) && OnlyRefunds(loaded, conn.orderItems, row.orderId)
    requires conn.orderItems == BumpAll(loaded, swept)
    requires e in loaded && e !in swept && loaded[e] == row && row.itemType == EventFees && Open(row)
    modifies conn`orderItems
    ensures r.Ok? <==> OrderTakesRefunds(conn.orders, row.orderId)
    ensures r.Ok? ==>
      && conn.orderItems == BumpAll(loaded, swept + {e})
      && Refundable(conn.orderItems) && OnlyRefunds(loaded, conn.orderItems, row.orderId)
      && r.value == ToU32(OrderTotal(old(conn.orderItems), row.orderId) - OrderTotal(conn.orderItems, row.orderId))
  {
    SweepStep(loaded, conn.orderItems, e, swept, row.orderId);
    assert conn.orderItems[e] == row;
    hide OnlyRefunds, OrderTotal, HasFee;
    ghost var fee;
    r, fee := RefundOneUnit(conn, row, true);
  }

  lemma SweepableRows(items: map<Id, OrderItem>, orderId: Id)
    ensures forall e :: e in Sweepable(items, orderId) <==>
      && e in items
      && var fee := items[e];
      && fee.orderId == orderId && fee.itemType == EventFees && fee.refundedQuantity != fee.quantity
      && forall j :: j in items && items[j].orderId == orderId ==>
           || items[j].itemType == EventFees || fee.eventId.None? || items[j].eventId != fee.eventId
           || items[j].refundedQuantity == items[j].quantity
  {
  }

  lemma U32IsUntouched(x: u32)
    ensures ToU32(x) == x
  {
  }

  lemma NothingRefundedYet(items: map<Id, OrderItem>, orderId: Id)
    ensures OnlyRefunds(items, items, orderId)
    ensures items == BumpAll(items, {})
  {
  }

  /** Truncating both summands before truncating the sum changes nothing. */
  lemma AccumulatedRefund(a: int, b: int)
    ensures ToU32(ToU32(a) + ToU32(b)) == ToU32(a + b)
  {
    TruncatedSum(a, ToU32(b));
    TruncatedSum(b, a);
  }

  lemma SweepStep(loaded: map<Id, OrderItem>, items: map<Id, OrderItem>, e: Id, swept: set<Id>, orderId: Id)
    requires e in loaded && e !in swept && loaded[e].orderId == orderId && Open(loaded[e])
    requires items == BumpAll(loaded, swept)
    requires Refundable(items) && OnlyRefunds(loaded, items, orderId)
    ensures BumpBoth(items, e, None) == BumpAll(loaded, swept + {e})
    ensures Refundable(BumpBoth(items, e, None)) && OnlyRefunds(loaded, BumpBoth(items, e, None), orderId)
    ensures OrderTotal(items, orderId) - OrderTotal(BumpBoth(items, e, None), orderId) == loaded[e].unitPriceInCents
  {
    hide OnlyRefunds, Refundable, OrderTotal;
    assert items[e] == loaded[e];
    BumpBothIsARefund(items, e, None);
    OnlyRefundsTransitive(loaded, items, BumpBoth(items, e, None), orderId);
  }

  // ------------------------------------------------------------ the whole request

  /** A run of the lines of a request, one state before each line and one after the last. */
  ghost predicate IsRun(trace: seq<RefundState>, lines: seq<RefundItem>, fees: seq<Option<Id>>, orderId: Id, now: Time) {
    && |trace| == |lines| + 1 && |fees| == |lines|
    && forall i: nat {:trigger lines[i]} :: i < |lines| ==>
       LineStep(trace[i], trace[i + 1], lines[i], fees[i], orderId, now)
  }

  /** What a successful refund did: the lines one after the other, and then the event fee sweep. */
  ghost predicate IsRefund(trace: seq<RefundState>, lines: seq<RefundItem>, fees: seq<Option<Id>>, after: RefundState,
                           orderId: Id, now: Time) {
    && IsRun(trace, lines, fees, orderId, now)
    && var last := trace[|lines|];
    && after == last.(items := BumpAll(last.items, Sweepable(last.items, orderId)))
  }

  /** Every line could be refunded in the state the lines before it left. */
  ghost predicate AllRefundable(conn: Connection, trace: seq<RefundState>, lines: seq<RefundItem>, fees: seq<Option<Id>>, orderId: Id)
    requires |trace| == |lines| + 1 && |fees| == |lines|
    reads conn`orders, conn`lockedRows
  {
    forall i: nat {:trigger lines[i]} :: i < |lines| ==> CanRefundLine(conn, trace[i], orderId, lines[i], fees[i])
  }

  lemma RunExtends(conn: Connection, trace: seq<RefundState>, lines: seq<RefundItem>, fees: seq<Option<Id>>, after: RefundState,
                   line: RefundItem, fee: Option<Id>, orderId: Id, now: Time)
    requires IsRun(trace, lines, fees, orderId, now) && AllRefundable(conn, trace, lines, fees, orderId)
    requires LineStep(trace[|lines|], after, line, fee, orderId, now) && CanRefundLine(conn, trace[|lines|], orderId, line, fee)
    ensures IsRun(trace + [after], lines + [line], fees + [fee], orderId, now)
    ensures AllRefundable(conn, trace + [after], lines + [line], fees + [fee], orderId)
  {
    hide LineStep, CanRefundLine;
  }

  ghost predicate CanSweep(conn: Connection, last: RefundState, orderId: Id)
    reads conn`orders
  {
    Sweepable(last.items, orderId) == {} || OrderTakesRefunds(conn.orders, orderId)
  }

  /** The lines can be refunded one after the other, and then the event fees with nothing left to go with. */
  ghost predicate CanRefund(conn: Connection, start: RefundState, trace: seq<RefundState>, lines: seq<RefundItem>,
                            fees: seq<Option<Id>>, orderId: Id, now: Time)
    reads conn`orders, conn`lockedRows
  {
    && IsRun(trace, lines, fees, orderId, now) && trace[0] == start
    && AllRefundable(conn, trace, lines, fees, orderId) && CanSweep(conn, trace[|lines|], orderId)
  }

  /** The lines were refunded up to one that cannot be, `last` being the fee row to go with it; or all were, and the sweep failed. */
  ghost predicate Refused(conn: Connection, start: RefundState, trace: seq<RefundState>, lines: seq<RefundItem>,
                          fees: seq<Option<Id>>, last: Option<Id>, orderId: Id, now: Time)
    reads conn`orders, conn`lockedRows
  {
    && 0 < |trace| <= |lines| + 1
    && var n := |trace| - 1;
    && IsRun(trace, lines[..n], fees, orderId, now) && trace[0] == start
    && if n == |lines| then !CanSweep(conn, trace[n], orderId)
       else LooksUpFee(trace[n], lines[n], last) && !CanRefundLine(conn, trace[n], orderId, lines[n], last)
  }

  /** With one fee row per item at most, there is only one way for a line to go. */
  lemma OneWayForALine(s: RefundState, a: RefundState, b: RefundState, line: RefundItem, f: Option<Id>, g: Option<Id>, orderId: Id, now: Time)
    requires OneFeeEach(s.items) && LineStep(s, a, line, f, orderId, now) && LineStep(s, b, line, g, orderId, now)
    ensures a == b && f == g
  {
    hide Oldest, AlreadyRefunded;
  }

  lemma LineLooksUp(s: RefundState, after: RefundState, line: RefundItem, f: Option<Id>, last: Option<Id>, orderId: Id, now: Time)
    requires OneFeeEach(s.items) && LineStep(s, after, line, f, orderId, now) && LooksUpFee(s, line, last)
    ensures f == last
  {
    hide Oldest, AlreadyRefunded;
  }

  lemma LineKeepsOneFeeEach(s: RefundState, after: RefundState, line: RefundItem, fee: Option<Id>, orderId: Id, now: Time)
    requires OneFeeEach(s.items) && LineStep(s, after, line, fee, orderId, now)
    ensures OneFeeEach(after.items)
  {
    hide Oldest, TicketStep;
    assert forall k :: k in after.items <==> k in s.items;
    forall f, g, k | f in after.items && g in after.items && IsFeeOf(after.items[f], k) && IsFeeOf(after.items[g], k) ensures f == g {
      assert IsFeeOf(s.items[f], k) && IsFeeOf(s.items[g], k);
    }
  }

  lemma {:induction false} OneWayForARun(trace: seq<RefundState>, trace': seq<RefundState>, lines: seq<RefundItem>, lines': seq<RefundItem>,
                                         fees: seq<Option<Id>>, fees': seq<Option<Id>>, orderId: Id, now: Time, n: nat)
    requires IsRun(trace, lines, fees, orderId, now) && IsRun(trace', lines', fees', orderId, now)
    requires lines <= lines' && n <= |lines| && trace[0] == trace'[0] && OneFeeEach(trace[0].items)
    ensures trace[n] == trace'[n] && OneFeeEach(trace[n].items)
  {
    hide LineStep, OneFeeEach;
    if n > 0 {
      OneWayForARun(trace, trace', lines, lines', fees, fees', orderId, now, n - 1);
      assert lines[n - 1] == lines'[n - 1];
      OneWayForALine(trace[n - 1], trace[n], trace'[n], lines[n - 1], fees[n - 1], fees'[n - 1], orderId, now);
      LineKeepsOneFeeEach(trace[n - 1], trace[n], lines[n - 1], fees[n - 1], orderId, now);
    }
  }

  /** A request that was refused could not have gone through another way. */
  lemma RefusedCannotBeRefunded(conn: Connection, start: RefundState, trace: seq<RefundState>, fees: seq<Option<Id>>, last: Option<Id>,
                                trace': seq<RefundState>, fees': seq<Option<Id>>, lines: seq<RefundItem>, orderId: Id, now: Time)
    requires OneFeeEach(start.items) && Refused(conn, start, trace, lines, fees, last, orderId, now)
    ensures !CanRefund(conn, start, trace', lines, fees', orderId, now)
  {
    hide LineStep, CanRefundLine, LooksUpFee, OneFeeEach, Sweepable;
    if CanRefund(conn, start, trace', lines, fees', orderId, now) {
      var n := |trace| - 1;
      OneWayForARun(trace, trace', lines[..n], lines, fees, fees', orderId, now, n);
      if n < |lines| {
        var line := lines[n];
        assert LineStep(trace'[n], trace'[n + 1], line, fees'[n], orderId, now);
        LineLooksUp(trace'[n], trace'[n + 1], line, fees'[n], last, orderId, now);
      }
    }
  }

  /**
    Succeeds exactly when all the lines can be refunded in turn, and the event fees swept. The amount due back is exactly
    what the order total dropped by, as a u32: nothing is assumed of prices. `trace` and `fees` report what happened line by
    line, and `last` the fee row that goes with a line that was refused.
   */
  method Refund(conn: Connection, self: Order, refundItems: seq<RefundItem>)
    returns (r: Result<u32>, ghost trace: seq<RefundState>, ghost fees: seq<Option<Id>>, ghost last: Option<Id>)
    requires Refundable(conn.orderItems)
    modifies conn`orderItems, conn`refundedTickets, conn`tickets, conn`history
    ensures r.Ok? ==> CanRefund(conn, old(StateOf(conn)), trace, refundItems, fees, self.id, conn.now)
    ensures r.Err? ==> Refused(conn, old(StateOf(conn)), trace, refundItems, fees, last, self.id, conn.now)
    ensures OneFeeEach(old(conn.orderItems)) ==>
      (r.Ok? <==> exists trace', fees' :: CanRefund(conn, old(StateOf(conn)), trace', refundItems, fees', self.id, conn.now))
    ensures r.Ok? ==>
      && r.value == ToU32(OrderTotal(old(conn.orderItems), self.id) - OrderTotal(conn.orderItems, self.id))
      && Refundable(conn.orderItems)
      && OnlyRefunds(old(conn.orderItems), conn.orderItems, self.id)
      && IsRefund(trace, refundItems, fees, StateOf(conn), self.id, conn.now)
      && trace[0] == old(StateOf(conn))
      && TakesBack(old(conn.tickets), conn.tickets, old(conn.history), conn.history)
      && FreedByBuyers(old(conn.tickets), conn.tickets, old(conn.orderItems), conn.orders, conn.wallets)
  {
    hide OnlyRefunds, Refundable, IsRun, AllRefundable, CanRefund, Refused, OrderTotal, TakesBack, FreedByBuyers, OneFeeEach, Sweepable;
    ghost var start, before := StateOf(conn), conn.orderItems;
    var refunded;
    refunded, trace, fees, last := RefundLines(conn, self, refundItems);
    r := refunded;
    if r.Ok? {
      ghost var swept := StateOf(conn);
      r := SweepEventFees(conn, self, refunded.value);
      assert refundItems[..|refundItems|] == refundItems;
      if r.Ok? {
        OnlyRefundsTransitive(before, swept.items, conn.orderItems, self.id);
        TruncatedSum(OrderTotal(before, self.id) - OrderTotal(swept.items, self.id),
                     OrderTotal(swept.items, self.id) - OrderTotal(conn.orderItems, self.id));
        SweptAway(conn, start, trace, refundItems, fees, self.id, conn.now);
      } else {
        SweepRefused(conn, start, trace, refundItems, fees, last, self.id, conn.now);
      }
    }
    if r.Err? && OneFeeEach(before) {
      forall trace', fees' ensures !CanRefund(conn, start, trace', refundItems, fees', self.id, conn.now) {
        RefusedCannotBeRefunded(conn, start, trace, fees, last, trace', fees', refundItems, self.id, conn.now);
      }
    }
  }

  lemma SweptAway(conn: Connection, start: RefundState, trace: seq<RefundState>, lines: seq<RefundItem>, fees: seq<Option<Id>>,
                  orderId: Id, now: Time)
    requires IsRun(trace, lines, fees, orderId, now) && trace[0] == start && AllRefundable(conn, trace, lines, fees, orderId)
    requires CanSweep(conn, trace[|lines|], orderId)
    ensures CanRefund(conn, start, trace, lines, fees, orderId, now)
  {
  }

  lemma SweepRefused(conn: Connection, start: RefundState, trace: seq<RefundState>, lines: seq<RefundItem>, fees: seq<Option<Id>>,
                     last: Option<Id>, orderId: Id, now: Time)
    requires IsRun(trace, lines, fees, orderId, now) && trace[0] == start && !CanSweep(conn, trace[|lines|], orderId)
    ensures Refused(conn, start, trace, lines, fees, last, orderId, now)
  {
    assert lines[..|lines|] == lines;
  }

  /** The lines of the request, one after the other. */
  method RefundLines(conn: Connection, self: Order, refundItems: seq<RefundItem>)
    returns (r: Result<u32>, ghost trace: seq<RefundState>, ghost fees: seq<Option<Id>>, ghost last: Option<Id>)
    requires Refundable(conn.orderItems)
    modifies conn`orderItems, conn`refundedTickets, conn`tickets, conn`history
    ensures r.Err? ==> Refused(conn, old(StateOf(conn)), trace, refundItems, fees, last, self.id, conn.now)
    ensures r.Ok? ==>
      && IsRun(trace, refundItems, fees, self.id, conn.now) && AllRefundable(conn, trace, refundItems, fees, self.id)
      && trace[0] == old(StateOf(conn)) && trace[|refundItems|] == StateOf(conn)
      && r.value == ToU32(OrderTotal(old(conn.orderItems), self.id) - OrderTotal(conn.orderItems, self.id))
      && Refundable(conn.orderItems)
      && OnlyRefunds(old(conn.orderItems), conn.orderItems, self.id)
      && TakesBack(old(conn.tickets), conn.tickets, old(conn.history), conn.history)
      && FreedByBuyers(old(conn.tickets), conn.tickets, old(conn.orderItems), conn.orders, conn.wallets)
  {
    hide OnlyRefunds, Refundable, LineStep, OrderTotal, TakesBack, CanRefundLine, LooksUpFee, FreedByBuyers, LinkedAreSame;
    var total: int := 0;
    ghost var before := conn.orderItems;
    NothingRefundedYet(before, self.id);
    trace, fees, last := [StateOf(conn)], [], None;
    RehomingTakesNothing(conn.tickets, conn.tickets, conn.history);
    NothingFreedYet(conn.tickets, before, conn.orders, conn.wallets);
    for i := 0 to |refundItems|
      invariant IsRun(trace, refundItems[..i], fees, self.id, conn.now)
      invariant AllRefundable(conn, trace, refundItems[..i], fees, self.id)
      invariant trace[0] == old(StateOf(conn)) && trace[i] == StateOf(conn)
      invariant Refundable(conn.orderItems) && OnlyRefunds(before, conn.orderItems, self.id)
      invariant total == ToU32(OrderTotal(before, self.id) - OrderTotal(conn.orderItems, self.id))
      invariant TakesBack(trace[0].tickets, conn.tickets, old(conn.history), conn.history)
      invariant FreedByBuyers(trace[0].tickets, conn.tickets, before, conn.orders, conn.wallets)
      invariant LinkedAreSame(trace[0].tickets, conn.tickets)
    {
      ghost var s, history := StateOf(conn), conn.history;
      var refund, fee := RefundLine(conn, self, refundItems[i]);
      if refund.Err? {
        return refund, trace, fees, fee;
      }
      LineStepIsARefund(s, StateOf(conn), refundItems[i], fee, self.id, conn.now);
      TakingBackTwice(trace[0].tickets, s.tickets, conn.tickets, old(conn.history), history, conn.history);
      FreedByBuyersTwice(trace[0].tickets, s.tickets, conn.tickets, before, s.items, self.id, conn.orders, conn.wallets);
      OnlyRefundsTransitive(before, s.items, conn.orderItems, self.id);
      AccumulatedRefund(OrderTotal(before, self.id) - OrderTotal(s.items, self.id),
                        OrderTotal(s.items, self.id) - OrderTotal(conn.orderItems, self.id));
      RunExtends(conn, trace, refundItems[..i], fees, StateOf(conn), refundItems[i], fee, self.id, conn.now);
      assert refundItems[..i] + [refundItems[i]] == refundItems[..i + 1];
      trace, fees := trace + [StateOf(conn)], fees + [fee];
      total := ToU32(total + refund.value);
    }
    assert refundItems[..|refundItems|] == refundItems;
    return Ok(total), trace, fees, last;
  }
}
