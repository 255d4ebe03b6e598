/** `Order::update_fees`: per-unit fees and event fees of an order (db/src/models/orders.rs:711-777). */
module OrderFees {
  import opened Schema
  import opened FeeSchedules
  import opened ItemFees
  import opened OrderItems
  import opened OrderRows
  import opened Sums

  // ------------------------------------------------------------ groups of consecutive rows

  /** The key rows are grouped by; only consecutive rows with equal keys end up in one group. */
  predicate SameGroup(a: OrderItem, b: OrderItem) {
    a.eventId == b.eventId && a.holdId == b.holdId
  }

  /** The number of leading rows that share the key of the first. */
  function GroupLength(rows: seq<OrderItem>): (n: nat)
    ensures n <= |rows| && (rows != [] ==> 0 < n)
    ensures forall i :: 0 <= i < n ==> SameGroup(rows[i], rows[0])
    ensures 0 < n < |rows| ==> !SameGroup(rows[n], rows[0])
  {
    if |rows| <= 1 then |rows|
    else if SameGroup(rows[1], rows[0]) then 1 + GroupLength(rows[1..])
    else 1
  }

  predicate PricedTicket(row: OrderItem) {
    row.itemType == Tickets && 0 < row.unitPriceInCents
  }

  predicate AnyPriced(rows: seq<OrderItem>) {
    exists i :: 0 <= i < |rows| && PricedTicket(rows[i])
  }

  /** The fee charged for one group, if any: nothing for comps, free tickets, or events without a fee. */
  function GroupCharge(group: seq<OrderItem>, holds: map<Id, Hold>, events: map<Id, Event>): (cents: int) {
    if group == [] || group[0].eventId.None? || group[0].eventId.value !in events then 0
    else
      var event := events[group[0].eventId.value];
      if !IsComp(holds, group[0].holdId) && AnyPriced(group) && 0 < event.feeInCents
      then event.clientFeeInCents + event.companyFeeInCents
      else 0
  }

  /** The event fees of an order whose rows come back as `rows`. */
  function EventCharges(rows: seq<OrderItem>, holds: map<Id, Hold>, events: map<Id, Event>): (cents: int)
    decreases |rows|
  {
    if rows == [] then 0
    else
      var n := GroupLength(rows);
      GroupCharge(rows[..n], holds, events) + EventCharges(rows[n..], holds, events)
  }

  // ------------------------------------------------------------ fees settled so far

  predicate IsEventFeeOf(item: OrderItem, orderId: Id) {
    item.itemType == EventFees && item.orderId == orderId
  }

  ghost predicate SchedulesAscend(ticketTypes: map<Id, TicketType>) {
    forall t :: t in ticketTypes ==> Ascending(ticketTypes[t].feeRanges)
  }

  ghost predicate ItemSettled(base: map<Id, OrderItem>, cur: map<Id, OrderItem>, k: Id, ticketTypes: map<Id, TicketType>) {
    && k in base && base[k].id == k && base[k].itemType == Tickets && base[k].ticketTypeId.Some?
    && base[k].ticketTypeId.value in ticketTypes
    && FeeSettled(base, cur, base[k], ticketTypes[base[k].ticketTypeId.value].feeRanges)
  }

  /** Apart from fees of the tickets in `done` and new event fees of `orderId`, `cur` is `base`. */
  ghost predicate SameElsewhere(base: map<Id, OrderItem>, cur: map<Id, OrderItem>, done: set<Id>, orderId: Id) {
    && (forall r {:trigger r in base} {:trigger r in cur} ::
          && !(r in base && base[r].parentId.Some? && base[r].parentId.value in done)
          && !(r in cur && cur[r].parentId.Some? && cur[r].parentId.value in done)
          && !(r in cur && r !in base && IsEventFeeOf(cur[r], orderId))
          ==> (r in base <==> r in cur) && (r in base ==> cur[r] == base[r]))
    && KeepsParents(base, cur)
  }

  /** `cur` is `base` with the fees of the tickets in `done` settled, and with event fees added to `orderId`. */
  ghost predicate Settled(base: map<Id, OrderItem>, cur: map<Id, OrderItem>, done: set<Id>, orderId: Id, ticketTypes: map<Id, TicketType>) {
    && (forall k :: k in done ==> ItemSettled(base, cur, k, ticketTypes))
    && SameElsewhere(base, cur, done, orderId)
  }

  /** Only fees have parents. */
  ghost predicate ParentsAreOfFees(items: map<Id, OrderItem>) {
    forall r :: r in items && items[r].parentId.Some? ==> items[r].itemType == PerUnitFees
  }

  /** The fees of a ticket that is not done yet are still what they were. */
  lemma UndoneFeesAreUntouched(base: map<Id, OrderItem>, cur: map<Id, OrderItem>, done: set<Id>, orderId: Id,
                               ticketTypes: map<Id, TicketType>, k: Id)
    requires Settled(base, cur, done, orderId, ticketTypes) && k !in done
    ensures forall r :: (r in base && IsFeeOf(base[r], k)) || (r in cur && IsFeeOf(cur[r], k)) ==>
      r in base && r in cur && base[r] == cur[r]
  {
  }

  lemma UndoneFeesCanGo(base: map<Id, OrderItem>, cur: map<Id, OrderItem>, done: set<Id>, orderId: Id, ticketTypes: map<Id, TicketType>, k: Id,
                        tickets: seq<Ticket>, records: seq<RefundedTicket>, order: Order)
    requires Settled(base, cur, done, orderId, ticketTypes) && k !in done
    ensures FeeCanGo(cur, tickets, records, k, order) <==> FeeCanGo(base, tickets, records, k, order)
  {
    UndoneFeesAreUntouched(base, cur, done, orderId, ticketTypes, k);
    hide Settled, IsNamed;
  }

  lemma ItemSettledFromBase(base: map<Id, OrderItem>, cur: map<Id, OrderItem>, after: map<Id, OrderItem>, k: Id,
                            ticketTypes: map<Id, TicketType>)
    requires forall r :: (r in base && IsFeeOf(base[r], k)) || (r in cur && IsFeeOf(cur[r], k)) ==>
      r in base && r in cur && base[r] == cur[r]
    requires forall r :: r in after && r !in cur ==> r !in base
    requires k in base && k in cur && base[k] == cur[k]
    requires ItemSettled(cur, after, k, ticketTypes)
    ensures ItemSettled(base, after, k, ticketTypes)
  {
    var item, ranges := base[k], ticketTypes[base[k].ticketTypeId.value].feeRanges;
    if Covered(ranges, item.unitPriceInCents) {
      var f, range :| IsApplicable(ranges, item.unitPriceInCents, range) && IsFeeRow(cur, after, f, item, range);
      assert IsFeeRow(base, after, f, item, range);
    }
  }

  lemma ItemStaysSettled(base: map<Id, OrderItem>, cur: map<Id, OrderItem>, after: map<Id, OrderItem>, j: Id,
                         ticketTypes: map<Id, TicketType>)
    requires ItemSettled(base, cur, j, ticketTypes)
    requires forall r :: (r in cur && IsFeeOf(cur[r], j)) || (r in after && IsFeeOf(after[r], j)) ==>
      r in cur && r in after && cur[r] == after[r]
    ensures ItemSettled(base, after, j, ticketTypes)
  {
    var item, ranges := base[j], ticketTypes[base[j].ticketTypeId.value].feeRanges;
    if Covered(ranges, item.unitPriceInCents) {
      var f, range :| IsApplicable(ranges, item.unitPriceInCents, range) && IsFeeRow(base, cur, f, item, range);
      assert IsFeeRow(base, after, f, item, range);
    }
  }

  lemma SettleOneMore(base: map<Id, OrderItem>, cur: map<Id, OrderItem>, after: map<Id, OrderItem>, done: set<Id>, orderId: Id,
                      ticketTypes: map<Id, TicketType>, k: Id)
    requires Settled(base, cur, done, orderId, ticketTypes) && k !in done
    requires OnlyFeesOf(cur, after, k)
    requires forall r :: r in after && r !in cur ==> r !in base
    requires k in base && k in cur && base[k] == cur[k]
    requires ItemSettled(cur, after, k, ticketTypes)
    requires ParentsAreOfFees(base) && ParentsAreOfFees(cur) && ParentsAreOfFees(after)
    ensures Settled(base, after, done + {k}, orderId, ticketTypes)
  {
    SameElsewhereStep(base, cur, after, done, orderId, k);
    UndoneFeesAreUntouched(base, cur, done, orderId, ticketTypes, k);
    ItemSettledFromBase(base, cur, after, k, ticketTypes);
    forall j | j in done ensures ItemSettled(base, after, j, ticketTypes) {
      hide ItemSettled, SameElsewhere;
      ItemStaysSettled(base, cur, after, j, ticketTypes);
    }
  }

  lemma SameElsewhereStep(base: map<Id, OrderItem>, cur: map<Id, OrderItem>, after: map<Id, OrderItem>, done: set<Id>, orderId: Id, k: Id)
    requires SameElsewhere(base, cur, done, orderId) && k !in done
    requires OnlyFeesOf(cur, after, k)
    requires forall r :: r in after && r !in cur ==> r !in base
    requires ParentsAreOfFees(base) && ParentsAreOfFees(cur) && ParentsAreOfFees(after)
    ensures SameElsewhere(base, after, done + {k}, orderId)
  {
  }

  lemma EventFeeKeepsSettled(base: map<Id, OrderItem>, cur: map<Id, OrderItem>, done: set<Id>, orderId: Id,
                             ticketTypes: map<Id, TicketType>, e: Id, row: OrderItem)
    requires Settled(base, cur, done, orderId, ticketTypes)
    requires e !in cur && e !in base && IsEventFeeOf(row, orderId) && row.parentId.None?
    ensures Settled(base, cur[e := row], done, orderId, ticketTypes)
  {
    EventFeeIsElsewhere(base, cur, done, orderId, e, row);
    forall j | j in done ensures ItemSettled(base, cur[e := row], j, ticketTypes) {
      hide ItemSettled, SameElsewhere;
      ItemStaysSettled(base, cur, cur[e := row], j, ticketTypes);
    }
  }

  lemma EventFeeIsElsewhere(base: map<Id, OrderItem>, cur: map<Id, OrderItem>, done: set<Id>, orderId: Id, e: Id, row: OrderItem)
    requires SameElsewhere(base, cur, done, orderId)
    requires e !in cur && e !in base && IsEventFeeOf(row, orderId) && row.parentId.None?
    ensures SameElsewhere(base, cur[e := row], done, orderId)
  {
  }

  // ------------------------------------------------------------ event fees

  /** What the event fees of `orderId` come to. */
  function EventDue(orderId: Id): OrderItem -> int {
    (item: OrderItem) => if item.itemType == EventFees then Due(orderId)(item) else 0
  }

  ghost function EventFeeTotal(items: map<Id, OrderItem>, orderId: Id): (cents: int) {
    Sum(items, EventDue(orderId))
  }

  function NewEventFee(orderId: Id, eventId: Id, event: Event): (row: OrderItem) {
    OrderItem(0, orderId, EventFees, None, Some(eventId), 1, event.clientFeeInCents + event.companyFeeInCents, None, None, None,
              event.companyFeeInCents, event.clientFeeInCents, 0)
  }

  lemma EventFeeAddsItsPrice(items: map<Id, OrderItem>, orderId: Id, row: OrderItem)
    requires row.id !in items && IsEventFeeOf(row, orderId) && row.quantity == 1 && row.refundedQuantity == 0
    ensures EventFeeTotal(items[row.id := row], orderId) == EventFeeTotal(items, orderId) + row.unitPriceInCents
  {
    SumUpdate(items, EventDue(orderId), row.id, row);
    assert row.quantity - row.refundedQuantity == 1;
    assert row.unitPriceInCents * 1 == row.unitPriceInCents;
    assert EventDue(orderId)(row) == Due(orderId)(row) == row.unitPriceInCents;
  }

  lemma SettlingLeavesEventFees(cur: map<Id, OrderItem>, after: map<Id, OrderItem>, k: Id, orderId: Id)
    requires OnlyFeesOf(cur, after, k)
    ensures EventFeeTotal(after, orderId) == EventFeeTotal(cur, orderId)
  {
    SumOfSharedRows(cur, after, EventDue(orderId));
  }

  lemma SettlingLeavesThemWhole(cur: map<Id, OrderItem>, after: map<Id, OrderItem>, k: Id, orderId: Id)
    requires OnlyFeesOf(cur, after, k) && EventFeesAreWhole(cur, orderId)
    ensures EventFeesAreWhole(after, orderId)
  {
  }

  // ------------------------------------------------------------ one group

  /** Event fees are charged for one unit, of which nothing has been refunded. */
  ghost predicate EventFeesAreWhole(items: map<Id, OrderItem>, orderId: Id) {
    forall e :: e in items && IsEventFeeOf(items[e], orderId) ==> items[e].quantity == 1 && items[e].refundedQuantity == 0
  }

  /** What holds throughout: `cur` has the fees of `done` settled, starting from `base`. */
  ghost predicate Settling(base: map<Id, OrderItem>, cur: map<Id, OrderItem>, nextId: Id, done: set<Id>, orderId: Id,
                           ticketTypes: map<Id, TicketType>) {
    && Structured(cur, nextId) && OneFeeEach(cur)
    && Settled(base, cur, done, orderId, ticketTypes)
    && EventFeesAreWhole(cur, orderId)
    && ParentsAreOfFees(base) && forall r :: r in base ==> r < nextId
  }

  /** Rows of the order as they are in `base`, none of them done. */
  ghost predicate FromBase(rows: seq<OrderItem>, base: map<Id, OrderItem>, orderId: Id, done: set<Id>) {
    && DistinctIds(rows)
    && forall i :: 0 <= i < |rows| ==>
       rows[i].id in base && base[rows[i].id] == rows[i] && rows[i].orderId == orderId && rows[i].id !in done
  }

  ghost function TicketIds(rows: seq<OrderItem>): (ids: set<Id>) {
    set row | row in rows && row.itemType == Tickets :: row.id
  }

  lemma TicketsAreAsInBase(base: map<Id, OrderItem>, cur: map<Id, OrderItem>, nextId: Id, done: set<Id>, orderId: Id,
                           ticketTypes: map<Id, TicketType>, k: Id)
    requires Settling(base, cur, nextId, done, orderId, ticketTypes)
    requires k in base && base[k].itemType == Tickets
    ensures k in cur && cur[k] == base[k] && base[k].ticketTypeId.Some? && base[k].id == k
  {
  }

  lemma SettlingStep(base: map<Id, OrderItem>, cur: map<Id, OrderItem>, nextId: Id, after: map<Id, OrderItem>, nextId': Id,
                     done: set<Id>, orderId: Id, ticketTypes: map<Id, TicketType>, k: Id)
    requires Settling(base, cur, nextId, done, orderId, ticketTypes)
    requires k in base && base[k].itemType == Tickets && k !in done
    requires Structured(after, nextId') && OneFeeEach(after) && nextId <= nextId'
    requires OnlyFeesOf(cur, after, k) && NewIdsFrom(cur, after, nextId)
    requires ItemSettled(cur, after, k, ticketTypes)
    ensures Settling(base, after, nextId', done + {k}, orderId, ticketTypes)
    ensures EventFeeTotal(after, orderId) == EventFeeTotal(cur, orderId)
  {
    hide EventFeesAreWhole, EventFeeTotal;
    TicketsAreAsInBase(base, cur, nextId, done, orderId, ticketTypes, k);
    SettlingLeavesEventFees(cur, after, k, orderId);
    SettlingLeavesThemWhole(cur, after, k, orderId);
    assert ParentsAreOfFees(cur) && ParentsAreOfFees(after);
    assert forall r :: r in after && r !in cur ==> r !in base;
    hide ItemSettled, OnlyFeesOf, SameElsewhere, OneFeeEach, Structured, ParentsAreOfFees, EventFeesAreWhole;
    SettleOneMore(base, cur, after, done, orderId, ticketTypes, k);
  }

  /** The rows of a group that is not a comp's: every ticket gets its fee. */
  method SettleGroup(conn: Connection, self: Order, group: seq<OrderItem>, ghost base: map<Id, OrderItem>, ghost done: set<Id>)
    returns (r: Result<bool>)
    requires Settling(base, conn.orderItems, conn.nextId, done, self.id, conn.ticketTypes)
    requires SchedulesAscend(conn.ticketTypes)
    requires FromBase(group, base, self.id, done)
    requires forall i :: 0 <= i < |group| ==> !IsComp(conn.holds, group[i].holdId)
    modifies conn`orderItems, conn`nextId
    ensures r.Ok? <==> forall row :: row in group && row.itemType == Tickets ==> CanUpdateFees(conn, base, row, self)
    ensures r.Ok? ==>
      && Settling(base, conn.orderItems, conn.nextId, done + TicketIds(group), self.id, conn.ticketTypes)
      && EventFeeTotal(conn.orderItems, self.id) == EventFeeTotal(old(conn.orderItems), self.id)
      && r.value == !AnyPriced(group)
      && old(conn.nextId) <= conn.nextId
  {
    hide Settling, EventFeeTotal, FeeSettled, Structured, OneFeeEach, OnlyFeesOf, CanUpdateFees;
    var allZeroPrice := true;
    ghost var settled := done;
    for i := 0 to |group|
      invariant settled == done + TicketIds(group[..i])
      invariant forall j :: 0 <= j < i && group[j].itemType == Tickets ==> CanUpdateFees(conn, base, group[j], self)
      invariant Settling(base, conn.orderItems, conn.nextId, settled, self.id, conn.ticketTypes)
      invariant EventFeeTotal(conn.orderItems, self.id) == EventFeeTotal(old(conn.orderItems), self.id)
      invariant allZeroPrice == !AnyPriced(group[..i])
      invariant old(conn.nextId) <= conn.nextId
    {
      assert group[..i + 1] == group[..i] + [group[i]];
      var o := group[i];
      if o.itemType == Tickets {
        assert o.id !in settled;
        var _ :- SettleTicket(conn, self, o, base, settled);
        settled := settled + {o.id};
        if o.unitPriceInCents > 0 {
          allZeroPrice := false;
        }
      }
      AnyPricedStep(group, i);
    }
    assert group[..|group|] == group;
    return Ok(allZeroPrice);
  }

  lemma AnyPricedStep(group: seq<OrderItem>, i: nat)
    requires i < |group|
    ensures AnyPriced(group[..i + 1]) <==> AnyPriced(group[..i]) || PricedTicket(group[i])
  {
    assert forall j :: 0 <= j < i ==> group[..i + 1][j] == group[..i][j];
    if PricedTicket(group[i]) {
      assert group[..i + 1][i] == group[i];
    }
  }

  method SettleTicket(conn: Connection, self: Order, o: OrderItem, ghost base: map<Id, OrderItem>, ghost done: set<Id>)
    returns (r: Result<()>)
    requires Settling(base, conn.orderItems, conn.nextId, done, self.id, conn.ticketTypes)
    requires SchedulesAscend(conn.ticketTypes)
    requires o.id in base && base[o.id] == o && o.itemType == Tickets && o.id !in done
    requires !IsComp(conn.holds, o.holdId)
    modifies conn`orderItems, conn`nextId
    ensures r.Ok? <==> CanUpdateFees(conn, base, o, self)
    ensures r.Ok? ==>
      && Settling(base, conn.orderItems, conn.nextId, done + {o.id}, self.id, conn.ticketTypes)
      && EventFeeTotal(conn.orderItems, self.id) == EventFeeTotal(old(conn.orderItems), self.id)
      && old(conn.nextId) <= conn.nextId
  {
    TicketsAreAsInBase(base, conn.orderItems, conn.nextId, done, self.id, conn.ticketTypes, o.id);
    hide EventFeeTotal, FeeSettled, Structured, OneFeeEach, OnlyFeesOf, Settled, FeeCanGo;
    UndoneFeesCanGo(base, conn.orderItems, done, self.id, conn.ticketTypes, o.id, conn.tickets, conn.refundedTickets, self);
    ghost var cur, nextId := conn.orderItems, conn.nextId;
    var _ :- UpdateItemFees(conn, o, self);
    assert ItemSettled(cur, conn.orderItems, o.id, conn.ticketTypes);
    SettlingStep(base, cur, nextId, conn.orderItems, conn.nextId, done, self.id, conn.ticketTypes, o.id);
    return Ok(());
  }

  ghost function ChargedIds(rows: seq<OrderItem>, holds: map<Id, Hold>): (ids: set<Id>) {
    set row | row in rows && row.itemType == Tickets && !IsComp(holds, row.holdId) :: row.id
  }

  /** The group of the row can be charged as far as the row is concerned: its hold and its event are there, and so is what its fee takes. */
  ghost predicate CanCharge(conn: Connection, items: map<Id, OrderItem>, row: OrderItem, order: Order)
    reads conn`tickets, conn`refundedTickets, conn`holds
  {
    && (row.holdId.Some? ==> row.holdId.value in conn.holds)
    && (IsComp(conn.holds, row.holdId)
        || (&& row.eventId.Some? && row.eventId.value in conn.events
            && (row.itemType == Tickets ==> CanUpdateFees(conn, items, row, order))))
  }

  ghost predicate AllChargeable(conn: Connection, items: map<Id, OrderItem>, rows: seq<OrderItem>, order: Order)
    reads conn`tickets, conn`refundedTickets, conn`holds
  {
    forall row :: row in rows ==> CanCharge(conn, items, row, order)
  }

  lemma NothingToCharge(conn: Connection, items: map<Id, OrderItem>, order: Order)
    ensures AllChargeable(conn, items, [], order)
  {
  }

  lemma GroupChargeable(conn: Connection, items: map<Id, OrderItem>, rows: seq<OrderItem>, i: nat, n: nat, order: Order)
    requires i + n <= |rows|
    ensures AllChargeable(conn, items, rows[..i + n], order)
       <==> AllChargeable(conn, items, rows[..i], order) && AllChargeable(conn, items, rows[i..][..n], order)
    ensures AllChargeable(conn, items, rows, order) ==> AllChargeable(conn, items, rows[..i + n], order)
  {
    hide CanCharge;
    assert rows[..i + n] == rows[..i] + rows[i..][..n];
    assert rows == rows[..i + n] + rows[i + n..];
  }

  /** One group: its tickets' fees, and its event fee. */
  method ChargeGroup(conn: Connection, self: Order, group: seq<OrderItem>, ghost base: map<Id, OrderItem>, ghost done: set<Id>)
    returns (r: Result<()>)
    requires Settling(base, conn.orderItems, conn.nextId, done, self.id, conn.ticketTypes)
    requires SchedulesAscend(conn.ticketTypes)
    requires FromBase(group, base, self.id, done)
    requires group != [] && group[0].eventId.Some? && forall i :: 0 <= i < |group| ==> SameGroup(group[i], group[0])
    modifies conn`orderItems, conn`nextId
    ensures r.Ok? <==> AllChargeable(conn, base, group, self)
    ensures r.Ok? ==>
      && Settling(base, conn.orderItems, conn.nextId, done + ChargedIds(group, conn.holds), self.id, conn.ticketTypes)
      && EventFeeTotal(conn.orderItems, self.id)
         == EventFeeTotal(old(conn.orderItems), self.id) + GroupCharge(group, conn.holds, conn.events)
      && old(conn.nextId) <= conn.nextId
  {
    hide Settling, EventFeeTotal, AnyPriced, CanUpdateFees;
    GroupIsCompOrNot(group, conn.holds);
    assert group[0] in group;
    var eventId, holdId := group[0].eventId.value, group[0].holdId;
    if holdId.Some? {
      if holdId.value !in conn.holds {
        return Err(QueryError);
      }
      if conn.holds[holdId.value].holdType == Comp {
        assert done + ChargedIds(group, conn.holds) == done;
        return Ok(());
      }
    }
    if eventId !in conn.events {
      return Err(QueryError);
    }
    var event := conn.events[eventId];
    var allZeroPrice :- SettleGroup(conn, self, group, base, done);
    if !allZeroPrice && event.feeInCents > 0 {
      AddEventFee(conn, self, eventId, event, base, done + TicketIds(group));
    }
    return Ok(());
  }

  lemma GroupIsCompOrNot(group: seq<OrderItem>, holds: map<Id, Hold>)
    requires group != [] && forall i :: 0 <= i < |group| ==> SameGroup(group[i], group[0])
    ensures forall i :: 0 <= i < |group| ==> (IsComp(holds, group[i].holdId) <==> IsComp(holds, group[0].holdId))
    ensures ChargedIds(group, holds) == if IsComp(holds, group[0].holdId) then {} else TicketIds(group)
  {
  }

  method AddEventFee(conn: Connection, self: Order, eventId: Id, event: Event, ghost base: map<Id, OrderItem>, ghost done: set<Id>)
    requires Settling(base, conn.orderItems, conn.nextId, done, self.id, conn.ticketTypes)
    modifies conn`orderItems, conn`nextId
    ensures Settling(base, conn.orderItems, conn.nextId, done, self.id, conn.ticketTypes)
    ensures EventFeeTotal(conn.orderItems, self.id)
         == EventFeeTotal(old(conn.orderItems), self.id) + event.clientFeeInCents + event.companyFeeInCents
    ensures old(conn.nextId) <= conn.nextId
  {
    var row := InsertItem(conn, NewEventFee(self.id, eventId, event));
    EventFeeKeepsSettling(base, old(conn.orderItems), old(conn.nextId), done, self.id, conn.ticketTypes, row);
    EventFeeAddsItsPrice(old(conn.orderItems), self.id, row);
  }

  lemma EventFeeKeepsSettling(base: map<Id, OrderItem>, cur: map<Id, OrderItem>, nextId: Id, done: set<Id>, orderId: Id,
                              ticketTypes: map<Id, TicketType>, row: OrderItem)
    requires Settling(base, cur, nextId, done, orderId, ticketTypes)
    requires row.id == nextId && IsEventFeeOf(row, orderId) && row.parentId.None? && row.quantity == 1 && row.refundedQuantity == 0
    ensures Settling(base, cur[row.id := row], nextId + 1, done, orderId, ticketTypes)
    ensures row.id !in cur
  {
    InsertStaysStructured(cur, nextId, row);
    EventFeeKeepsSettled(base, cur, done, orderId, ticketTypes, row.id, row);
    hide Settled;
  }

  // ------------------------------------------------------------ the whole order

  ghost function WithoutEventFees(items: map<Id, OrderItem>, orderId: Id): (r: map<Id, OrderItem>) {
    map k | k in items && !IsEventFeeOf(items[k], orderId) :: items[k]
  }

  method DropEventFees(conn: Connection, self: Order) returns (r: Result<()>)
    requires Structured(conn.orderItems, conn.nextId)
    modifies conn`orderItems
    ensures r.Ok? <==> EventFeesCanGo(old(conn.orderItems), conn.tickets, conn.refundedTickets, self)
    ensures r.Ok? ==> conn.orderItems == WithoutEventFees(old(conn.orderItems), self.id)
  {
    hide IsNamed, Referenced, Structured, Sorted, Keyed, Children;
    StructuredIsKeyed(conn.orderItems, conn.nextId);
    var items := FindForOrder(conn, self.id);
    ghost var before := conn.orderItems;
    ghost var dropped := {};
    for i := 0 to |items|
      invariant Structured(conn.orderItems, conn.nextId)
      invariant conn.orderItems == before - dropped
      invariant forall j :: 0 <= j < i && items[j].itemType == EventFees ==>
        self.status == Draft && !IsNamed(conn.tickets, conn.refundedTickets, items[j].id)
      invariant forall k :: k in dropped <==> exists j :: 0 <= j < i && items[j].id == k && items[j].itemType == EventFees
    {
      var o := items[i];
      if o.itemType == EventFees {
        assert o in items && o.id in Ids(items);
        EventFeesHaveNoChildren(before, conn.nextId, before - dropped, o.id);
        EventFeeStays(before, items, i, dropped);
        FeesAreReferencedIfNamed(conn.orderItems, conn.nextId, conn.tickets, conn.refundedTickets, o.id);
        var _ :- DestroyItem(conn, self, o.id);
        WithoutStaysStructured(before - dropped, conn.nextId, o.id);
        dropped := dropped + {o.id};
        assert conn.orderItems == before - dropped;
      }
    }
    DroppedAreTheEventFees(items, before, self.id, dropped);
    EveryEventFeeIsListed(items, before, self.id);
    return Ok(());
  }

  /** Event fees may be deleted: the order is a draft, and nothing names them. */
  ghost predicate EventFeesCanGo(items: map<Id, OrderItem>, tickets: seq<Ticket>, records: seq<RefundedTicket>, order: Order) {
    forall e :: e in items && IsEventFeeOf(items[e], order.id) ==> order.status == Draft && !IsNamed(tickets, records, e)
  }

  lemma EveryEventFeeIsListed(items: seq<OrderItem>, before: map<Id, OrderItem>, orderId: Id)
    requires AreRowsOf(items, before, orderId)
    ensures forall e :: e in before && IsEventFeeOf(before[e], orderId) ==> exists j :: 0 <= j < |items| && items[j].id == e && items[j].itemType == EventFees
  {
    forall e | e in before && IsEventFeeOf(before[e], orderId) ensures exists j :: 0 <= j < |items| && items[j].id == e && items[j].itemType == EventFees {
      assert e in Ids(items);
      var j :| 0 <= j < |items| && items[j].id == e;
      assert items[j] in items;
    }
  }

  lemma EventFeeStays(before: map<Id, OrderItem>, items: seq<OrderItem>, i: nat, dropped: set<Id>)
    requires i < |items| && DistinctIds(items) && items[i].id in before
    requires forall k :: k in dropped ==> exists j :: 0 <= j < i && items[j].id == k
    ensures items[i].id in before - dropped
  {
  }

  lemma EventFeesHaveNoChildren(before: map<Id, OrderItem>, nextId: Id, items: map<Id, OrderItem>, e: Id)
    requires Structured(before, nextId) && e in before && before[e].itemType == EventFees
    requires items.Keys <= before.Keys && forall k :: k in items ==> items[k] == before[k]
    ensures Children(items, e) == {}
  {
  }

  lemma DroppedAreTheEventFees(items: seq<OrderItem>, before: map<Id, OrderItem>, orderId: Id, dropped: set<Id>)
    requires AreRowsOf(items, before, orderId)
    requires forall k :: k in dropped <==> exists j :: 0 <= j < |items| && items[j].id == k && items[j].itemType == EventFees
    ensures before - dropped == WithoutEventFees(before, orderId)
  {
    forall k | k in before ensures k in dropped <==> IsEventFeeOf(before[k], orderId) {
      if k in dropped {
        var j :| 0 <= j < |items| && items[j].id == k && items[j].itemType == EventFees;
        assert items[j] in items && k in Ids(items);
      }
      if IsEventFeeOf(before[k], orderId) {
        assert k in Ids(items);
        var j :| 0 <= j < |items| && items[j].id == k;
        assert items[j] == before[k];
      }
    }
  }

  /** The rows with an event, in their order. */
  function Evented(rows: seq<OrderItem>): (r: seq<OrderItem>)
    ensures forall row :: row in r <==> row in rows && row.eventId.Some?
    ensures DistinctIds(rows) ==> DistinctIds(r)
  {
    if rows == [] then []
    else
      var earlier, last := Evented(rows[..|rows| - 1]), rows[|rows| - 1];
      assert rows == rows[..|rows| - 1] + [last];
      if last.eventId.Some? then earlier + [last] else earlier
  }

  /**
    What `update_fees` does to `before`, given the order in which the rows of the order came back: the tickets of
    non-comp groups have the fees their prices call for, and the event fees are those of the groups. Nothing else
    changes.
   */
  ghost predicate FeesUpdated(before: map<Id, OrderItem>, after: map<Id, OrderItem>, nextId: Id, rows: seq<OrderItem>, orderId: Id,
                              ticketTypes: map<Id, TicketType>, holds: map<Id, Hold>, events: map<Id, Event>) {
    var base := WithoutEventFees(before, orderId);
    && AreRowsOf(rows, base, orderId)
    && Settling(base, after, nextId, ChargedIds(Evented(rows), holds), orderId, ticketTypes)
    && EventFeeTotal(after, orderId) == EventCharges(Evented(rows), holds, events)
  }

  /** The fees of the order can be brought up to date: its event fees can go, and every row with an event can be charged. */
  ghost predicate CanUpdateOrderFees(conn: Connection, items: map<Id, OrderItem>, order: Order)
    reads conn`tickets, conn`refundedTickets, conn`holds
  {
    && EventFeesCanGo(items, conn.tickets, conn.refundedTickets, order)
    && forall k :: k in items && items[k].orderId == order.id && items[k].itemType != EventFees && items[k].eventId.Some? ==>
      CanCharge(conn, items, items[k], order)
  }

  lemma CanChargeWithoutEventFees(conn: Connection, items: map<Id, OrderItem>, rows: seq<OrderItem>, order: Order)
    requires AreRowsOf(rows, WithoutEventFees(items, order.id), order.id) && Keyed(items)
    ensures AllChargeable(conn, WithoutEventFees(items, order.id), Evented(rows), order)
       <==> (forall k :: k in items && items[k].orderId == order.id && items[k].itemType != EventFees && items[k].eventId.Some? ==>
               CanCharge(conn, items, items[k], order))
  {
    var base := WithoutEventFees(items, order.id);
    forall row | row in items.Values
      ensures CanCharge(conn, base, row, order) <==> CanCharge(conn, items, row, order)
    {
      FeeCanGoWithoutEventFees(items, conn.tickets, conn.refundedTickets, row.id, order);
      hide FeeCanGo;
    }
    hide CanCharge, WithoutEventFees;
    forall row | row in Evented(rows) ensures row.id in items && items[row.id] == row && row.orderId == order.id && row.itemType != EventFees {
      assert row in rows && row.id in Ids(rows);
      WithoutEventFeesKeeps(items, order.id, row.id);
    }
    forall k | k in items && items[k].orderId == order.id && items[k].itemType != EventFees && items[k].eventId.Some?
      ensures items[k] in Evented(rows)
    {
      WithoutEventFeesKeeps(items, order.id, k);
      assert k in Ids(rows);
      var row :| row in rows && row.id == k;
    }
  }

  lemma WithoutEventFeesKeeps(items: map<Id, OrderItem>, orderId: Id, k: Id)
    ensures k in WithoutEventFees(items, orderId) ==> k in items && WithoutEventFees(items, orderId)[k] == items[k] && !IsEventFeeOf(items[k], orderId)
    ensures k in items && !IsEventFeeOf(items[k], orderId) ==> k in WithoutEventFees(items, orderId)
  {
  }

  lemma FeeCanGoWithoutEventFees(items: map<Id, OrderItem>, tickets: seq<Ticket>, records: seq<RefundedTicket>, k: Id, order: Order)
    ensures FeeCanGo(WithoutEventFees(items, order.id), tickets, records, k, order) <==> FeeCanGo(items, tickets, records, k, order)
  {
  }

  method UpdateFees(conn: Connection, self: Order) returns (r: Result<()>, ghost rows: seq<OrderItem>)
    requires Structured(conn.orderItems, conn.nextId) && OneFeeEach(conn.orderItems)
    requires SchedulesAscend(conn.ticketTypes)
    modifies conn`orderItems, conn`nextId
    ensures r.Ok? <==> CanUpdateOrderFees(conn, old(conn.orderItems), self)
    ensures r.Ok? ==> FeesUpdated(old(conn.orderItems), conn.orderItems, conn.nextId, rows, self.id,
                                  conn.ticketTypes, conn.holds, conn.events)
    ensures r.Ok? && ItemsOf(old(conn.orderItems), self.id) == {} ==> conn.orderItems == old(conn.orderItems)
    ensures r.Ok? ==> old(conn.nextId) <= conn.nextId
  {
    hide Settling, EventFeeTotal, EventCharges, CanCharge, EventFeesCanGo, WithoutEventFees, AreRowsOf, ChargedIds, Structured, OneFeeEach;
    StructuredIsKeyed(conn.orderItems, conn.nextId);
    var dropped := DropEventFees(conn, self);
    if dropped.Err? {
      return dropped, [];
    }
    ghost var base := conn.orderItems;
    WithoutEventFeesIsABase(old(conn.orderItems), conn.nextId, self.id, conn.ticketTypes);
    var items := FindForOrder(conn, self.id);
    rows := items;
    var evented := Evented(items);
    EventedIsFromBase(items, base, self.id);
    StructuredIsKeyed(old(conn.orderItems), conn.nextId);
    CanChargeWithoutEventFees(conn, old(conn.orderItems), items, self);
    NoItemsNoRows(old(conn.orderItems), base, items, self.id);
    r := ChargeGroups(conn, self, evented, base);
  }

  lemma NoItemsNoRows(items: map<Id, OrderItem>, base: map<Id, OrderItem>, rows: seq<OrderItem>, orderId: Id)
    requires base == WithoutEventFees(items, orderId) && AreRowsOf(rows, base, orderId)
    ensures ItemsOf(items, orderId) == {} ==> base == items && rows == []
  {
    assert rows != [] ==> rows[0] in rows && rows[0].id in Ids(rows);
    if ItemsOf(items, orderId) == {} {
      assert forall k :: k in items ==> k !in ItemsOf(items, orderId);
    }
  }

  lemma EventedIsFromBase(rows: seq<OrderItem>, base: map<Id, OrderItem>, orderId: Id)
    requires AreRowsOf(rows, base, orderId)
    ensures FromBase(Evented(rows), base, orderId, {})
  {
    forall row | row in rows ensures row.id in base && base[row.id] == row && row.orderId == orderId {
      assert row.id in Ids(rows);
    }
  }

  lemma WithoutEventFeesIsABase(items: map<Id, OrderItem>, nextId: Id, orderId: Id, ticketTypes: map<Id, TicketType>)
    requires Structured(items, nextId) && OneFeeEach(items)
    ensures
      var base := WithoutEventFees(items, orderId);
      && Settling(base, base, nextId, {}, orderId, ticketTypes)
      && Keyed(base)
      && EventFeeTotal(base, orderId) == 0
  {
    var base := WithoutEventFees(items, orderId);
    forall k | k in base ensures EventDue(orderId)(base[k]) == 0 {
      assert Due(orderId)(base[k]) == 0 || base[k].orderId == orderId;
    }
    SumZero(base, EventDue(orderId));
    hide EventFeeTotal;
  }

  method ChargeGroups(conn: Connection, self: Order, rows: seq<OrderItem>, ghost base: map<Id, OrderItem>) returns (r: Result<()>)
    requires conn.orderItems == base && Settling(base, base, conn.nextId, {}, self.id, conn.ticketTypes)
    requires EventFeeTotal(base, self.id) == 0
    requires FromBase(rows, base, self.id, {}) && forall row :: row in rows ==> row.eventId.Some?
    requires SchedulesAscend(conn.ticketTypes)
    modifies conn`orderItems, conn`nextId
    ensures r.Ok? <==> AllChargeable(conn, base, rows, self)
    ensures r.Ok? ==>
      && Settling(base, conn.orderItems, conn.nextId, ChargedIds(rows, conn.holds), self.id, conn.ticketTypes)
      && EventFeeTotal(conn.orderItems, self.id) == EventCharges(rows, conn.holds, conn.events)
      && (rows == [] ==> unchanged(conn)) && old(conn.nextId) <= conn.nextId
  {
    hide Settling, EventFeeTotal, GroupCharge, GroupLength, SchedulesAscend, FromBase, AllChargeable, CanCharge;
    NothingToCharge(conn, base, self);
    var i := 0;
    assert rows[..0] == [] && rows[0..] == rows && ChargedIds([], conn.holds) == {};
    while i < |rows|
      invariant i <= |rows|
      invariant Settling(base, conn.orderItems, conn.nextId, ChargedIds(rows[..i], conn.holds), self.id, conn.ticketTypes)
      invariant EventFeeTotal(conn.orderItems, self.id) + EventCharges(rows[i..], conn.holds, conn.events)
             == EventCharges(rows, conn.holds, conn.events)
      invariant (rows == [] ==> unchanged(conn)) && old(conn.nextId) <= conn.nextId
      invariant AllChargeable(conn, base, rows[..i], self)
    {
      var n := GroupLength(rows[i..]);
      var group := rows[i..][..n];
      GroupIsFromBase(rows, i, n, base, self.id, conn.holds);
      GroupChargeable(conn, base, rows, i, n, self);
      var _ :- ChargeGroup(conn, self, group, base, ChargedIds(rows[..i], conn.holds));
      assert rows[i..][n..] == rows[i + n..];
      i := i + n;
    }
    assert rows[..i] == rows;
    return Ok(());
  }

  lemma GroupIsFromBase(rows: seq<OrderItem>, i: nat, n: nat, base: map<Id, OrderItem>, orderId: Id, holds: map<Id, Hold>)
    requires i + n <= |rows| && FromBase(rows, base, orderId, {})
    ensures FromBase(rows[i..][..n], base, orderId, ChargedIds(rows[..i], holds))
    ensures ChargedIds(rows[..i + n], holds) == ChargedIds(rows[..i], holds) + ChargedIds(rows[i..][..n], holds)
  {
    var group := rows[i..][..n];
    assert rows[..i + n] == rows[..i] + group;
    assert forall j :: 0 <= j < n ==> group[j] == rows[i + j];
  }
}