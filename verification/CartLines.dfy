/** The lines of a cart and of a request, as multisets (db/src/models/orders.rs:446-656). */
module CartLines {
  import opened Schema
  import opened OrderItems
  import opened OrderRows
  import opened Sums

  /** Ticket type, hold and quantity. */
  type Line = (Id, Option<Id>, int)

  /** A requested line; the redemption code is in upper case already. */
  datatype UpdateOrderItem = UpdateOrderItem(ticketTypeId: Id, quantity: u32, redemptionCode: Option<string>)

  /** A requested line with its hold looked up. It stays pending until an existing item has taken it. */
  datatype MappedLine = MappedLine(pending: bool, holdId: Option<Id>, hold: Option<Hold>, item: UpdateOrderItem)

  // ------------------------------------------------------------ the lines in the cart

  function LineOf(orderId: Id): OrderItem -> multiset<Line> {
    (item: OrderItem) =>
      if item.orderId == orderId && item.itemType == Tickets && item.ticketTypeId.Some?
      then multiset{(item.ticketTypeId.value, item.holdId, item.quantity)}
      else multiset{}
  }

  ghost function Lines(items: map<Id, OrderItem>, orderId: Id): (lines: multiset<Line>) {
    Gather(items, LineOf(orderId))
  }

  lemma LinesAfterRemove(items: map<Id, OrderItem>, nextId: Id, k: Id, orderId: Id)
    requires Structured(items, nextId) && k in items
    ensures Lines(items, orderId) == Lines(Without(items, k), orderId) + LineOf(orderId)(items[k])
  {
    GatherSplit(items, LineOf(orderId), k);
    forall f | f in Children(items, k) ensures LineOf(orderId)(items[f]) == multiset{} {
      assert items[f].itemType == PerUnitFees;
    }
    GatherShared(items - {k}, Without(items, k), LineOf(orderId));
  }

  lemma LinesAfterReplace(items: map<Id, OrderItem>, k: Id, row: OrderItem, orderId: Id)
    requires k in items
    ensures Lines(items[k := row], orderId) + LineOf(orderId)(items[k]) == Lines(items, orderId) + LineOf(orderId)(row)
  {
    GatherSplit(items, LineOf(orderId), k);
    GatherReplace(items, LineOf(orderId), k, row);
  }

  lemma LinesAfterInsert(items: map<Id, OrderItem>, k: Id, row: OrderItem, orderId: Id)
    requires k !in items
    ensures Lines(items[k := row], orderId) == Lines(items, orderId) + LineOf(orderId)(row)
  {
    GatherInsert(items, LineOf(orderId), k, row);
  }

  /** Rows of fees come and go without touching the lines. */
  lemma LinesOfSameTickets(a: map<Id, OrderItem>, b: map<Id, OrderItem>, orderId: Id)
    requires forall k :: k in a && a[k].itemType == Tickets ==> k in b && b[k] == a[k]
    requires forall k :: k in b && b[k].itemType == Tickets ==> k in a && a[k] == b[k]
    ensures Lines(a, orderId) == Lines(b, orderId)
  {
    GatherShared(a, b, LineOf(orderId));
  }

  ghost function SeqLines(rows: seq<OrderItem>, orderId: Id): (lines: multiset<Line>) {
    if rows == [] then multiset{} else SeqLines(rows[..|rows| - 1], orderId) + LineOf(orderId)(rows[|rows| - 1])
  }

  /** `rows` lists the rows of an order, in any order. */
  ghost predicate IsListing(rows: seq<OrderItem>, items: map<Id, OrderItem>, orderId: Id) {
    && DistinctIds(rows)
    && (forall row :: row in rows ==> row.id in items && items[row.id] == row)
    && Ids(rows) == ItemsOf(items, orderId)
  }

  lemma {:induction false} ListedLines(rows: seq<OrderItem>, items: map<Id, OrderItem>, orderId: Id)
    requires IsListing(rows, items, orderId)
    ensures SeqLines(rows, orderId) == Lines(items, orderId)
    decreases |rows|
  {
    if rows == [] {
      forall k | k in items ensures LineOf(orderId)(items[k]) == multiset{} {
        assert k !in ItemsOf(items, orderId);
      }
      GatherShared(items, map[], LineOf(orderId));
    } else {
      var last, front := rows[|rows| - 1], rows[..|rows| - 1];
      assert last in rows;
      FrontIsListing(rows, items, orderId);
      ListedLines(front, items - {last.id}, orderId);
      GatherSplit(items, LineOf(orderId), last.id);
    }
  }

  lemma FrontIsListing(rows: seq<OrderItem>, items: map<Id, OrderItem>, orderId: Id)
    requires IsListing(rows, items, orderId) && rows != []
    ensures IsListing(rows[..|rows| - 1], items - {rows[|rows| - 1].id}, orderId)
  {
    var last, front := rows[|rows| - 1], rows[..|rows| - 1];
    assert rows == front + [last];
    forall row | row in front ensures row.id != last.id && row in rows {
      var i :| 0 <= i < |front| && front[i] == row;
      assert rows[i].id != rows[|rows| - 1].id;
    }
    assert Ids(rows) == Ids(front) + {last.id};
    assert last.id !in Ids(front);
  }

  // ------------------------------------------------------------ the lines still wanted

  function Wanted(m: MappedLine): (line: multiset<Line>) {
    if m.pending && 0 < m.item.quantity then multiset{(m.item.ticketTypeId, m.holdId, m.item.quantity as int)} else multiset{}
  }

  function Pending(mapped: seq<MappedLine>): (lines: multiset<Line>) {
    if mapped == [] then multiset{} else Pending(mapped[..|mapped| - 1]) + Wanted(mapped[|mapped| - 1])
  }

  lemma {:induction false} PendingAfterTaking(mapped: seq<MappedLine>, i: nat)
    requires i < |mapped|
    ensures Pending(mapped) == Pending(mapped[i := mapped[i].(pending := false)]) + Wanted(mapped[i])
  {
    var after := mapped[i := mapped[i].(pending := false)];
    if i == |mapped| - 1 {
      assert after[..i] == mapped[..i];
    } else {
      PendingAfterTaking(mapped[..|mapped| - 1], i);
      assert after[..|mapped| - 1] == mapped[..|mapped| - 1][i := mapped[i].(pending := false)];
    }
  }

  lemma Cancel(a: multiset<Line>, b: multiset<Line>, c: multiset<Line>)
    requires a + c == b + c
    ensures a == b
  {
    assert a == (a + c) - c;
    assert b == (b + c) - c;
  }

  // ------------------------------------------------------------ merging the one with the other

  predicate Matches(m: MappedLine, row: OrderItem) {
    m.pending && Some(m.item.ticketTypeId) == row.ticketTypeId && m.holdId == row.holdId
  }

  ghost predicate NoMatch(mapped: seq<MappedLine>, row: OrderItem) {
    forall i :: 0 <= i < |mapped| ==> !Matches(mapped[i], row)
  }

  /** The first pending line with the ticket type and hold of the row. */
  function MatchOf(mapped: seq<MappedLine>, row: OrderItem): (index: Option<nat>)
    ensures index.Some? ==> index.value < |mapped| && Matches(mapped[index.value], row) && NoMatch(mapped[..index.value], row)
    ensures index.None? ==> NoMatch(mapped, row)
  {
    if mapped == [] then None
    else
      var n := |mapped| - 1;
      var earlier := MatchOf(mapped[..n], row);
      assert earlier.Some? ==> mapped[..n][..earlier.value] == mapped[..earlier.value];
      if earlier.Some? then earlier
      else if Matches(mapped[n], row) then Some(n)
      else None
  }

  /** The lines still pending once the row has taken its match. */
  function TakenBy(mapped: seq<MappedLine>, row: OrderItem): (after: seq<MappedLine>) {
    if row.itemType == Tickets && MatchOf(mapped, row).Some?
    then var i := MatchOf(mapped, row).value; mapped[i := mapped[i].(pending := false)]
    else mapped
  }

  /** The lines still pending once every row of the cart has taken its match, in the order they were loaded. */
  function TakenByAll(mapped: seq<MappedLine>, rows: seq<OrderItem>): (after: seq<MappedLine>) {
    if rows == [] then mapped else TakenBy(TakenByAll(mapped, rows[..|rows| - 1]), rows[|rows| - 1])
  }

  /** More tickets are asked for than the row has. */
  predicate IsRaised(mapped: seq<MappedLine>, row: OrderItem) {
    && row.itemType == Tickets && MatchOf(mapped, row).Some?
    && row.quantity < mapped[MatchOf(mapped, row).value].item.quantity
  }

  /** The row was sold at the price that is in force. */
  predicate PriceHolds(pricings: map<(Id, bool), Pricing>, boxOfficePricing: bool, row: OrderItem) {
    row.ticketTypeId.Some? && (row.ticketTypeId.value, boxOfficePricing) in pricings
    ==> row.ticketPricingId == Some(pricings[(row.ticketTypeId.value, boxOfficePricing)].id)
  }

  /** The row is raised at a price that has changed: it stays as it is, and another row is put beside it. */
  predicate IsRepriced(pricings: map<(Id, bool), Pricing>, boxOfficePricing: bool, mapped: seq<MappedLine>, row: OrderItem) {
    IsRaised(mapped, row) && !PriceHolds(pricings, boxOfficePricing, row)
  }

  /** Nothing was asked of the row, in a request that leaves others alone. */
  ghost predicate LeftAlone(mapped: seq<MappedLine>, row: OrderItem, removeOthers: bool) {
    !removeOthers && NoMatch(mapped, row)
  }

  /** The line with which the row stays in the cart beside what was asked for. */
  ghost function KeptLine(pricings: map<(Id, bool), Pricing>, boxOfficePricing: bool, mapped: seq<MappedLine>, row: OrderItem,
                          removeOthers: bool): (line: multiset<Line>)
  {
    if LeftAlone(mapped, row, removeOthers) || IsRepriced(pricings, boxOfficePricing, mapped, row)
    then LineOf(row.orderId)(row)
    else multiset{}
  }

  ghost function KeptLines(pricings: map<(Id, bool), Pricing>, boxOfficePricing: bool, mapped: seq<MappedLine>, rows: seq<OrderItem>,
                           removeOthers: bool): (lines: multiset<Line>)
  {
    if rows == [] then multiset{}
    else
      var front, last := rows[..|rows| - 1], rows[|rows| - 1];
      KeptLines(pricings, boxOfficePricing, mapped, front, removeOthers)
        + KeptLine(pricings, boxOfficePricing, TakenByAll(mapped, front), last, removeOthers)
  }

  /** No row of the cart is raised at a price that has changed. */
  ghost predicate NoneRepriced(pricings: map<(Id, bool), Pricing>, boxOfficePricing: bool, mapped: seq<MappedLine>, rows: seq<OrderItem>) {
    forall i :: 0 <= i < |rows| ==> !IsRepriced(pricings, boxOfficePricing, TakenByAll(mapped, rows[..i]), rows[i])
  }

  lemma NoneRepricedNext(pricings: map<(Id, bool), Pricing>, boxOfficePricing: bool, mapped: seq<MappedLine>, rows: seq<OrderItem>, n: nat)
    requires n < |rows|
    ensures NoneRepriced(pricings, boxOfficePricing, mapped, rows[..n + 1])
       <==> NoneRepriced(pricings, boxOfficePricing, mapped, rows[..n])
            && !IsRepriced(pricings, boxOfficePricing, TakenByAll(mapped, rows[..n]), rows[n])
  {
    assert forall i :: 0 <= i < n ==> rows[..n + 1][..i] == rows[..n][..i];
    assert rows[..n + 1][..n] == rows[..n];
  }

  /** When others are to be removed, the request replaces the cart exactly when no row is raised at a changed price. */
  lemma {:induction false} ReplacingIffNoneRepriced(pricings: map<(Id, bool), Pricing>, boxOfficePricing: bool,
                                                    mapped: seq<MappedLine>, rows: seq<OrderItem>)
    ensures KeptLines(pricings, boxOfficePricing, mapped, rows, true) == multiset{}
       <==> NoneRepriced(pricings, boxOfficePricing, mapped, rows)
  {
    if rows != [] {
      var n := |rows| - 1;
      assert rows[..n + 1] == rows;
      NoneRepricedNext(pricings, boxOfficePricing, mapped, rows, n);
      ReplacingIffNoneRepriced(pricings, boxOfficePricing, mapped, rows[..n]);
      var line := KeptLine(pricings, boxOfficePricing, TakenByAll(mapped, rows[..n]), rows[n], true);
      if IsRepriced(pricings, boxOfficePricing, TakenByAll(mapped, rows[..n]), rows[n]) {
        assert |line| == 1;
      }
      assert |KeptLines(pricings, boxOfficePricing, mapped, rows, true)|
        == |KeptLines(pricings, boxOfficePricing, mapped, rows[..n], true)| + |line|;
    }
  }

  /** The ticket types whose limits are looked at: those of rows that were raised, and those of lines that were added. */
  function RaisedTypes(mapped: seq<MappedLine>, rows: seq<OrderItem>): (types: seq<Id>) {
    if rows == [] then []
    else
      var front, last := rows[..|rows| - 1], rows[|rows| - 1];
      RaisedTypes(mapped, front)
        + if IsRaised(TakenByAll(mapped, front), last) && last.ticketTypeId.Some? then [last.ticketTypeId.value] else []
  }

  function AddedTypes(mapped: seq<MappedLine>): (types: seq<Id>) {
    if mapped == [] then []
    else
      var last := mapped[|mapped| - 1];
      AddedTypes(mapped[..|mapped| - 1]) + if last.pending && 0 < last.item.quantity then [last.item.ticketTypeId] else []
  }

  // ------------------------------------------------------------ prices

  /** What tickets are sold on: the prices in force, the ticket types, and the holds. */
  datatype Terms = Terms(pricings: map<(Id, bool), Pricing>, ticketTypes: map<Id, TicketType>, holds: map<Id, Hold>)

  function TermsOf(conn: Connection): (terms: Terms)
    reads conn`pricings, conn`holds
  {
    Terms(conn.pricings, conn.ticketTypes, conn.holds)
  }

  /** Under a hold, a ticket costs nothing, or its price with the discount taken off as far as it goes. */
  predicate CostsUnder(hold: Hold, cents: int, price: int) {
    match hold.holdType
    case Comp => cents == 0
    case Discount =>
      var off := if hold.discountInCents.Some? then hold.discountInCents.value else 0;
      if off <= price then cents + off == price else cents == 0
  }

  /** The row is new: for a known type at the price in force, under its hold if it has one, and without fees or refunds. */
  ghost predicate IsNewRow(row: OrderItem, terms: Terms, boxOfficePricing: bool) {
    && row.ticketTypeId.Some? && row.ticketTypeId.value in terms.ticketTypes
    && (row.ticketTypeId.value, boxOfficePricing) in terms.pricings
    && row.ticketPricingId == Some(terms.pricings[(row.ticketTypeId.value, boxOfficePricing)].id)
    && row.eventId == Some(terms.ticketTypes[row.ticketTypeId.value].eventId)
    && row.parentId.None? && row.companyFeeInCents == row.clientFeeInCents == row.refundedQuantity == 0
    && var price := terms.pricings[(row.ticketTypeId.value, boxOfficePricing)].priceInCents;
    match row.holdId
    case None => row.unitPriceInCents == price
    case Some(id) => exists h :: h in terms.holds && terms.holds[h].id == id && CostsUnder(terms.holds[h], row.unitPriceInCents, price)
  }

  /** The quantity is a multiple of what the type is sold in. */
  predicate IsMultiple(row: OrderItem, ticketTypes: map<Id, TicketType>) {
    && row.ticketTypeId.Some? && row.ticketTypeId.value in ticketTypes && 0 < ticketTypes[row.ticketTypeId.value].increment
    && row.quantity % ticketTypes[row.ticketTypeId.value].increment == 0
  }

  /** A Tickets row after an update: as it was; with another quantity, in increments; or new. */
  ghost predicate IsOnTerms(before: map<Id, OrderItem>, k: Id, row: OrderItem, terms: Terms, boxOfficePricing: bool) {
    || (k in before && row == before[k])
    || (&& IsMultiple(row, terms.ticketTypes)
        && (|| (k in before && row == before[k].(quantity := row.quantity))
            || IsNewRow(row, terms, boxOfficePricing)))
  }

  /** Tickets rows have come, gone and changed in the one order only, and on the terms in force. */
  ghost predicate SoldAtPrice(before: map<Id, OrderItem>, after: map<Id, OrderItem>, terms: Terms, boxOfficePricing: bool, orderId: Id) {
    forall k :: k in after && after[k].itemType == Tickets ==>
      if after[k].orderId == orderId then IsOnTerms(before, k, after[k], terms, boxOfficePricing)
      else k in before && before[k] == after[k]
  }

  lemma SoldAtPriceTwice(a: map<Id, OrderItem>, b: map<Id, OrderItem>, c: map<Id, OrderItem>, terms: Terms, boxOfficePricing: bool,
                         orderId: Id)
    requires SoldAtPrice(a, b, terms, boxOfficePricing, orderId) && SoldAtPrice(b, c, terms, boxOfficePricing, orderId)
    ensures SoldAtPrice(a, c, terms, boxOfficePricing, orderId)
  {
    hide CostsUnder, IsMultiple;
    forall k | k in c && c[k].itemType == Tickets && c[k].orderId == orderId ensures IsOnTerms(a, k, c[k], terms, boxOfficePricing) {
      assert IsOnTerms(b, k, c[k], terms, boxOfficePricing);
      if k in b && c[k] == b[k].(quantity := c[k].quantity) {
        assert IsOnTerms(a, k, b[k], terms, boxOfficePricing);
        RequantifiedIsNew(b[k], c[k], terms, boxOfficePricing);
      }
    }
  }

  /** Quantities do not matter to what makes a row a new one. */
  lemma RequantifiedIsNew(row: OrderItem, after: OrderItem, terms: Terms, boxOfficePricing: bool)
    requires after == row.(quantity := after.quantity)
    ensures IsNewRow(row, terms, boxOfficePricing) ==> IsNewRow(after, terms, boxOfficePricing)
  {
  }

  /** Rows that are left are as they were. */
  lemma FewerRowsAtPrice(before: map<Id, OrderItem>, after: map<Id, OrderItem>, terms: Terms, boxOfficePricing: bool, orderId: Id)
    requires forall k :: k in after && after[k].itemType == Tickets ==> k in before && before[k] == after[k]
    ensures SoldAtPrice(before, after, terms, boxOfficePricing, orderId)
  {
  }

  lemma RowAtPrice(before: map<Id, OrderItem>, k: Id, row: OrderItem, terms: Terms, boxOfficePricing: bool, orderId: Id)
    requires row.orderId == orderId && IsOnTerms(before, k, row, terms, boxOfficePricing)
    ensures SoldAtPrice(before, before[k := row], terms, boxOfficePricing, orderId)
  {
  }

  /** The line's hold is one there is. */
  ghost predicate HoldIsKnown(line: MappedLine, holds: map<Id, Hold>) {
    match line.hold
    case None => line.holdId.None?
    case Some(hold) => line.holdId == Some(hold.id) && exists h :: h in holds && holds[h] == hold
  }

  ghost predicate HoldsAreKnown(mapped: seq<MappedLine>, holds: map<Id, Hold>) {
    forall i :: 0 <= i < |mapped| ==> HoldIsKnown(mapped[i], holds)
  }

  /** All Tickets rows of the order are sold at the price in force. */
  ghost predicate AllAtPrice(items: map<Id, OrderItem>, pricings: map<(Id, bool), Pricing>, boxOfficePricing: bool, orderId: Id) {
    forall k :: k in items && items[k].itemType == Tickets && items[k].orderId == orderId ==>
      PriceHolds(pricings, boxOfficePricing, items[k])
  }

  /** A cart that was emptied, or in which every price held, has only rows sold at the price in force afterwards. */
  lemma AtPriceStill(before: map<Id, OrderItem>, after: map<Id, OrderItem>, terms: Terms, boxOfficePricing: bool, orderId: Id)
    requires SoldAtPrice(before, after, terms, boxOfficePricing, orderId)
    requires AllAtPrice(before, terms.pricings, boxOfficePricing, orderId)
    ensures AllAtPrice(after, terms.pricings, boxOfficePricing, orderId)
  {
    hide CostsUnder, IsMultiple;
    forall k | k in after && after[k].itemType == Tickets && after[k].orderId == orderId ensures PriceHolds(terms.pricings, boxOfficePricing, after[k]) {
      assert IsOnTerms(before, k, after[k], terms, boxOfficePricing);
    }
  }
}
