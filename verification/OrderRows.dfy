/** Inserting and deleting rows of `order_items` (db/src/models/order_items.rs, orders.rs). */
module OrderRows {
  import opened Schema
  import opened OrderItems

  /** Ids are handed out once, children are fees, and fees hang off tickets of the same order. */
  ghost predicate Structured(items: map<Id, OrderItem>, nextId: Id) {
    && Keyed(items)
    && (forall k :: k in items ==> k < nextId)
    && (forall k :: k in items ==> (items[k].parentId.Some? <==> items[k].itemType == PerUnitFees))
    && (forall k :: k in items && items[k].parentId.Some? ==>
          && items[k].parentId.value in items
          && items[items[k].parentId.value].itemType == Tickets
          && items[items[k].parentId.value].orderId == items[k].orderId)
    && (forall k :: k in items && items[k].itemType == Tickets ==> items[k].ticketTypeId.Some?)
  }

  function Children(items: map<Id, OrderItem>, k: Id): (ids: set<Id>) {
    set f | f in items && items[f].parentId == Some(k)
  }

  /** The table without a row and its children. */
  function Without(items: map<Id, OrderItem>, k: Id): (r: map<Id, OrderItem>) {
    items - ({k} + Children(items, k))
  }

  /** Whether a foreign key still points at one of `ids`. */
  predicate Referenced(items: map<Id, OrderItem>, tickets: seq<Ticket>, records: seq<RefundedTicket>, ids: set<Id>) {
    || (exists t :: t in tickets && t.orderItemId.Some? && t.orderItemId.value in ids)
    || (exists r :: r in records && r.orderItemId in ids)
    || (exists k :: k in items && k !in ids && items[k].parentId.Some? && items[k].parentId.value in ids)
  }

  /** A ticket or a record of a refund names the row. */
  predicate IsNamed(tickets: seq<Ticket>, records: seq<RefundedTicket>, k: Id) {
    || (exists t :: t in tickets && t.orderItemId == Some(k))
    || (exists r :: r in records && r.orderItemId == k)
  }

  /** Rows of fees have no children: to go, it is enough that nothing names them. */
  lemma FeesAreReferencedIfNamed(items: map<Id, OrderItem>, nextId: Id, tickets: seq<Ticket>, records: seq<RefundedTicket>, f: Id)
    requires Structured(items, nextId) && f in items && items[f].itemType != Tickets
    ensures Children(items, f) == {}
    ensures Referenced(items, tickets, records, {f} + Children(items, f)) <==> IsNamed(tickets, records, f)
  {
    assert Children(items, f) == {};
  }

  /** `Order::destroy_item`: the row and its children, unless the order is past Draft or something refers to them. */
  method DestroyItem(conn: Connection, self: Order, itemId: Id) returns (r: Result<()>)
    modifies conn`orderItems
    ensures r.Ok? <==>
      && self.status == Draft
      && !Referenced(old(conn.orderItems), conn.tickets, conn.refundedTickets, {itemId} + Children(old(conn.orderItems), itemId))
    ensures r.Ok? ==> conn.orderItems == Without(old(conn.orderItems), itemId)
    ensures r.Err? ==> unchanged(conn)
  {
    if self.status != Draft {
      return Err(BusinessProcessError);
    }
    var doomed := {itemId} + Children(conn.orderItems, itemId);
    if Referenced(conn.orderItems, conn.tickets, conn.refundedTickets, doomed) {
      return Err(ForeignKeyError);
    }
    conn.orderItems := conn.orderItems - doomed;
    return Ok(());
  }

  lemma WithoutStaysStructured(items: map<Id, OrderItem>, nextId: Id, k: Id)
    requires Structured(items, nextId)
    ensures Structured(Without(items, k), nextId)
  {
  }

  method InsertItem(conn: Connection, row: OrderItem) returns (inserted: OrderItem)
    modifies conn`orderItems, conn`nextId
    ensures inserted == row.(id := old(conn.nextId))
    ensures conn.orderItems == old(conn.orderItems)[inserted.id := inserted]
    ensures conn.nextId == old(conn.nextId) + 1
  {
    inserted := row.(id := conn.nextId);
    conn.orderItems := conn.orderItems[inserted.id := inserted];
    conn.nextId := conn.nextId + 1;
  }

  lemma InsertStaysStructured(items: map<Id, OrderItem>, nextId: Id, row: OrderItem)
    requires Structured(items, nextId) && row.id == nextId
    requires row.parentId.Some? <==> row.itemType == PerUnitFees
    requires row.parentId.Some? ==>
      row.parentId.value in items && items[row.parentId.value].itemType == Tickets
      && items[row.parentId.value].orderId == row.orderId
    requires row.itemType == Tickets ==> row.ticketTypeId.Some?
    ensures Structured(items[nextId := row], nextId + 1)
  {
  }

  lemma StructuredIsKeyed(items: map<Id, OrderItem>, nextId: Id)
    requires Structured(items, nextId)
    ensures Keyed(items) && FeesFollowParents(items)
  {
  }
}
