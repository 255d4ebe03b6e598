/** Rows of `order_items` (db/src/models/order_items.rs), except for their fees. */
module OrderItems {
  import opened Schema
  import opened Sums

  // ------------------------------------------------------------ what the table always satisfies

  /** Rows carry their own key. */
  ghost predicate Keyed(items: map<Id, OrderItem>) {
    forall k :: k in items ==> items[k].id == k
  }

  predicate IsFeeOf(fee: OrderItem, itemId: Id) {
    fee.parentId == Some(itemId) && fee.itemType == PerUnitFees
  }

  /** A fee row sits in the order of the row it is charged for. */
  ghost predicate FeesFollowParents(items: map<Id, OrderItem>) {
    forall f, k :: f in items && k in items && IsFeeOf(items[f], k) ==>
      items[f].orderId == items[k].orderId && items[k].itemType == Tickets
  }

  ghost predicate OneFeeEach(items: map<Id, OrderItem>) {
    forall f, g, k :: f in items && g in items && IsFeeOf(items[f], k) && IsFeeOf(items[g], k) ==> f == g
  }

  ghost predicate Bounded(items: map<Id, OrderItem>) {
    forall k :: k in items ==> 0 <= items[k].refundedQuantity <= items[k].quantity
  }

  ghost predicate BoundedIn(items: map<Id, OrderItem>, orderId: Id) {
    forall k :: k in items && items[k].orderId == orderId ==> 0 <= items[k].refundedQuantity <= items[k].quantity
  }

  ghost predicate NonNegativePrices(items: map<Id, OrderItem>) {
    forall k :: k in items ==> 0 <= items[k].unitPriceInCents
  }

  // ------------------------------------------------------------ reading

  /** What `item` still contributes to the total of `orderId`. */
  function Due(orderId: Id): OrderItem -> int {
    (item: OrderItem) =>
      if item.orderId == orderId then item.unitPriceInCents * (item.quantity - item.refundedQuantity) else 0
  }

  ghost function OrderTotal(items: map<Id, OrderItem>, orderId: Id): (cents: int) {
    Sum(items, Due(orderId))
  }

  lemma TotalIsNonNegative(items: map<Id, OrderItem>, orderId: Id)
    requires Bounded(items) && NonNegativePrices(items)
    ensures 0 <= OrderTotal(items, orderId)
  {
    SumNonNegative(items, Due(orderId));
  }

  /** `ORDER BY event_id ASC, item_type ASC`; NULL event ids sort last. */
  predicate NotAfter(a: OrderItem, b: OrderItem) {
    match (a.eventId, b.eventId)
    case (None, None) => TypeRank(a.itemType) <= TypeRank(b.itemType)
    case (None, Some(_)) => false
    case (Some(_), None) => true
    case (Some(x), Some(y)) => x < y || (x == y && TypeRank(a.itemType) <= TypeRank(b.itemType))
  }

  function TypeRank(t: OrderItemType): nat {
    match t
    case EventFees => 0
    case PerUnitFees => 1
    case Tickets => 2
  }

  ghost predicate Sorted(rows: seq<OrderItem>) {
    forall i, j :: 0 <= i < j < |rows| ==> NotAfter(rows[i], rows[j])
  }

  ghost predicate DistinctIds(rows: seq<OrderItem>) {
    forall i, j :: 0 <= i < j < |rows| ==> rows[i].id != rows[j].id
  }

  ghost function Ids(rows: seq<OrderItem>): (ids: set<Id>) {
    set row | row in rows :: row.id
  }

  ghost function ItemsOf(items: map<Id, OrderItem>, orderId: Id): (ids: set<Id>) {
    set k | k in items && items[k].orderId == orderId
  }

  /** The rows of an order, each once, in a permitted order. Ties may come out either way. */
  ghost predicate AreRowsOf(rows: seq<OrderItem>, items: map<Id, OrderItem>, orderId: Id) {
    && (forall i :: 0 <= i < |rows| ==> rows[i].id in items && items[rows[i].id] == rows[i])
    && DistinctIds(rows)
    && Ids(rows) == ItemsOf(items, orderId)
    && Sorted(rows)
  }

  method FindForOrder(conn: Connection, orderId: Id) returns (rows: seq<OrderItem>)
    requires Keyed(conn.orderItems)
    ensures AreRowsOf(rows, conn.orderItems, orderId)
    ensures forall i, j :: 0 <= i < j < |rows| && rows[i].eventId == rows[j].eventId ==>
      && (rows[j].itemType == EventFees ==> rows[i].itemType == EventFees)
      && (rows[i].itemType == Tickets ==> rows[j].itemType == Tickets)
  {
    rows := [];
    var left := conn.orderItems.Keys;
    while left != {}
      invariant left <= conn.orderItems.Keys
      invariant forall i :: 0 <= i < |rows| ==>
        rows[i].id in conn.orderItems && conn.orderItems[rows[i].id] == rows[i] && rows[i].id !in left
      invariant DistinctIds(rows) && Sorted(rows)
      invariant Ids(rows) == ItemsOf(conn.orderItems, orderId) - left
      decreases left
    {
      var k :| k in left;
      left := left - {k};
      if conn.orderItems[k].orderId == orderId {
        ghost var before := rows;
        rows := InsertSorted(rows, conn.orderItems[k]);
        assert forall i :: 0 <= i < |rows| ==> rows[i] in before || rows[i] == conn.orderItems[k];
      }
    }
  }

  function InsertAt(rows: seq<OrderItem>, i: nat, row: OrderItem): (r: seq<OrderItem>)
    requires i <= |rows|
    ensures |r| == |rows| + 1
    ensures forall j :: 0 <= j < |r| ==> r[j] == if j < i then rows[j] else if j == i then row else rows[j - 1]
  {
    rows[..i] + [row] + rows[i..]
  }

  lemma InsertAtMembers(rows: seq<OrderItem>, i: nat, row: OrderItem)
    requires i <= |rows|
    ensures forall x :: x in InsertAt(rows, i, row) <==> x in rows || x == row
    ensures Ids(InsertAt(rows, i, row)) == Ids(rows) + {row.id}
  {
    var r := InsertAt(rows, i, row);
    forall x ensures x in r <==> x in rows || x == row {
      if x in rows {
        var j :| 0 <= j < |rows| && rows[j] == x;
        assert r[if j < i then j else j + 1] == x;
      }
      assert r[i] == row;
    }
  }

  lemma InsertAtDistinct(rows: seq<OrderItem>, i: nat, row: OrderItem)
    requires i <= |rows| && DistinctIds(rows) && row.id !in Ids(rows)
    ensures DistinctIds(InsertAt(rows, i, row))
  {
    assert forall j :: 0 <= j < |rows| ==> rows[j].id in Ids(rows);
  }

  lemma InsertAtSorted(rows: seq<OrderItem>, i: nat, row: OrderItem)
    requires i <= |rows| && Sorted(rows)
    requires forall j :: 0 <= j < i ==> NotAfter(rows[j], row)
    requires forall j :: i <= j < |rows| ==> NotAfter(row, rows[j])
    ensures Sorted(InsertAt(rows, i, row))
  {
  }

  method InsertSorted(rows: seq<OrderItem>, row: OrderItem) returns (r: seq<OrderItem>)
    requires Sorted(rows) && DistinctIds(rows) && row.id !in Ids(rows)
    ensures Sorted(r) && DistinctIds(r) && Ids(r) == Ids(rows) + {row.id}
    ensures forall x :: x in r <==> x in rows || x == row
  {
    var i := |rows|;
    while 0 < i && !NotAfter(rows[i - 1], row)
      invariant 0 <= i <= |rows|
      invariant forall j :: i <= j < |rows| ==> NotAfter(row, rows[j])
    {
      i := i - 1;
    }
    if 0 < i {
      EarlierRowsNotAfter(rows, i, row);
    }
    InsertAtMembers(rows, i, row);
    InsertAtDistinct(rows, i, row);
    InsertAtSorted(rows, i, row);
    r := InsertAt(rows, i, row);
  }

  lemma EarlierRowsNotAfter(rows: seq<OrderItem>, i: nat, row: OrderItem)
    requires Sorted(rows) && 0 < i <= |rows| && NotAfter(rows[i - 1], row)
    ensures forall j :: 0 <= j < i ==> NotAfter(rows[j], row)
  {
    forall j | 0 <= j < i ensures NotAfter(rows[j], row) {
      if j < i - 1 {
        assert NotAfter(rows[j], rows[i - 1]);
      }
    }
  }
}
