/**
  Concurrent updates of one cart (db/src/models/orders.rs:437-698, 1159-1178): the version that `update_quantities` locks
  is the stamp of a compare-and-set on the rows of the cart.
 */
module CartLocking {
  import opened Schema
  import opened Cart
  import opened CartLines
  import opened CartSteps
  import opened Inventory
  import opened OptimisticLocking
  import opened OrderFees
  import opened OrderItems
  import opened RaisedRows
  import opened Sums

  /** What a version of a cart stands for. */
  datatype Contents = Contents(boxOfficePricing: bool, rows: map<Id, OrderItem>)

  /** An update, with the prices and the holds it finds when it runs. */
  datatype Update = Update(items: seq<UpdateOrderItem>, boxOfficePricing: bool, removeOthers: bool,
                           pricings: map<(Id, bool), Pricing>, holds: map<Id, Hold>)

  function RowsOf(items: map<Id, OrderItem>, orderId: Id): (rows: map<Id, OrderItem>) {
    map k | k in items && items[k].orderId == orderId :: items[k]
  }

  ghost function ContentsOf(conn: Connection, orderId: Id): (c: Contents)
    requires orderId in conn.orders
    reads conn
  {
    Contents(conn.orders[orderId].boxOfficePricing, RowsOf(conn.orderItems, orderId))
  }

  ghost predicate IsUpdateBy(orderId: Id, q: Update, c: Contents, c': Contents, wanted: seq<MappedLine>, rows: seq<OrderItem>) {
    && c'.boxOfficePricing == q.boxOfficePricing && IsMapping(q.items, wanted, q.holds)
    && (if q.boxOfficePricing == c.boxOfficePricing then AreRowsOf(rows, c.rows, orderId)
        else forall row :: row in rows ==> row.itemType != Tickets)
    && Lines(c'.rows, orderId) == Pending(wanted) + KeptLines(q.pricings, q.boxOfficePricing, wanted, rows, q.removeOthers)
  }

  /** What an update makes of the cart it has read. */
  ghost function UpdatesCart(orderId: Id): (effect: Effect<Contents, Update>) {
    (q, c, c') => exists wanted, rows :: IsUpdateBy(orderId, q, c, c', wanted, rows)
  }

  lemma LinesOfRows(items: map<Id, OrderItem>, orderId: Id)
    ensures Lines(RowsOf(items, orderId), orderId) == Lines(items, orderId)
  {
    GatherShared(RowsOf(items, orderId), items, LineOf(orderId));
  }

  lemma ListingOfRows(rows: seq<OrderItem>, items: map<Id, OrderItem>, orderId: Id)
    requires AreRowsOf(rows, items, orderId)
    ensures AreRowsOf(rows, RowsOf(items, orderId), orderId)
  {
    assert ItemsOf(RowsOf(items, orderId), orderId) == ItemsOf(items, orderId);
    forall i | 0 <= i < |rows| ensures rows[i].id in RowsOf(items, orderId) {
      assert rows[i] in rows && rows[i].id in Ids(rows);
    }
  }

  /**
    `self` is the order as the request read it, however long ago. If the update goes through, it is one commit of the
    protocol: the version was still the one that was read, and what was made of the cart was made of what that version held.
   */
  method UpdateUnderLock(conn: Connection, self: Order, q: Update, ghost s: State<Contents, Update>, ghost id: Id, ghost first: int)
    returns (r: Result<()>, ghost s': State<Contents, Update>, ghost cart: Order, ghost wanted: seq<MappedLine>, ghost rows: seq<OrderItem>,
             ghost cleared: seq<OrderItem>, ghost done: World)
    requires Inventory.Inv(WorldOf(conn)) && self.id in conn.orders && SchedulesAscend(conn.ticketTypes)
    requires conn.orders[self.id].version == self.version ==> IsCart(WorldOf(conn), self)
    requires q.pricings == conn.pricings && q.holds == conn.holds
    requires OptimisticLocking.Inv(s, UpdatesCart(self.id)) && Versions(s, first)
    requires s.row == Stamped(conn.orders[self.id].version, ContentsOf(conn, self.id))
    requires id in s.open_ && s.open_[id].request == q && s.open_[id].seen.stamp == self.version
    modifies conn`orders, conn`orderItems, conn`tickets, conn`nextId, conn`history
    ensures r.Ok? ==>
      && Inventory.Inv(WorldOf(conn)) && self.id in conn.orders
      && Commits(s, s', id, self.version + 1, UpdatesCart(self.id)) && Versions(s', first)
      && s'.row == Stamped(conn.orders[self.id].version, ContentsOf(conn, self.id))
    ensures r.Ok? ==> Updated(old(WorldOf(conn)), WorldOf(conn), self, cart, wanted, q.boxOfficePricing, q.removeOthers)
    ensures r.Ok? <==>
      && old(CanPrepare(conn, self, q.items, cleared)) && old(CanSell(conn, wanted, rows, cleared, q.boxOfficePricing, q.removeOthers))
      && CanFinish(conn, done, Opened(self, q.boxOfficePricing, conn.now), RaisedTypes(wanted, rows) + AddedTypes(TakenByAll(wanted, rows)))
    ensures s.row.stamp != self.version ==> r.Err?
  {
    hide Inventory.Inv, Lines, Pending, KeptLines, NoneRepriced, IsMapping, AreRowsOf, Undisturbed, FeesUpdated, SoldAtPrice, AllAtPrice,
      RaisedTypes, AddedTypes, TakenByAll, WithinLimit, NoMatch, KeepsItem, IsSerial, RowsOf, AreTwins, CanPrepare, CanSell,
      CanFinish;
    s' := s;
    ghost var items := conn.orderItems;
    var updated, cart', wanted', rows', _, cleared', done', _ := UpdateQuantities(conn, self, q.items, q.boxOfficePricing, q.removeOthers);
    r, cart, wanted, rows, cleared, done := updated, cart', wanted', rows', cleared', done';
    if r.Ok? {
      ghost var contents := ContentsOf(conn, self.id);
      LinesOfRows(conn.orderItems, self.id);
      if q.boxOfficePricing == self.boxOfficePricing {
        ListingOfRows(rows, items, self.id);
      }
      assert IsUpdateBy(self.id, q, s.row.content, contents, wanted, rows);
      s' := State(Stamped(self.version + 1, contents), s.open_ - {id}, s.stamps + {self.version + 1}, s.committed + [q],
                  s.contents + [contents]);
    }
  }
}
