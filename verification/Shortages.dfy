/**
  By how much carts are oversold when rows are raised at a price that has changed (db/src/models/orders.rs:516-583): exactly by
  the quantities of those rows, and over any run by nothing else.
 */
module Shortages {
  import opened Schema
  import opened Cart
  import opened CartLines
  import opened Inventory
  import opened OrderItems
  import opened RaisedRows
  import opened Requests
  import opened Runs
  import opened RunTheorems
  import opened Sales
  import opened Sets
  import opened Sums
  import opened TicketInstances

  // ------------------------------------------------------------ a row and its twin

  /** In a live cart, the raised row and the new one together hold the requested number of tickets, less what the raised row lacked before. */
  lemma TogetherTheyHold(w: World, row: OrderItem, quantity: int, k: Id)
    requires Inv(w) && IsTwin(w.items, row, quantity, k) && row.itemType == Tickets && Short(w.history, k) == row.quantity
    requires row.orderId in w.orders && Live(w.orders[row.orderId], w.now)
    ensures |Linked(w.tickets, k)| == quantity - row.quantity
    ensures |Linked(w.tickets, row.id)| + |Linked(w.tickets, k)| == quantity - Short(w.history, row.id)
  {
    FrameKeys(w, k);
    assert ItemOk(w, row.id) && ItemOk(w, k);
    hide Frame, Linked, LostBy;
  }

  // ------------------------------------------------------------ a cart and its tickets

  /** The tickets rows of the order ask for. */
  function Asked(o: Id): OrderItem -> int {
    (item: OrderItem) => if item.orderId == o && item.itemType == Tickets then item.quantity else 0
  }

  /** What Tickets rows of the order are on record as short of. */
  function ShortIn(repriced: map<Id, int>, o: Id): OrderItem -> int {
    (item: OrderItem) => if item.orderId == o && item.itemType == Tickets && item.id in repriced then repriced[item.id] else 0
  }

  ghost function HeldBy(w: World, o: Id): OrderItem -> int {
    (item: OrderItem) => if item.orderId == o && item.itemType == Tickets then |Linked(w.tickets, item.id)| else 0
  }

  /** The tickets linked to rows of the order among `items`. */
  ghost function TicketsOf(w: World, items: set<Id>, o: Id): (rows: set<Id>) {
    set i: Id | i < |w.tickets| && w.tickets[i].orderItemId.Some? && w.tickets[i].orderItemId.value in items
                && w.tickets[i].orderItemId.value in w.items && w.items[w.tickets[i].orderItemId.value].orderId == o
  }

  lemma TicketsOfRow(w: World, items: set<Id>, o: Id, k: Id)
    requires Inv(w) && k in items && k in w.items
    ensures |TicketsOf(w, items, o)| == |TicketsOf(w, items - {k}, o)| + HeldBy(w, o)(w.items[k])
  {
    FrameKeys(w, k);
    assert LinksOk(w);
    hide Frame;
    var mine := if w.items[k].orderId == o && w.items[k].itemType == Tickets then Linked(w.tickets, k) else {};
    assert TicketsOf(w, items, o) == TicketsOf(w, items - {k}, o) + mine;
    DisjointUnionSize(TicketsOf(w, items - {k}, o), mine);
  }

  lemma {:induction false} HeldTickets(w: World, items: map<Id, OrderItem>, o: Id)
    requires Inv(w) && forall k :: k in items ==> k in w.items && items[k] == w.items[k]
    ensures Sum(items, HeldBy(w, o)) == |TicketsOf(w, items.Keys, o)|
    decreases |items|
  {
    hide Inv, HeldBy;
    if k :| k in items {
      SumSplit(items, HeldBy(w, o), k);
      HeldTickets(w, items - {k}, o);
      TicketsOfRow(w, items.Keys, o, k);
      assert (items - {k}).Keys == items.Keys - {k};
    } else {
      assert TicketsOf(w, items.Keys, o) == {};
    }
  }

  /** What the rows of a live order ask for is what they hold, and what they are short of. */
  lemma AskedIsHeldOrShort(w: World, o: Id)
    requires Inv(w) && o in w.orders && Live(w.orders[o], w.now)
    ensures Sum(w.items, Asked(o)) == |TicketsOf(w, w.items.Keys, o)| + Sum(w.items, ShortIn(w.history.repriced, o))
  {
    HeldTickets(w, w.items, o);
    forall k | k in w.items ensures Asked(o)(w.items[k]) == HeldBy(w, o)(w.items[k]) + ShortIn(w.history.repriced, o)(w.items[k]) {
      FrameKeys(w, k);
      if w.items[k].orderId == o && w.items[k].itemType == Tickets {
        assert ItemOk(w, k);
      }
    }
    hide Inv, HeldBy, Asked, ShortIn;
    SumOfParts(w.items, HeldBy(w, o), ShortIn(w.history.repriced, o), Asked(o));
  }

  /** The quantities of the rows that have twins. */
  function RaisedQuantity(rows: seq<OrderItem>, twins: seq<Option<Id>>): (quantity: int)
    requires |twins| <= |rows|
  {
    if twins == [] then 0
    else
      var n := |twins| - 1;
      RaisedQuantity(rows, twins[..n]) + if twins[n].Some? then rows[n].quantity else 0
  }

  /** The contribution of one twin. */
  function OfTwin(k: Id, quantity: int): OrderItem -> int {
    (item: OrderItem) => if item.id == k then quantity else 0
  }

  lemma SumOfTwin(items: map<Id, OrderItem>, k: Id, quantity: int)
    requires Keyed(items) && k in items
    ensures Sum(items, OfTwin(k, quantity)) == quantity
  {
    SumSplit(items, OfTwin(k, quantity), k);
    SumZero(items - {k}, OfTwin(k, quantity));
  }

  /** Each twin adds the quantity of its row to what the order is short of. */
  lemma {:induction false} TwinsAreShort(repriced: map<Id, int>, items: map<Id, OrderItem>, rows: seq<OrderItem>, twins: seq<Option<Id>>, o: Id)
    requires Keyed(items) && |twins| <= |rows| && InTurn(twins)
    requires forall i :: 0 <= i < |twins| && twins[i].Some? ==>
      var k := twins[i].value;
      k in items && k !in repriced && items[k].orderId == o && items[k].itemType == Tickets
    ensures Sum(items, ShortIn(ShortBy(repriced, rows, twins), o)) == Sum(items, ShortIn(repriced, o)) + RaisedQuantity(rows, twins)
  {
    if twins != [] {
      var n := |twins| - 1;
      var earlier := twins[..n];
      TwinsAreShort(repriced, items, rows, earlier, o);
      if twins[n].Some? {
        var k := twins[n].value;
        ShortKeys(repriced, rows, earlier);
        assert Some(k) !in earlier;
        var before, after := ShortBy(repriced, rows, earlier), ShortBy(repriced, rows, twins);
        assert after == before[k := rows[n].quantity] && k !in before;
        SumOfTwin(items, k, rows[n].quantity);
        SumOfParts(items, ShortIn(before, o), OfTwin(k, rows[n].quantity), ShortIn(after, o));
      }
    }
  }

  // ------------------------------------------------------------ what a cart update leaves

  lemma TwinsAreRowsOf(s: Shop, s': Shop, request: Request, pricings: map<(Id, bool), Pricing>, self: Order, wanted: seq<MappedLine>,
                       rows: seq<OrderItem>, twins: seq<Option<Id>>, i: nat)
    requires RaisesBeside(s, s', request, pricings, self, wanted, rows, twins) && Frame(s.world)
    requires i < |twins| && twins[i].Some?
    ensures request.UpdateCart?
    ensures rows[i].id in s.world.items && s.world.items[rows[i].id] == rows[i] && rows[i].orderId == self.id && rows[i].itemType == Tickets
    ensures IsRowOfCart(s.world, s.users, request.userId, rows[i].id, request.boxOfficePricing)
    ensures !PriceHolds(pricings, request.boxOfficePricing, rows[i])
    ensures IsTwin(s'.world.items, rows[i], Requested(wanted, rows, i), twins[i].value) && s.world.nextId <= twins[i].value
    ensures exists n :: 0 <= n < |request.items| && RaisesRow(request.items[n], rows[i]) && request.items[n].quantity == Requested(wanted, rows, i)
  {
    assert HasTwin(s'.world.items, s.world.nextId, pricings, request.boxOfficePricing, wanted, rows, i, twins[i]);
    hide AreTwins, HasTwin, PriceHolds, IsTwin;
    RaisedRowIsOfCart(s.world, s.users, request.userId, self, request.boxOfficePricing, rows, rows[i]);
    var left := TakenByAll(wanted, rows[..i]);
    TakenByAllOnlyTakes(wanted, rows[..i]);
    assert left[MatchOf(left, rows[i]).value].item == request.items[MatchOf(left, rows[i]).value];
  }

  lemma RaisedRowIsOfCart(w: World, users: map<Id, User>, userId: Id, self: Order, boxOfficePricing: bool, rows: seq<OrderItem>, row: OrderItem)
    requires Frame(w) && IsCartFor(w, users, userId, self) && AreMerged(rows, w.items, self, boxOfficePricing)
    requires row in rows && row.itemType == Tickets
    ensures row.id in w.items && w.items[row.id] == row && row.orderId == self.id
    ensures IsRowOfCart(w, users, userId, row.id, boxOfficePricing)
  {
    RowIsStored(rows, w.items, self, row, boxOfficePricing);
    assert ItemsHaveOrders(w);
    FrameKeys(w, row.id);
  }

  /**
    A cart whose rows had what they asked for before asks afterwards for exactly so many tickets more than it holds, as the rows
    have that were raised at a price that has changed.
   */
  lemma OversoldByRaisedRows(s: Shop, s': Shop, request: Request, pricings: map<(Id, bool), Pricing>, self: Order,
                             wanted: seq<MappedLine>, rows: seq<OrderItem>, twins: seq<Option<Id>>)
    requires RaisesBeside(s, s', request, pricings, self, wanted, rows, twins) && Frame(s.world) && Inv(s'.world)
    requires self.id in s'.world.orders && Live(s'.world.orders[self.id], s'.world.now)
    ensures Sum(s'.world.items, Asked(self.id)) - |TicketsOf(s'.world, s'.world.items.Keys, self.id)|
         == Sum(s'.world.items, ShortIn(s.world.history.repriced, self.id)) + RaisedQuantity(rows, twins)
  {
    AskedIsHeldOrShort(s'.world, self.id);
    assert HistoryOk(s.world);
    forall i | 0 <= i < |twins| && twins[i].Some?
      ensures twins[i].value in s'.world.items && twins[i].value !in s.world.history.repriced
      ensures s'.world.items[twins[i].value].orderId == self.id && s'.world.items[twins[i].value].itemType == Tickets
    {
      TwinsAreRowsOf(s, s', request, pricings, self, wanted, rows, twins, i);
    }
    KeysAreIds(s'.world);
    hide Frame, Inv, HasTwin, IsTwin;
    TwinsAreShort(s.world.history.repriced, s'.world.items, rows, twins, self.id);
  }

  lemma KeysAreIds(w: World)
    requires Inv(w)
    ensures Keyed(w.items)
  {
  }

  // ------------------------------------------------------------ over a run

  /**
    The request, a cart update, raised row `r` of the user's cart at a price that has changed, and left item `k` beside it,
    which is short by the quantity of the row. Together they hold what was asked for, less what the row lacked before.
   */
  ghost predicate Shorted(s: Shop, s': Shop, request: Request, pricings: map<(Id, bool), Pricing>, r: Id, k: Id) {
    && request.UpdateCart? && r in s.world.items && k in s'.world.items
    && IsRowOfCart(s.world, s.users, request.userId, r, request.boxOfficePricing)
    && !PriceHolds(pricings, request.boxOfficePricing, s.world.items[r])
    && IsTwin(s'.world.items, s.world.items[r], s'.world.items[k].quantity, k)
    && Short(s'.world.history, k) == s.world.items[r].quantity
    && (exists n :: 0 <= n < |request.items| && RaisesRow(request.items[n], s.world.items[r])
                    && request.items[n].quantity == s'.world.items[k].quantity)
    && (IsLiveItem(s'.world, k) ==>
          |Linked(s'.world.tickets, r)| + |Linked(s'.world.tickets, k)| == s'.world.items[k].quantity - Short(s'.world.history, r))
  }

  /** The `i`-th request of the run did. */
  ghost predicate ShortedAt(trace: seq<Shop>, requests: seq<Request>, moments: seq<Moment>, i: nat, r: Id, k: Id)
    requires i < |requests| == |moments| && |trace| == |requests| + 1
  {
    Shorted(At(trace[i], moments[i].now), trace[i + 1], requests[i], moments[i].pricings, r, k)
  }

  lemma RaiseShorts(s: Shop, s': Shop, request: Request, pricings: map<(Id, bool), Pricing>, self: Order, wanted: seq<MappedLine>,
                    rows: seq<OrderItem>, twins: seq<Option<Id>>, k: Id)
    requires RaisesBeside(s, s', request, pricings, self, wanted, rows, twins) && Frame(s.world) && Inv(s'.world)
    requires k in s'.world.history.repriced && k !in s.world.history.repriced
    ensures exists r :: Shorted(s, s', request, pricings, r, k)
  {
    hide Frame, Inv, RaisesBeside, PriceHolds, IsRowOfCart, Linked, Requested;
    var i := NewShortageIsATwin(s, s', request, pricings, self, wanted, rows, twins, k);
    TwinsAreRowsOf(s, s', request, pricings, self, wanted, rows, twins, i);
    FrameKeys(s.world, rows[i].id);
    if IsLiveItem(s'.world, k) {
      TogetherTheyHold(s'.world, rows[i], Requested(wanted, rows, i), k);
    }
    assert Shorted(s, s', request, pricings, rows[i].id, k);
  }

  lemma StepShortsExactly(s: Shop, s': Shop, request: Request, moment: Moment)
    requires Served(s, s', request, moment)
    ensures s' == At(s, moment.now) || ShortsExactly(At(s, moment.now), s', request, moment.pricings)
  {
    hide BooksOk, Remembers, RowsStand, CartsAtPrice, NumberingKept, OrdersAdvance, PaymentsStand, MayReprice, MeetsNegativePrice, OutgrowsTokens;
  }

  lemma NewShortageIsATwin(s: Shop, s': Shop, request: Request, pricings: map<(Id, bool), Pricing>, self: Order, wanted: seq<MappedLine>,
                           rows: seq<OrderItem>, twins: seq<Option<Id>>, k: Id) returns (i: nat)
    requires RaisesBeside(s, s', request, pricings, self, wanted, rows, twins)
    requires k in s'.world.history.repriced && k !in s.world.history.repriced
    ensures i < |twins| == |rows| && twins[i] == Some(k) && Short(s'.world.history, k) == rows[i].quantity
  {
    hide HasTwin, IsCartFor, AreMerged, IsMapping;
    ShortKeys(s.world.history.repriced, rows, twins);
    i :| i < |twins| && twins[i] == Some(k);
    ShortOfTwin(s.world.history.repriced, rows, twins, i);
  }

  lemma ShortagesComeFromRaises(trace: seq<Shop>, requests: seq<Request>, moments: seq<Moment>, i: nat, k: Id)
    requires IsRunOf(trace, requests, moments) && i + 1 < |trace|
    requires k in trace[i + 1].world.history.repriced && k !in trace[i].world.history.repriced
    ensures |trace| == |requests| + 1 && |moments| == |requests|
    ensures exists r :: ShortedAt(trace, requests, moments, i, r, k)
  {
    hide IsRunOf, Served, Inv, Remembers;
    RunStep(trace, requests, moments, i);
    StepShortsExactly(trace[i], trace[i + 1], requests[i], moments[i]);
    var s, s', request, pricings := At(trace[i], moments[i].now), trace[i + 1], requests[i], moments[i].pricings;
    OnlyCartsShort(s.world, s'.world, KindOf(request), k);
    var self, wanted, rows, twins :| RaisesBeside(s, s', request, pricings, self, wanted, rows, twins);
    FrameAtAnyTime(trace[i].world, moments[i].now);
    RaiseShorts(s, s', request, pricings, self, wanted, rows, twins, k);
    var r :| Shorted(s, s', request, pricings, r, k);
    assert ShortedAt(trace, requests, moments, i, r, k);
  }

  lemma FrameAtAnyTime(w: World, now: Time)
    requires Inv(w)
    ensures Frame(w.(now := now))
  {
  }

  lemma OnlyCartsShort(w: World, after: World, kind: Kind, k: Id)
    requires Remembers(w, after, kind) && k in after.history.repriced && k !in w.history.repriced
    ensures kind.ForCarts?
  {
  }

  /** Over any run, whatever an item is short of, some cart update left it short of in this way. */
  lemma {:induction false} EveryShortageHasACause(trace: seq<Shop>, requests: seq<Request>, moments: seq<Moment>, j: nat, k: Id)
    requires IsRunOf(trace, requests, moments) && j < |trace|
    requires k in trace[j].world.history.repriced && k !in trace[0].world.history.repriced
    ensures |trace| == |requests| + 1 && |moments| == |requests|
    ensures exists i, r :: 0 <= i < j && ShortedAt(trace, requests, moments, i, r, k)
                           && Short(trace[j].world.history, k) == Short(trace[i + 1].world.history, k)
  {
    hide IsRunOf, Served, Inv, Remembers, ShortedAt, Short;
    if j > 0 {
      RunStep(trace, requests, moments, j - 1);
      if k in trace[j - 1].world.history.repriced {
        EveryShortageHasACause(trace, requests, moments, j - 1, k);
        StaysShort(At(trace[j - 1], moments[j - 1].now).world, trace[j].world, KindOf(requests[j - 1]), k);
      } else {
        ShortagesComeFromRaises(trace, requests, moments, j - 1, k);
      }
    }
  }

  lemma StaysShort(w: World, after: World, kind: Kind, k: Id)
    requires Remembers(w, after, kind) && k in w.history.repriced
    ensures Short(after.history, k) == Short(w.history, k)
  {
  }
}
