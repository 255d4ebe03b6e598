/**
  How often an event fee is charged on an order (db/src/models/orders.rs:720-774): once for each run of consecutive rows
  with the same event and hold that has a priced ticket. The rows of an event come back in any order.
 */
module EventFees {
  import opened Schema
  import opened FeeTheorems
  import opened ItemFees
  import opened OrderFees
  import opened OrderItems
  import opened Sums

  // ------------------------------------------------------------ the fee of every event, once

  /** The fee of an event is what its two parts come to (db/src/models/events.rs:111-118). */
  ghost predicate PartsAddUp(events: map<Id, Event>) {
    forall e :: e in events ==> events[e].feeInCents == events[e].clientFeeInCents + events[e].companyFeeInCents
  }

  /** The events that charge a fee. */
  function FeePrices(events: map<Id, Event>): (prices: map<Id, int>) {
    map e | e in events && 0 < events[e].feeInCents :: events[e].clientFeeInCents + events[e].companyFeeInCents
  }

  /** A ticket for which its event charges a fee: it costs something, and is not under a comp. */
  predicate IsCharging(row: OrderItem, holds: map<Id, Hold>, events: map<Id, Event>) {
    PricedTicket(row) && !IsComp(holds, row.holdId) && row.eventId.Some? && row.eventId.value in FeePrices(events)
  }

  ghost function ChargingEvents(rows: seq<OrderItem>, holds: map<Id, Hold>, events: map<Id, Event>): (ids: set<Id>) {
    set row | row in rows && IsCharging(row, holds, events) :: row.eventId.value
  }

  /** The prices of `ids`, each once. */
  ghost function PricesOf(prices: map<Id, int>, ids: set<Id>): (cents: int) {
    Sum(Selected(prices, ids), Same())
  }

  ghost function Selected(prices: map<Id, int>, ids: set<Id>): (r: map<Id, int>) {
    map e | e in prices && e in ids :: prices[e]
  }

  function Same(): int -> int {
    (x: int) => x
  }

  lemma OneMoreEvent(prices: map<Id, int>, ids: set<Id>, e: Id)
    requires e in prices
    ensures PricesOf(prices, ids + {e}) == PricesOf(prices, ids) + if e in ids then 0 else prices[e]
    ensures PricesOf(prices, ids + {e}) == PricesOf(prices, ids - {e}) + prices[e]
  {
    AddEvent(prices, ids - {e}, e);
    assert ids - {e} + {e} == ids + {e};
    if e in ids {
      assert ids + {e} == ids;
    } else {
      assert ids - {e} == ids;
    }
  }

  lemma AddEvent(prices: map<Id, int>, ids: set<Id>, e: Id)
    requires e in prices && e !in ids
    ensures PricesOf(prices, ids + {e}) == PricesOf(prices, ids) + prices[e]
  {
    SumUpdate(Selected(prices, ids), Same(), e, prices[e]);
    assert Selected(prices, ids + {e}) == Selected(prices, ids)[e := prices[e]];
  }

  lemma ChargingStep(rows: seq<OrderItem>, holds: map<Id, Hold>, events: map<Id, Event>)
    requires rows != []
    ensures ChargingEvents(rows, holds, events)
         == ChargingEvents(rows[1..], holds, events) + if IsCharging(rows[0], holds, events) then {rows[0].eventId.value} else {}
  {
    assert rows == [rows[0]] + rows[1..];
  }

  // ------------------------------------------------------------ no event is charged less than once

  /** The run that is going on has been charged the fee of its event, and the event has more tickets to come. */
  ghost predicate PaidAlready(rows: seq<OrderItem>, prev: Option<OrderItem>, charged: bool, holds: map<Id, Hold>, events: map<Id, Event>) {
    && prev.Some? && charged && !IsComp(holds, prev.value.holdId) && prev.value.eventId.Some?
    && prev.value.eventId.value in ChargingEvents(rows, holds, events)
  }

  /** What the rows must still be charged, if every event is to be charged once. */
  ghost function StillDue(rows: seq<OrderItem>, prev: Option<OrderItem>, charged: bool, holds: map<Id, Hold>, events: map<Id, Event>)
    : (cents: int)
  {
    PricesOf(FeePrices(events), ChargingEvents(rows, holds, events))
      - if PaidAlready(rows, prev, charged, holds, events) then FeePrices(events)[prev.value.eventId.value] else 0
  }

  lemma ChargeOfRow(row: OrderItem, holds: map<Id, Hold>, events: map<Id, Event>)
    ensures IsCharging(row, holds, events) ==> FeeOfRow(row, holds, events) == FeePrices(events)[row.eventId.value]
    ensures PricedTicket(row) && !IsCharging(row, holds, events) ==> FeeOfRow(row, holds, events) == 0
  {
  }

  lemma PricesArePositive(events: map<Id, Event>, e: Id)
    requires PartsAddUp(events) && e in FeePrices(events)
    ensures 0 < FeePrices(events)[e]
  {
  }

  /** What one row adds to what is charged, it takes at most from what is due. */
  lemma DueStep(rows: seq<OrderItem>, prev: Option<OrderItem>, charged: bool, holds: map<Id, Hold>, events: map<Id, Event>)
    requires rows != [] && PartsAddUp(events)
    ensures
      var row := rows[0];
      var already := prev.Some? && SameGroup(prev.value, row) && charged;
      (if PricedTicket(row) && !already then FeeOfRow(row, holds, events) else 0)
        + StillDue(rows[1..], Some(row), already || PricedTicket(row), holds, events) >= StillDue(rows, prev, charged, holds, events)
  {
    var row := rows[0];
    ChargingStep(rows, holds, events);
    ChargeOfRow(row, holds, events);
    var prices, rest := FeePrices(events), ChargingEvents(rows[1..], holds, events);
    if row.eventId.Some? && row.eventId.value in prices {
      OneMoreEvent(prices, rest, row.eventId.value);
      PricesArePositive(events, row.eventId.value);
    }
    if PaidAlready(rows, prev, charged, holds, events) {
      PricesArePositive(events, prev.value.eventId.value);
    }
    assert rest + {} == rest;
    hide PricesOf, FeePrices, ChargingEvents, FeeOfRow;
  }

  lemma {:induction false} ChargedAtLeastOnce(rows: seq<OrderItem>, prev: Option<OrderItem>, charged: bool, holds: map<Id, Hold>,
                                              events: map<Id, Event>)
    requires PartsAddUp(events)
    ensures RunCharges(rows, prev, charged, holds, events) >= StillDue(rows, prev, charged, holds, events)
    decreases |rows|
  {
    if rows == [] {
      assert Selected(FeePrices(events), ChargingEvents([], holds, events)) == map[];
    } else {
      var row := rows[0];
      var already := prev.Some? && SameGroup(prev.value, row) && charged;
      ChargedAtLeastOnce(rows[1..], Some(row), already || PricedTicket(row), holds, events);
      DueStep(rows, prev, charged, holds, events);
    }
  }

  // ------------------------------------------------------------ events charged more than once

  /** At `i` a run with a charging ticket breaks off, and a ticket that is charged for comes up again in the same event. */
  ghost predicate BreaksOff(rows: seq<OrderItem>, i: nat, holds: map<Id, Hold>, events: map<Id, Event>) {
    && i + 1 < |rows| && IsCharging(rows[i], holds, events) && !SameGroup(rows[i], rows[i + 1])
    && rows[i].eventId.value in ChargingEvents(rows[i + 1..], holds, events)
  }

  lemma NewRun(rows: seq<OrderItem>, prev: OrderItem, charged: bool, holds: map<Id, Hold>, events: map<Id, Event>)
    requires rows != [] && !SameGroup(prev, rows[0])
    ensures RunCharges(rows, Some(prev), charged, holds, events) == RunCharges(rows, None, false, holds, events)
  {
  }

  lemma {:induction false} ChargedAgain(rows: seq<OrderItem>, prev: Option<OrderItem>, charged: bool, i: nat, holds: map<Id, Hold>,
                                        events: map<Id, Event>)
    requires PartsAddUp(events) && BreaksOff(rows, i, holds, events)
    ensures RunCharges(rows, prev, charged, holds, events) > StillDue(rows, prev, charged, holds, events)
    decreases |rows|
  {
    var row := rows[0];
    var already := prev.Some? && SameGroup(prev.value, row) && charged;
    if i == 0 {
      var e := row.eventId.value;
      NewRun(rows[1..], row, already || PricedTicket(row), holds, events);
      ChargedAtLeastOnce(rows[1..], None, false, holds, events);
      ChargingStep(rows, holds, events);
      ChargeOfRow(row, holds, events);
      assert ChargingEvents(rows[1..], holds, events) + {e} == ChargingEvents(rows[1..], holds, events);
      PricesArePositive(events, e);
      if PaidAlready(rows, prev, charged, holds, events) {
        PricesArePositive(events, prev.value.eventId.value);
      }
      hide PricesOf, FeePrices, ChargingEvents, FeeOfRow;
    } else {
      assert rows[1..][i - 1] == rows[i] && rows[1..][i] == rows[i + 1] && rows[1..][i..] == rows[i + 1..];
      ChargedAgain(rows[1..], Some(row), already || PricedTicket(row), i - 1, holds, events);
      DueStep(rows, prev, charged, holds, events);
    }
  }

  // ------------------------------------------------------------ events charged exactly once

  /** Two tickets that are charged for, and a third, all with the same event. */
  predicate AreRivals(a: OrderItem, b: OrderItem, x: OrderItem, holds: map<Id, Hold>, events: map<Id, Event>) {
    && IsCharging(a, holds, events) && IsCharging(b, holds, events)
    && a.eventId == b.eventId == x.eventId && x.itemType == Tickets
  }

  /** Two tickets with the same event are charged for: then all tickets of the event are under one hold, or none is under any. */
  ghost predicate OneRunPerEvent(rows: seq<OrderItem>, holds: map<Id, Hold>, events: map<Id, Event>) {
    forall i, j, x :: 0 <= i < j < |rows| && 0 <= x < |rows| && AreRivals(rows[i], rows[j], rows[x], holds, events) ==>
      rows[x].holdId == rows[i].holdId
  }

  /** What has been charged in the run at `n` was charged for a ticket of it. */
  ghost predicate ChargedFor(rows: seq<OrderItem>, n: nat, charged: bool) {
    n <= |rows| && (charged ==> 0 < n && exists i :: 0 <= i < n && PricedTicket(rows[i]) && SameGroup(rows[i], rows[n - 1]))
  }

  function PrevOf(rows: seq<OrderItem>, n: nat): (prev: Option<OrderItem>)
    requires n <= |rows|
  {
    if n == 0 then None else Some(rows[n - 1])
  }

  /** If the run is paid for and the event goes on, the next row is of the same run. */
  lemma RunGoesOn(rows: seq<OrderItem>, n: nat, charged: bool, holds: map<Id, Hold>, events: map<Id, Event>)
    requires Sorted(rows) && (forall i :: 0 <= i < |rows| ==> rows[i].itemType == Tickets && rows[i].eventId.Some?)
    requires OneRunPerEvent(rows, holds, events) && n < |rows| && ChargedFor(rows, n, charged)
    requires PaidAlready(rows[n..], PrevOf(rows, n), charged, holds, events)
    ensures 0 < n && SameGroup(rows[n - 1], rows[n])
  {
    var i :| 0 <= i < n && PricedTicket(rows[i]) && SameGroup(rows[i], rows[n - 1]);
    var row :| row in rows[n..] && IsCharging(row, holds, events) && row.eventId == rows[n - 1].eventId;
    var j :| 0 <= j < |rows[n..]| && rows[n..][j] == row;
    assert rows[n + j] == row && NotAfter(rows[n - 1], rows[n]) && (j > 0 ==> NotAfter(rows[n], rows[n + j]));
    assert rows[n].eventId == rows[n - 1].eventId;
    assert IsCharging(rows[i], holds, events);
    assert AreRivals(rows[i], rows[n + j], rows[n], holds, events);
    assert rows[n].holdId == rows[i].holdId;
  }

  lemma ChargedForNext(rows: seq<OrderItem>, n: nat, charged: bool)
    requires n < |rows| && ChargedFor(rows, n, charged)
    ensures
      var already := n > 0 && SameGroup(rows[n - 1], rows[n]) && charged;
      ChargedFor(rows, n + 1, already || PricedTicket(rows[n]))
  {
    var already := n > 0 && SameGroup(rows[n - 1], rows[n]) && charged;
    if already {
      var i :| 0 <= i < n && PricedTicket(rows[i]) && SameGroup(rows[i], rows[n - 1]);
      assert SameGroup(rows[i], rows[n]);
    } else if PricedTicket(rows[n]) {
      assert SameGroup(rows[n], rows[n]);
    }
  }

  lemma DueStepExact(rows: seq<OrderItem>, prev: Option<OrderItem>, charged: bool, holds: map<Id, Hold>, events: map<Id, Event>)
    requires rows != [] && PartsAddUp(events)
    requires PaidAlready(rows, prev, charged, holds, events) ==> SameGroup(prev.value, rows[0])
    ensures
      var row := rows[0];
      var already := prev.Some? && SameGroup(prev.value, row) && charged;
      (if PricedTicket(row) && !already then FeeOfRow(row, holds, events) else 0)
        + StillDue(rows[1..], Some(row), already || PricedTicket(row), holds, events) == StillDue(rows, prev, charged, holds, events)
  {
    var row := rows[0];
    ChargingStep(rows, holds, events);
    ChargeOfRow(row, holds, events);
    var prices, rest := FeePrices(events), ChargingEvents(rows[1..], holds, events);
    if row.eventId.Some? && row.eventId.value in prices {
      OneMoreEvent(prices, rest, row.eventId.value);
    }
    assert rest + {} == rest;
    EventOfCharging(rows, holds, events);
    EventOfCharging(rows[1..], holds, events);
    hide PricesOf, FeePrices, ChargingEvents, FeeOfRow;
  }

  lemma EventOfCharging(rows: seq<OrderItem>, holds: map<Id, Hold>, events: map<Id, Event>)
    ensures forall e :: e in ChargingEvents(rows, holds, events) ==> e in FeePrices(events)
  {
  }

  lemma {:induction false} ChargedExactlyOnce(rows: seq<OrderItem>, n: nat, charged: bool, holds: map<Id, Hold>, events: map<Id, Event>)
    requires PartsAddUp(events) && Sorted(rows) && (forall i :: 0 <= i < |rows| ==> rows[i].itemType == Tickets && rows[i].eventId.Some?)
    requires n <= |rows| && OneRunPerEvent(rows, holds, events) && ChargedFor(rows, n, charged)
    ensures RunCharges(rows[n..], PrevOf(rows, n), charged, holds, events) == StillDue(rows[n..], PrevOf(rows, n), charged, holds, events)
    decreases |rows| - n
  {
    hide OneRunPerEvent, Sorted, ChargedFor, StillDue, PaidAlready, FeeOfRow;
    if n == |rows| {
      NothingDue(PrevOf(rows, n), charged, holds, events);
    } else {
      var already := n > 0 && SameGroup(rows[n - 1], rows[n]) && charged;
      assert rows[n..][0] == rows[n] && rows[n..][1..] == rows[n + 1..];
      if PaidAlready(rows[n..], PrevOf(rows, n), charged, holds, events) {
        RunGoesOn(rows, n, charged, holds, events);
      }
      ChargedForNext(rows, n, charged);
      ChargedExactlyOnce(rows, n + 1, already || PricedTicket(rows[n]), holds, events);
      DueStepExact(rows[n..], PrevOf(rows, n), charged, holds, events);
    }
  }

  lemma NothingDue(prev: Option<OrderItem>, charged: bool, holds: map<Id, Hold>, events: map<Id, Event>)
    ensures StillDue([], prev, charged, holds, events) == 0
  {
    assert Selected(FeePrices(events), ChargingEvents([], holds, events)) == map[];
  }

  // ------------------------------------------------------------ the rows of an order, in every permitted order

  /** A row goes wherever the rows before it may come before it, and those after it after. */
  lemma InsertAt(rows: seq<OrderItem>, items: map<Id, OrderItem>, orderId: Id, k: Id, n: nat)
    requires k in items && items[k].id == k && items[k].orderId == orderId && n <= |rows|
    requires AreRowsOf(rows, items - {k}, orderId)
    requires forall i :: 0 <= i < n ==> NotAfter(rows[i], items[k])
    requires forall i :: n <= i < |rows| ==> NotAfter(items[k], rows[i])
    ensures AreRowsOf(rows[..n] + [items[k]] + rows[n..], items, orderId)
  {
    var more := rows[..n] + [items[k]] + rows[n..];
    forall i | 0 <= i < |more| ensures more[i] == (if i < n then rows[i] else if i == n then items[k] else rows[i - 1]) {
    }
    assert Sorted(more) && DistinctIds(more);
    IdsOfInserted(rows, items[k], n);
    assert ItemsOf(items, orderId) == ItemsOf(items - {k}, orderId) + {k};
  }

  lemma IdsOfInserted(rows: seq<OrderItem>, row: OrderItem, n: nat)
    requires n <= |rows|
    ensures Ids(rows[..n] + [row] + rows[n..]) == Ids(rows) + {row.id}
  {
    var more := rows[..n] + [row] + rows[n..];
    assert rows == rows[..n] + rows[n..];
    forall r ensures r in more <==> r in rows || r == row {
    }
  }

  /** Where a row belongs: behind all rows it need not come before. */
  lemma PlaceOf(rows: seq<OrderItem>, row: OrderItem) returns (n: nat)
    requires Sorted(rows)
    ensures n <= |rows|
    ensures forall i :: 0 <= i < n ==> NotAfter(rows[i], row)
    ensures forall i :: n <= i < |rows| ==> NotAfter(row, rows[i])
  {
    n := 0;
    while n < |rows| && NotAfter(rows[n], row)
      invariant n <= |rows|
      invariant forall i :: 0 <= i < n ==> NotAfter(rows[i], row)
    {
      n := n + 1;
    }
    if n < |rows| {
      forall i | n <= i < |rows| ensures NotAfter(row, rows[i]) {
        assert NotAfter(row, rows[n]) && (i > n ==> NotAfter(rows[n], rows[i]));
      }
    }
  }

  /** There is always some order the rows may come back in. */
  lemma {:induction false} SomeListing(items: map<Id, OrderItem>, orderId: Id) returns (rows: seq<OrderItem>)
    requires Keyed(items)
    ensures AreRowsOf(rows, items, orderId)
    decreases |items|
  {
    if k :| k in ItemsOf(items, orderId) {
      var fewer := SomeListing(items - {k}, orderId);
      var n := PlaceOf(fewer, items[k]);
      InsertAt(fewer, items, orderId, k, n);
      rows := fewer[..n] + [items[k]] + fewer[n..];
    } else {
      rows := [];
    }
  }

  /** Tickets of one event may come back right behind one another, in this order. */
  lemma TwoInARow(items: map<Id, OrderItem>, orderId: Id, k: Id, j: Id) returns (rows: seq<OrderItem>, n: nat)
    requires Keyed(items) && k in items && j in items && k != j
    requires items[k].orderId == items[j].orderId == orderId && items[k].itemType == items[j].itemType == Tickets
    requires items[k].eventId == items[j].eventId
    ensures AreRowsOf(rows, items, orderId) && n + 1 < |rows| && rows[n] == items[k] && rows[n + 1] == items[j]
  {
    var rest := SomeListing(items - {j} - {k}, orderId);
    n := PlaceOf(rest, items[k]);
    InsertAt(rest, items - {j}, orderId, k, n);
    var more := rest[..n] + [items[k]] + rest[n..];
    PlaceBehind(rest, items[k], items[j], n);
    InsertAt(more, items, orderId, j, n + 1);
    rows := more[..n + 1] + [items[j]] + more[n + 1..];
  }

  /** Rows of the same event and type have the same place. */
  lemma PlaceBehind(rest: seq<OrderItem>, a: OrderItem, b: OrderItem, n: nat)
    requires n <= |rest| && a.eventId == b.eventId && a.itemType == b.itemType
    requires forall i :: 0 <= i < n ==> NotAfter(rest[i], a)
    requires forall i :: n <= i < |rest| ==> NotAfter(a, rest[i])
    ensures
      var more := rest[..n] + [a] + rest[n..];
      (forall i :: 0 <= i < n + 1 ==> NotAfter(more[i], b)) && (forall i :: n + 1 <= i < |more| ==> NotAfter(b, more[i]))
  {
    var more := rest[..n] + [a] + rest[n..];
    forall i | 0 <= i < |more| ensures more[i] == (if i < n then rest[i] else if i == n then a else rest[i - 1]) {
    }
  }

  lemma ThreeInARow(items: map<Id, OrderItem>, orderId: Id, k: Id, x: Id, j: Id) returns (rows: seq<OrderItem>, n: nat)
    requires Keyed(items) && k in items && x in items && j in items && k != j && k != x && j != x
    requires items[k].orderId == items[j].orderId == items[x].orderId == orderId
    requires items[k].itemType == items[j].itemType == items[x].itemType == Tickets
    requires items[k].eventId == items[j].eventId == items[x].eventId
    ensures AreRowsOf(rows, items, orderId) && n + 2 < |rows|
    ensures rows[n] == items[k] && rows[n + 1] == items[x] && rows[n + 2] == items[j]
  {
    var rest := SomeListing(items - {j} - {x} - {k}, orderId);
    n := PlaceOf(rest, items[k]);
    InsertAt(rest, items - {j} - {x}, orderId, k, n);
    var one := rest[..n] + [items[k]] + rest[n..];
    PlaceBehind(rest, items[k], items[x], n);
    InsertAt(one, items - {j}, orderId, x, n + 1);
    var two := one[..n + 1] + [items[x]] + one[n + 1..];
    PlaceBehind(one, items[x], items[j], n + 1);
    InsertAt(two, items, orderId, j, n + 2);
    rows := two[..n + 2] + [items[j]] + two[n + 2..];
  }

  // ------------------------------------------------------------ the condition, on the table

  predicate IsChargingItem(items: map<Id, OrderItem>, orderId: Id, k: Id, holds: map<Id, Hold>, events: map<Id, Event>) {
    k in items && items[k].orderId == orderId && IsCharging(items[k], holds, events)
  }

  ghost function ChargingEventsOf(items: map<Id, OrderItem>, orderId: Id, holds: map<Id, Hold>, events: map<Id, Event>): (ids: set<Id>) {
    set k | k in items && IsChargingItem(items, orderId, k, holds, events) :: items[k].eventId.value
  }

  /** The fee of every event for which some ticket of the order is charged, once. */
  ghost function FeesOnce(items: map<Id, OrderItem>, orderId: Id, holds: map<Id, Hold>, events: map<Id, Event>): (cents: int) {
    PricesOf(FeePrices(events), ChargingEventsOf(items, orderId, holds, events))
  }

  /**
    Every event has at most one ticket in the order for which it charges, or all of its tickets there, comps and free ones
    included, are under the same hold or under none.
   */
  ghost predicate OneHoldPerEvent(items: map<Id, OrderItem>, orderId: Id, holds: map<Id, Hold>, events: map<Id, Event>) {
    forall k, j, x :: AreRivalItems(items, orderId, k, j, x, holds, events) ==> items[x].holdId == items[k].holdId
  }

  predicate AreRivalItems(items: map<Id, OrderItem>, orderId: Id, k: Id, j: Id, x: Id, holds: map<Id, Hold>, events: map<Id, Event>) {
    && k in items && j in items && x in items && k != j
    && items[k].orderId == items[j].orderId == items[x].orderId == orderId
    && AreRivals(items[k], items[j], items[x], holds, events)
  }

  lemma RowOfListing(rows: seq<OrderItem>, items: map<Id, OrderItem>, orderId: Id, k: Id)
    requires AreRowsOf(rows, items, orderId)
    ensures k in items && items[k].orderId == orderId ==> items[k].id in Ids(rows) || items[k].id != k
    ensures k in items && items[k].orderId == orderId && items[k].id == k ==> items[k] in rows
  {
    if k in items && items[k].orderId == orderId {
      assert k in Ids(rows);
    }
  }

  lemma RowsAreOfOrder(rows: seq<OrderItem>, items: map<Id, OrderItem>, orderId: Id)
    requires AreRowsOf(rows, items, orderId)
    ensures forall row :: row in rows ==> row.id in items && items[row.id] == row && row.orderId == orderId
  {
    forall row | row in rows ensures row.id in items && items[row.id] == row && row.orderId == orderId {
      assert row.id in Ids(rows);
    }
  }

  lemma ChargingOfListing(rows: seq<OrderItem>, items: map<Id, OrderItem>, orderId: Id, holds: map<Id, Hold>, events: map<Id, Event>)
    requires AreRowsOf(rows, items, orderId) && Keyed(items)
    ensures ChargingEvents(Evented(rows), holds, events) == ChargingEventsOf(items, orderId, holds, events)
  {
    RowsAreOfOrder(rows, items, orderId);
    forall row | row in Evented(rows) && IsCharging(row, holds, events) ensures IsChargingItem(items, orderId, row.id, holds, events) {
    }
    forall k | IsChargingItem(items, orderId, k, holds, events) ensures items[k] in Evented(rows) {
      RowOfListing(rows, items, orderId, k);
    }
    assert forall e :: e in ChargingEvents(Evented(rows), holds, events) ==> e in ChargingEventsOf(items, orderId, holds, events);
  }

  /** Whatever order the rows come back in, no event is charged less than once. */
  lemma NeverLessThanOnce(items: map<Id, OrderItem>, orderId: Id, rows: seq<OrderItem>, holds: map<Id, Hold>, events: map<Id, Event>)
    requires AreRowsOf(rows, items, orderId) && Keyed(items) && PartsAddUp(events)
    ensures EventCharges(Evented(rows), holds, events) >= FeesOnce(items, orderId, holds, events)
  {
    ChargesRunByRun(Evented(rows), holds, events);
    ChargedAtLeastOnce(Evented(rows), None, false, holds, events);
    ChargingOfListing(rows, items, orderId, holds, events);
  }

  // ------------------------------------------------------------ the condition suffices

  lemma {:induction false} TicketRowsAreTickets(rows: seq<OrderItem>)
    ensures forall row :: row in TicketRows(rows) <==> row in rows && row.itemType == Tickets
    ensures Sorted(rows) ==> Sorted(TicketRows(rows))
    ensures DistinctIds(rows) ==> DistinctIds(TicketRows(rows))
  {
    if rows != [] {
      TicketRowsAreTickets(rows[1..]);
      assert rows == [rows[0]] + rows[1..];
      hide Sorted, DistinctIds;
      if Sorted(rows) {
        SortedFromFirst(rows, TicketRows(rows[1..]));
      }
      if DistinctIds(rows) {
        DistinctFromFirst(rows, TicketRows(rows[1..]));
      }
    }
  }

  lemma SortedFromFirst(rows: seq<OrderItem>, some: seq<OrderItem>)
    requires rows != [] && Sorted(rows) && forall row :: row in some ==> row in rows[1..]
    ensures Sorted(rows[1..]) && (Sorted(some) ==> Sorted([rows[0]] + some))
  {
    forall i | 0 <= i < |some| ensures NotAfter(rows[0], some[i]) {
      assert some[i] in rows[1..];
    }
  }

  lemma DistinctFromFirst(rows: seq<OrderItem>, some: seq<OrderItem>)
    requires rows != [] && DistinctIds(rows) && forall row :: row in some ==> row in rows[1..]
    ensures DistinctIds(rows[1..]) && (DistinctIds(some) ==> DistinctIds([rows[0]] + some))
  {
    forall i | 0 <= i < |some| ensures rows[0].id != some[i].id {
      assert some[i] in rows[1..];
    }
  }

  lemma ChargingTickets(rows: seq<OrderItem>, holds: map<Id, Hold>, events: map<Id, Event>)
    ensures ChargingEvents(TicketRows(rows), holds, events) == ChargingEvents(rows, holds, events)
  {
    TicketRowsAreTickets(rows);
    forall row | row in rows && IsCharging(row, holds, events) ensures row in TicketRows(rows) {
    }
  }

  lemma OneRunOfTickets(items: map<Id, OrderItem>, orderId: Id, rows: seq<OrderItem>, holds: map<Id, Hold>, events: map<Id, Event>)
    requires AreRowsOf(rows, items, orderId) && OneHoldPerEvent(items, orderId, holds, events)
    ensures OneRunPerEvent(TicketRows(Evented(rows)), holds, events)
  {
    var tickets := TicketRows(Evented(rows));
    TicketRowsAreTickets(Evented(rows));
    RowsAreOfOrder(rows, items, orderId);
    hide OneHoldPerEvent, IsCharging;
    forall i, j, x | 0 <= i < j < |tickets| && 0 <= x < |tickets| && AreRivals(tickets[i], tickets[j], tickets[x], holds, events)
      ensures tickets[x].holdId == tickets[i].holdId
    {
      assert tickets[i] in rows && tickets[j] in rows && tickets[x] in rows;
      RivalsShareHold(items, orderId, tickets[i].id, tickets[j].id, tickets[x].id, holds, events);
    }
  }

  lemma RivalsShareHold(items: map<Id, OrderItem>, orderId: Id, k: Id, j: Id, x: Id, holds: map<Id, Hold>, events: map<Id, Event>)
    requires OneHoldPerEvent(items, orderId, holds, events) && AreRivalItems(items, orderId, k, j, x, holds, events)
    ensures items[x].holdId == items[k].holdId
  {
  }

  lemma OnceInEveryOrder(items: map<Id, OrderItem>, orderId: Id, rows: seq<OrderItem>, holds: map<Id, Hold>, events: map<Id, Event>)
    requires AreRowsOf(rows, items, orderId) && Keyed(items) && PartsAddUp(events) && OneHoldPerEvent(items, orderId, holds, events)
    ensures EventCharges(Evented(rows), holds, events) == FeesOnce(items, orderId, holds, events)
  {
    var tickets := TicketRows(Evented(rows));
    EventChargesOfTickets(rows, holds, events);
    EventedIsSorted(rows);
    TicketRowsAreTickets(Evented(rows));
    assert forall i :: 0 <= i < |tickets| ==> tickets[i] in tickets;
    OneRunOfTickets(items, orderId, rows, holds, events);
    assert tickets[0..] == tickets;
    ChargedExactlyOnce(tickets, 0, false, holds, events);
    ChargingTickets(Evented(rows), holds, events);
    ChargingOfListing(rows, items, orderId, holds, events);
  }

  // ------------------------------------------------------------ the condition is needed

  lemma {:induction false} EventedOfAppend(a: seq<OrderItem>, b: seq<OrderItem>)
    ensures Evented(a + b) == Evented(a) + Evented(b)
  {
    if b == [] {
      assert a + b == a;
    } else {
      assert (a + b)[..|a + b| - 1] == a + b[..|b| - 1];
      EventedOfAppend(a, b[..|b| - 1]);
    }
  }

  lemma {:induction false} AllEvented(rows: seq<OrderItem>)
    requires forall row :: row in rows ==> row.eventId.Some?
    ensures Evented(rows) == rows
  {
    if rows != [] {
      var front, last := rows[..|rows| - 1], rows[|rows| - 1];
      assert rows == front + [last];
      assert last in rows && forall row :: row in front ==> row in rows;
      AllEvented(front);
    }
  }

  lemma BreaksOffInside(front: seq<OrderItem>, middle: seq<OrderItem>, back: seq<OrderItem>, holds: map<Id, Hold>, events: map<Id, Event>)
    requires |middle| in {2, 3} && IsCharging(middle[0], holds, events) && !SameGroup(middle[0], middle[1])
    requires exists i :: 1 <= i < |middle| && IsCharging(middle[i], holds, events) && middle[i].eventId == middle[0].eventId
    ensures BreaksOff(front + middle + back, |front|, holds, events)
  {
    var all, n := front + middle + back, |front|;
    var i :| 1 <= i < |middle| && IsCharging(middle[i], holds, events) && middle[i].eventId == middle[0].eventId;
    assert all[n] == middle[0] && all[n + 1] == middle[1] && all[n + 1..][i - 1] == middle[i];
    assert middle[i] in all[n + 1..];
  }

  /** A listing with tickets in such places that the event of the first is charged again. */
  lemma OverchargedBy(items: map<Id, OrderItem>, orderId: Id, rows: seq<OrderItem>, front: seq<OrderItem>, middle: seq<OrderItem>,
                      back: seq<OrderItem>, holds: map<Id, Hold>, events: map<Id, Event>)
    requires AreRowsOf(rows, items, orderId) && Keyed(items) && PartsAddUp(events) && rows == front + middle + back
    requires |middle| in {2, 3} && forall row :: row in middle ==> row.eventId.Some?
    requires IsCharging(middle[0], holds, events) && !SameGroup(middle[0], middle[1])
    requires exists i :: 1 <= i < |middle| && IsCharging(middle[i], holds, events) && middle[i].eventId == middle[0].eventId
    ensures EventCharges(Evented(rows), holds, events) > FeesOnce(items, orderId, holds, events)
  {
    hide AreRowsOf, Evented, EventCharges, BreaksOff, PricesOf, RunCharges, IsCharging, PartsAddUp;
    var evented := Evented(rows);
    EventedOfAppend(front + middle, back);
    EventedOfAppend(front, middle);
    AllEvented(middle);
    var n := |Evented(front)|;
    BreaksOffInside(Evented(front), middle, Evented(back), holds, events);
    ChargesRunByRun(evented, holds, events);
    ChargedAgain(evented, None, false, n, holds, events);
    ChargingOfListing(rows, items, orderId, holds, events);
  }

  lemma SplitAt(rows: seq<OrderItem>, n: nat, m: nat)
    requires n + m <= |rows|
    ensures rows == rows[..n] + rows[n..n + m] + rows[n + m..]
  {
    assert rows[..n] + rows[n..n + m] == rows[..n + m];
  }

  lemma SomeOrderOvercharges(items: map<Id, OrderItem>, orderId: Id, holds: map<Id, Hold>, events: map<Id, Event>)
    returns (rows: seq<OrderItem>)
    requires Keyed(items) && PartsAddUp(events) && !OneHoldPerEvent(items, orderId, holds, events)
    ensures AreRowsOf(rows, items, orderId)
    ensures EventCharges(Evented(rows), holds, events) > FeesOnce(items, orderId, holds, events)
  {
    var k, j, x :| AreRivalItems(items, orderId, k, j, x, holds, events) && items[x].holdId != items[k].holdId;
    var n;
    if items[k].holdId != items[j].holdId {
      rows, n := TwoInARow(items, orderId, k, j);
      var middle := rows[n..n + 2];
      assert middle == [items[k], items[j]] && IsCharging(middle[1], holds, events);
      SplitAt(rows, n, 2);
      hide IsCharging, OneHoldPerEvent, AreRowsOf;
      OverchargedBy(items, orderId, rows, rows[..n], middle, rows[n + 2..], holds, events);
    } else {
      rows, n := ThreeInARow(items, orderId, k, x, j);
      var middle := rows[n..n + 3];
      assert middle == [items[k], items[x], items[j]] && IsCharging(middle[2], holds, events);
      SplitAt(rows, n, 3);
      hide IsCharging, OneHoldPerEvent, AreRowsOf;
      OverchargedBy(items, orderId, rows, rows[..n], middle, rows[n + 3..], holds, events);
    }
  }

  /**
    Every event charges its fee once on an order, whatever order the rows come back in, exactly when each has at most one
    ticket there to charge for, or all of its tickets there are under the same hold or under none.
   */
  lemma EventFeesOnceIffOneHold(items: map<Id, OrderItem>, orderId: Id, holds: map<Id, Hold>, events: map<Id, Event>)
    requires Keyed(items) && PartsAddUp(events)
    ensures OneHoldPerEvent(items, orderId, holds, events) <==>
      forall rows :: AreRowsOf(rows, items, orderId) ==>
        EventCharges(Evented(rows), holds, events) == FeesOnce(items, orderId, holds, events)
  {
    if OneHoldPerEvent(items, orderId, holds, events) {
      forall rows | AreRowsOf(rows, items, orderId)
        ensures EventCharges(Evented(rows), holds, events) == FeesOnce(items, orderId, holds, events)
      {
        OnceInEveryOrder(items, orderId, rows, holds, events);
      }
    } else {
      var rows := SomeOrderOvercharges(items, orderId, holds, events);
    }
  }

  lemma OnlyEventFeesGo(items: map<Id, OrderItem>, orderId: Id, holds: map<Id, Hold>, events: map<Id, Event>, k: Id)
    ensures IsChargingItem(WithoutEventFees(items, orderId), orderId, k, holds, events) <==> IsChargingItem(items, orderId, k, holds, events)
    ensures k in WithoutEventFees(items, orderId) ==> k in items && WithoutEventFees(items, orderId)[k] == items[k]
    ensures k in items && items[k].itemType == Tickets ==> k in WithoutEventFees(items, orderId)
  {
  }

  lemma SameCharging(items: map<Id, OrderItem>, orderId: Id, holds: map<Id, Hold>, events: map<Id, Event>)
    ensures ChargingEventsOf(WithoutEventFees(items, orderId), orderId, holds, events) == ChargingEventsOf(items, orderId, holds, events)
  {
    var base := WithoutEventFees(items, orderId);
    hide WithoutEventFees, IsChargingItem;
    forall k: Id ensures IsChargingItem(base, orderId, k, holds, events) <==> IsChargingItem(items, orderId, k, holds, events)
      ensures k in base ==> k in items && base[k] == items[k]
      ensures IsChargingItem(items, orderId, k, holds, events) ==> k in base
    {
      OnlyEventFeesGo(items, orderId, holds, events, k);
      ChargingIsThere(base, orderId, k, holds, events);
    }
  }

  lemma ChargingIsThere(items: map<Id, OrderItem>, orderId: Id, k: Id, holds: map<Id, Hold>, events: map<Id, Event>)
    ensures IsChargingItem(items, orderId, k, holds, events) ==> k in items
  {
  }

  lemma SameRivals(items: map<Id, OrderItem>, orderId: Id, holds: map<Id, Hold>, events: map<Id, Event>)
    ensures OneHoldPerEvent(WithoutEventFees(items, orderId), orderId, holds, events) <==> OneHoldPerEvent(items, orderId, holds, events)
  {
    var base := WithoutEventFees(items, orderId);
    forall k: Id, j: Id, x: Id
      ensures AreRivalItems(base, orderId, k, j, x, holds, events) <==> AreRivalItems(items, orderId, k, j, x, holds, events)
    {
      OnlyEventFeesGo(items, orderId, holds, events, k);
      OnlyEventFeesGo(items, orderId, holds, events, j);
      OnlyEventFeesGo(items, orderId, holds, events, x);
    }
    hide AreRivalItems;
    if OneHoldPerEvent(items, orderId, holds, events) {
      forall k: Id, j: Id, x: Id | AreRivalItems(base, orderId, k, j, x, holds, events) ensures
        k in base && x in base && base[x].holdId == base[k].holdId
      {
        RivalsAreThere(base, orderId, k, j, x, holds, events);
        RivalsShareHold(items, orderId, k, j, x, holds, events);
      }
    }
    if OneHoldPerEvent(base, orderId, holds, events) {
      forall k: Id, j: Id, x: Id | AreRivalItems(items, orderId, k, j, x, holds, events) ensures
        k in items && x in items && items[x].holdId == items[k].holdId
      {
        RivalsAreThere(base, orderId, k, j, x, holds, events);
        RivalsShareHold(base, orderId, k, j, x, holds, events);
      }
    }
  }

  lemma RivalsAreThere(items: map<Id, OrderItem>, orderId: Id, k: Id, j: Id, x: Id, holds: map<Id, Hold>, events: map<Id, Event>)
    requires AreRivalItems(items, orderId, k, j, x, holds, events)
    ensures k in items && j in items && x in items
  {
  }

  /** What `update_fees` leaves an order to pay in event fees: each at least once, and exactly once under the condition. */
  lemma EventFeesAfterUpdate(before: map<Id, OrderItem>, after: map<Id, OrderItem>, nextId: Id, rows: seq<OrderItem>, orderId: Id,
                             ticketTypes: map<Id, TicketType>, holds: map<Id, Hold>, events: map<Id, Event>)
    requires FeesUpdated(before, after, nextId, rows, orderId, ticketTypes, holds, events) && Keyed(before) && PartsAddUp(events)
    ensures EventFeeTotal(after, orderId) >= FeesOnce(before, orderId, holds, events)
    ensures OneHoldPerEvent(before, orderId, holds, events) ==> EventFeeTotal(after, orderId) == FeesOnce(before, orderId, holds, events)
  {
    var base := WithoutEventFees(before, orderId);
    assert Keyed(base);
    hide Settling, FeesOnce, OneHoldPerEvent, AreRowsOf, EventCharges;
    SameFeesOnce(before, orderId, holds, events);
    NeverLessThanOnce(base, orderId, rows, holds, events);
    if OneHoldPerEvent(before, orderId, holds, events) {
      OnceInEveryOrder(base, orderId, rows, holds, events);
    }
  }

  lemma SameFeesOnce(items: map<Id, OrderItem>, orderId: Id, holds: map<Id, Hold>, events: map<Id, Event>)
    ensures FeesOnce(WithoutEventFees(items, orderId), orderId, holds, events) == FeesOnce(items, orderId, holds, events)
    ensures OneHoldPerEvent(WithoutEventFees(items, orderId), orderId, holds, events) <==> OneHoldPerEvent(items, orderId, holds, events)
  {
    SameCharging(items, orderId, holds, events);
    SameRivals(items, orderId, holds, events);
  }

  // ------------------------------------------------------------ an order that is charged differently

  // Three tickets of event 4 costing 10 each; the event charges 5. The second is under hold 6, a discount.
  function SplitRow(id: Id, holdId: Option<Id>): OrderItem {
    OrderItem(id, 7, Tickets, Some(3), Some(4), 1, 10, None, None, holdId, 0, 0, 0)
  }

  function SplitItems(): map<Id, OrderItem> {
    map[1 := SplitRow(1, None), 2 := SplitRow(2, Some(6)), 3 := SplitRow(3, None)]
  }

  lemma SplitOrder(rows: seq<OrderItem>, i: Id, j: Id, k: Id)
    requires {i, j, k} == {1, 2, 3} && i != j && j != k && i != k
    requires rows == [SplitItems()[i], SplitItems()[j], SplitItems()[k]]
    ensures AreRowsOf(rows, SplitItems(), 7)
  {
    assert Ids(rows) == {i, j, k} by {
      hide Sorted, DistinctIds;
      assert rows[0] in rows && rows[1] in rows && rows[2] in rows;
    }
    assert ItemsOf(SplitItems(), 7) == {1, 2, 3};
    hide Ids, ItemsOf;
  }

  /** Two permitted row orders of one table, charged two and three event fees. */
  lemma EventFeesDependOnRowOrder(holds: map<Id, Hold>, events: map<Id, Event>)
    requires 6 in holds && holds[6].holdType == Discount
    requires 4 in events && events[4].feeInCents == 5 && events[4].clientFeeInCents + events[4].companyFeeInCents == 5
    ensures
      var a, b, c := SplitRow(1, None), SplitRow(2, Some(6)), SplitRow(3, None);
      && AreRowsOf([a, c, b], SplitItems(), 7) && AreRowsOf([a, b, c], SplitItems(), 7)
      && EventCharges([a, c, b], holds, events) == 10
      && EventCharges([a, b, c], holds, events) == 15
  {
    var a, b, c := SplitRow(1, None), SplitRow(2, Some(6)), SplitRow(3, None);
    SplitOrder([a, c, b], 1, 3, 2);
    SplitOrder([a, b, c], 1, 2, 3);
    hide AreRowsOf, EventCharges;
    ChargesRunByRun([a, c, b], holds, events);
    ChargesRunByRun([a, b, c], holds, events);
    assert [a, c, b][1..] == [c, b] && [c, b][1..] == [b] && [b][1..] == [];
    assert [a, b, c][1..] == [b, c] && [b, c][1..] == [c] && [c][1..] == [];
    assert RunCharges([b], Some(c), true, holds, events) == 5;
    assert RunCharges([c], Some(b), true, holds, events) == 5;
    assert RunCharges([c, b], Some(a), true, holds, events) == 5;
    assert RunCharges([b, c], Some(a), true, holds, events) == 10;
  }
}
