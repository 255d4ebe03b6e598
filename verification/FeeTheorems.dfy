/** What `update_fees` achieves, and that doing it twice is doing it once. */
module FeeTheorems {
  import opened Schema
  import opened FeeSchedules
  import opened ItemFees
  import opened OrderFees
  import opened OrderItems
  import opened OrderRows
  import opened Sums

  // ------------------------------------------------------------ per-unit fees

  /** The tickets `update_fees` charges fees for. */
  predicate Chargeable(item: OrderItem, orderId: Id, holds: map<Id, Hold>) {
    item.orderId == orderId && item.itemType == Tickets && item.eventId.Some? && !IsComp(holds, item.holdId)
  }

  lemma ChargeableAreCharged(rows: seq<OrderItem>, base: map<Id, OrderItem>, orderId: Id, holds: map<Id, Hold>, k: Id)
    requires AreRowsOf(rows, base, orderId) && k in base
    ensures k in ChargedIds(Evented(rows), holds) <==> Chargeable(base[k], orderId, holds)
  {
    if base[k].orderId == orderId {
      assert k in Ids(rows);
    }
    forall row | row in rows ensures row.id in base && base[row.id] == row && row.orderId == orderId {
      assert row.id in Ids(rows);
    }
  }

  /**
    Every chargeable ticket row has exactly one fee row, for the quantity of the ticket row and at the rate of the
    greatest threshold not above its price; it has none when its price is below every threshold.
   */
  lemma TicketsHaveTheFeeTheirPriceCallsFor(before: map<Id, OrderItem>, after: map<Id, OrderItem>, nextId: Id, rows: seq<OrderItem>,
                                            orderId: Id, ticketTypes: map<Id, TicketType>, holds: map<Id, Hold>,
                                            events: map<Id, Event>, k: Id)
    requires FeesUpdated(before, after, nextId, rows, orderId, ticketTypes, holds, events)
    requires k in before && Chargeable(before[k], orderId, holds) && Keyed(before)
    ensures k in after && after[k] == before[k] && before[k].ticketTypeId.Some? && before[k].ticketTypeId.value in ticketTypes
    ensures
      var ranges := ticketTypes[before[k].ticketTypeId.value].feeRanges;
      if Covered(ranges, before[k].unitPriceInCents) then
        exists f, range ::
          && IsApplicable(ranges, before[k].unitPriceInCents, range)
          && f in after && IsFeeOf(after[f], k) && (forall g :: g in after && IsFeeOf(after[g], k) ==> g == f)
          && after[f].quantity == before[k].quantity && after[f].unitPriceInCents == range.feeInCents
      else
        NoFee(after, k)
  {
    var base := WithoutEventFees(before, orderId);
    assert k in base && base[k] == before[k];
    ChargeableAreCharged(rows, base, orderId, holds, k);
    var ranges := ticketTypes[before[k].ticketTypeId.value].feeRanges;
    TicketsAreAsInBase(base, after, nextId, ChargedIds(Evented(rows), holds), orderId, ticketTypes, k);
    assert ItemSettled(base, after, k, ticketTypes);
    assert OneFeeEach(after);
    hide Settling, EventFeeTotal, AreRowsOf, Keyed;
    if Covered(ranges, before[k].unitPriceInCents) {
      var f, range :| IsApplicable(ranges, before[k].unitPriceInCents, range) && IsFeeRow(base, after, f, base[k], range);
    }
  }

  /** A hold that becomes a comp afterwards keeps charging the fees it already has: its groups are skipped whole. */
  lemma CompsKeepTheirFees(before: map<Id, OrderItem>, after: map<Id, OrderItem>, nextId: Id, rows: seq<OrderItem>,
                           orderId: Id, ticketTypes: map<Id, TicketType>, holds: map<Id, Hold>,
                           events: map<Id, Event>, k: Id, f: Id)
    requires FeesUpdated(before, after, nextId, rows, orderId, ticketTypes, holds, events)
    requires k in before && Keyed(before) && before[k].orderId == orderId && before[k].itemType == Tickets
    requires IsComp(holds, before[k].holdId)
    requires f in before && IsFeeOf(before[f], k)
    ensures f in after && after[f] == before[f]
  {
    var base := WithoutEventFees(before, orderId);
    ChargeableAreCharged(rows, base, orderId, holds, k);
    assert f in base;
  }

  /** An updated fee row keeps the company and client parts it was inserted with, whatever range applies now. */
  lemma FeePartsAddUpOnlyAtTheOldRate(before: map<Id, OrderItem>, after: map<Id, OrderItem>, f: Id, item: OrderItem, range: FeeScheduleRange)
    requires IsFeeRow(before, after, f, item, range) && f in before
    ensures after[f].companyFeeInCents == before[f].companyFeeInCents && after[f].clientFeeInCents == before[f].clientFeeInCents
    ensures after[f].unitPriceInCents == after[f].companyFeeInCents + after[f].clientFeeInCents
       <==> range.feeInCents == before[f].companyFeeInCents + before[f].clientFeeInCents
  {
  }

  // ------------------------------------------------------------ event fees, run by run

  /** The fee of the event of a row, if it charges one and the row is not a comp's. */
  function FeeOfRow(row: OrderItem, holds: map<Id, Hold>, events: map<Id, Event>): (cents: int) {
    if row.eventId.None? || row.eventId.value !in events then 0
    else
      var event := events[row.eventId.value];
      if !IsComp(holds, row.holdId) && 0 < event.feeInCents then event.clientFeeInCents + event.companyFeeInCents else 0
  }

  /** Charges row by row: a run of equal keys is charged when its first priced ticket comes up. */
  function RunCharges(rows: seq<OrderItem>, prev: Option<OrderItem>, charged: bool, holds: map<Id, Hold>, events: map<Id, Event>)
    : (cents: int)
  {
    if rows == [] then 0
    else
      var row := rows[0];
      var already := prev.Some? && SameGroup(prev.value, row) && charged;
      (if PricedTicket(row) && !already then FeeOfRow(row, holds, events) else 0)
        + RunCharges(rows[1..], Some(row), already || PricedTicket(row), holds, events)
  }

  lemma {:induction false} RunOfOneGroup(rows: seq<OrderItem>, j: nat, charged: bool, holds: map<Id, Hold>, events: map<Id, Event>)
    requires rows != [] && 0 < j <= GroupLength(rows)
    ensures
      var n := GroupLength(rows);
      RunCharges(rows[j..], Some(rows[j - 1]), charged, holds, events)
        == (if !charged && AnyPriced(rows[j..n]) then FeeOfRow(rows[0], holds, events) else 0)
           + RunCharges(rows[n..], None, false, holds, events)
    decreases |rows| - j
  {
    hide FeeOfRow;
    var n := GroupLength(rows);
    if j < n {
      assert rows[j..][1..] == rows[j + 1..] && rows[j..][0] == rows[j];
      assert SameGroup(rows[j - 1], rows[j]) && SameGroup(rows[j], rows[0]);
      FeeOfGroup(rows[j], rows[0], holds, events);
      RunOfOneGroup(rows, j + 1, charged || PricedTicket(rows[j]), holds, events);
      AnyPricedFrom(rows[j..n]);
      assert rows[j..n][1..] == rows[j + 1..n];
    }
  }

  lemma FeeOfGroup(a: OrderItem, b: OrderItem, holds: map<Id, Hold>, events: map<Id, Event>)
    requires SameGroup(a, b)
    ensures FeeOfRow(a, holds, events) == FeeOfRow(b, holds, events)
  {
  }

  lemma AnyPricedFrom(rows: seq<OrderItem>)
    requires rows != []
    ensures AnyPriced(rows) <==> PricedTicket(rows[0]) || AnyPriced(rows[1..])
  {
    if AnyPriced(rows[1..]) {
      var i :| 0 <= i < |rows[1..]| && PricedTicket(rows[1..][i]);
      assert PricedTicket(rows[i + 1]);
    }
    if AnyPriced(rows) && !PricedTicket(rows[0]) {
      var i :| 0 <= i < |rows| && PricedTicket(rows[i]);
      assert PricedTicket(rows[1..][i - 1]);
    }
  }

  /** Charging group by group and charging row by row come to the same. */
  lemma {:induction false} ChargesRunByRun(rows: seq<OrderItem>, holds: map<Id, Hold>, events: map<Id, Event>)
    ensures EventCharges(rows, holds, events) == RunCharges(rows, None, false, holds, events)
    decreases |rows|
  {
    if rows != [] {
      var n := GroupLength(rows);
      ChargesRunByRun(rows[n..], holds, events);
      RunOfOneGroup(rows, 1, PricedTicket(rows[0]), holds, events);
      AnyPricedFrom(rows[..n]);
      assert rows[..n][1..] == rows[1..n];
    }
  }

  function TicketRows(rows: seq<OrderItem>): (r: seq<OrderItem>) {
    if rows == [] then []
    else if rows[0].itemType == Tickets then [rows[0]] + TicketRows(rows[1..])
    else TicketRows(rows[1..])
  }

  ghost predicate Follows(prev: Option<OrderItem>, rows: seq<OrderItem>) {
    prev.Some? ==> forall i :: 0 <= i < |rows| ==> NotAfter(prev.value, rows[i])
  }

  /**
    Walking sorted rows with and without their fee rows: the two walks are in step, or the first has just passed a
    fee row and the second is still in an earlier event.
   */
  predicate InStep(prev: Option<OrderItem>, charged: bool, prevTicket: Option<OrderItem>, chargedTicket: bool) {
    && (prevTicket.Some? ==> prevTicket.value.itemType == Tickets)
    && if prev.None? || prev.value.itemType == Tickets
       then prev == prevTicket && charged == chargedTicket
       else !charged && (prevTicket.Some? ==>
              prevTicket.value.eventId != prev.value.eventId && NotAfter(prevTicket.value, prev.value))
  }

  lemma {:induction false} FeeRowsDoNotMatter(rows: seq<OrderItem>, prev: Option<OrderItem>, charged: bool,
                                              prevTicket: Option<OrderItem>, chargedTicket: bool,
                                              holds: map<Id, Hold>, events: map<Id, Event>)
    requires Sorted(rows) && Follows(prev, rows) && Follows(prevTicket, rows)
    requires forall i :: 0 <= i < |rows| ==> rows[i].eventId.Some?
    requires prev.Some? ==> prev.value.eventId.Some?
    requires InStep(prev, charged, prevTicket, chargedTicket)
    ensures RunCharges(rows, prev, charged, holds, events)
         == RunCharges(TicketRows(rows), prevTicket, chargedTicket, holds, events)
    decreases |rows|
  {
    if rows != [] {
      var row := rows[0];
      var already := prev.Some? && SameGroup(prev.value, row) && charged;
      assert Follows(Some(row), rows[1..]) && Sorted(rows[1..]);
      if row.itemType == Tickets {
        var ticketRows := TicketRows(rows);
        assert ticketRows[0] == row && ticketRows[1..] == TicketRows(rows[1..]);
        assert already == (prevTicket.Some? && SameGroup(prevTicket.value, row) && chargedTicket);
        FeeRowsDoNotMatter(rows[1..], Some(row), already || PricedTicket(row), Some(row), already || PricedTicket(row), holds, events);
      } else {
        assert !already;
        FeeRowsDoNotMatter(rows[1..], Some(row), false, prevTicket, chargedTicket, holds, events);
      }
    }
  }

  lemma {:induction false} EventedIsSorted(rows: seq<OrderItem>)
    requires Sorted(rows)
    ensures Sorted(Evented(rows))
  {
    if rows != [] {
      EventedIsSorted(rows[..|rows| - 1]);
      var earlier := Evented(rows[..|rows| - 1]);
      forall i | 0 <= i < |earlier| ensures NotAfter(earlier[i], rows[|rows| - 1]) {
        assert earlier[i] in rows[..|rows| - 1];
      }
    }
  }

  /** The event fees depend only on the tickets, in the order they come back. */
  lemma EventChargesOfTickets(rows: seq<OrderItem>, holds: map<Id, Hold>, events: map<Id, Event>)
    requires Sorted(rows)
    ensures EventCharges(Evented(rows), holds, events) == RunCharges(TicketRows(Evented(rows)), None, false, holds, events)
  {
    EventedIsSorted(rows);
    ChargesRunByRun(Evented(rows), holds, events);
    assert forall i :: 0 <= i < |Evented(rows)| ==> Evented(rows)[i] in Evented(rows);
    FeeRowsDoNotMatter(Evented(rows), None, false, None, false, holds, events);
  }

  // ------------------------------------------------------------ doing it twice

  function OtherDue(orderId: Id): OrderItem -> int {
    (item: OrderItem) => if item.itemType == EventFees then 0 else Due(orderId)(item)
  }

  lemma TotalIsItemsAndEventFees(items: map<Id, OrderItem>, orderId: Id)
    ensures OrderTotal(items, orderId) == Sum(items, OtherDue(orderId)) + EventFeeTotal(items, orderId)
  {
    SumOfParts(items, OtherDue(orderId), EventDue(orderId), Due(orderId));
  }

  lemma TicketOfSecondUpdate(a: map<Id, OrderItem>, b: map<Id, OrderItem>, nextB: Id, rowsA: seq<OrderItem>, rowsB: seq<OrderItem>,
                             orderId: Id, ticketTypes: map<Id, TicketType>, holds: map<Id, Hold>, events: map<Id, Event>, k: Id)
    requires FeesUpdated(a, b, nextB, rowsA, orderId, ticketTypes, holds, events)
    requires AreRowsOf(rowsB, WithoutEventFees(b, orderId), orderId)
    requires k in ChargedIds(Evented(rowsB), holds)
    ensures k in b && !IsEventFeeOf(b[k], orderId)
    ensures ItemSettled(WithoutEventFees(a, orderId), b, k, ticketTypes)
    ensures WithoutEventFees(a, orderId)[k] == b[k]
  {
    var baseA, baseB := WithoutEventFees(a, orderId), WithoutEventFees(b, orderId);
    var row :| row in Evented(rowsB) && row.itemType == Tickets && !IsComp(holds, row.holdId) && row.id == k;
    assert row in rowsB && b[k] == row;
    ChargeableAreCharged(rowsB, baseB, orderId, holds, k);
    assert Structured(b, nextB);
    assert k in baseA && baseA[k] == b[k];
    ChargeableAreCharged(rowsA, baseA, orderId, holds, k);
  }

  /** Dropping event fees leaves a settled ticket settled. */
  lemma SettledInTheBase(baseA: map<Id, OrderItem>, b: map<Id, OrderItem>, k: Id, orderId: Id, ticketTypes: map<Id, TicketType>)
    requires ItemSettled(baseA, b, k, ticketTypes)
    ensures ItemSettled(baseA, WithoutEventFees(b, orderId), k, ticketTypes)
  {
    ItemStaysSettled(baseA, b, WithoutEventFees(b, orderId), k, ticketTypes);
  }

  lemma ChildOfChargedTicket(a: map<Id, OrderItem>, b: map<Id, OrderItem>, c: map<Id, OrderItem>, nextB: Id, nextC: Id,
                             rowsA: seq<OrderItem>, rowsB: seq<OrderItem>, orderId: Id, ticketTypes: map<Id, TicketType>,
                             holds: map<Id, Hold>, events: map<Id, Event>, r: Id, k: Id)
    requires FeesUpdated(a, b, nextB, rowsA, orderId, ticketTypes, holds, events)
    requires FeesUpdated(b, c, nextC, rowsB, orderId, ticketTypes, holds, events)
    requires SchedulesAscend(ticketTypes)
    requires k in ChargedIds(Evented(rowsB), holds)
    requires (r in b && IsFeeOf(b[r], k)) || (r in c && IsFeeOf(c[r], k))
    ensures r in b && r in c && b[r] == c[r]
  {
    var baseA, baseB := WithoutEventFees(a, orderId), WithoutEventFees(b, orderId);
    assert ItemSettled(baseB, c, k, ticketTypes);
    assert OneFeeEach(baseB) && OneFeeEach(c);
    assert r in b && IsFeeOf(b[r], k) ==> r in baseB && baseB[r] == b[r];
    hide Settling, EventFeeTotal, FeeSettled, OneFeeEach, WithoutEventFees;
    TicketOfSecondUpdate(a, b, nextB, rowsA, rowsB, orderId, ticketTypes, holds, events, k);
    SettledInTheBase(baseA, b, k, orderId, ticketTypes);
    var ranges := ticketTypes[baseB[k].ticketTypeId.value].feeRanges;
    BaseIsPart(b, orderId);
    SettlingTwiceIsSettlingOnce(baseA, baseB, c, baseB[k], ranges, r);
  }

  lemma BaseIsPart(b: map<Id, OrderItem>, orderId: Id)
    ensures forall r :: r in WithoutEventFees(b, orderId) ==> r in b && b[r] == WithoutEventFees(b, orderId)[r]
  {
  }

  /** Between two updates of the same order, an item that is not an event fee stays as it is. */
  lemma SecondUpdateLeavesItems(a: map<Id, OrderItem>, b: map<Id, OrderItem>, c: map<Id, OrderItem>, nextB: Id, nextC: Id,
                                rowsA: seq<OrderItem>, rowsB: seq<OrderItem>, orderId: Id, ticketTypes: map<Id, TicketType>,
                                holds: map<Id, Hold>, events: map<Id, Event>, r: Id)
    requires FeesUpdated(a, b, nextB, rowsA, orderId, ticketTypes, holds, events)
    requires FeesUpdated(b, c, nextC, rowsB, orderId, ticketTypes, holds, events)
    requires SchedulesAscend(ticketTypes)
    requires (r in b && !IsEventFeeOf(b[r], orderId)) || (r in c && !IsEventFeeOf(c[r], orderId))
    ensures r in b && r in c && b[r] == c[r]
  {
    var charged := ChargedIds(Evented(rowsB), holds);
    assert Structured(b, nextB) && Structured(c, nextC);
    if (r in b && b[r].parentId.Some? && b[r].parentId.value in charged) {
      ChildOfChargedTicket(a, b, c, nextB, nextC, rowsA, rowsB, orderId, ticketTypes, holds, events, r, b[r].parentId.value);
    } else if (r in c && c[r].parentId.Some? && c[r].parentId.value in charged) {
      ChildOfChargedTicket(a, b, c, nextB, nextC, rowsA, rowsB, orderId, ticketTypes, holds, events, r, c[r].parentId.value);
    }
  }

  /**
    A second `update_fees` leaves the total of the order unchanged, provided its tickets come back in the same order
    both times: which event fees are charged depends on it.
   */
  lemma UpdatingFeesTwiceChangesNoTotal(a: map<Id, OrderItem>, b: map<Id, OrderItem>, c: map<Id, OrderItem>, nextB: Id, nextC: Id,
                                        rowsA: seq<OrderItem>, rowsB: seq<OrderItem>, orderId: Id, ticketTypes: map<Id, TicketType>,
                                        holds: map<Id, Hold>, events: map<Id, Event>)
    requires FeesUpdated(a, b, nextB, rowsA, orderId, ticketTypes, holds, events)
    requires FeesUpdated(b, c, nextC, rowsB, orderId, ticketTypes, holds, events)
    requires SchedulesAscend(ticketTypes)
    requires TicketRows(Evented(rowsA)) == TicketRows(Evented(rowsB))
    ensures OrderTotal(c, orderId) == OrderTotal(b, orderId)
  {
    EventChargesOfTickets(rowsA, holds, events);
    EventChargesOfTickets(rowsB, holds, events);
    TotalIsItemsAndEventFees(b, orderId);
    TotalIsItemsAndEventFees(c, orderId);
    hide FeesUpdated, OrderTotal, EventFeeTotal, SchedulesAscend, EventCharges, RunCharges;
    forall r | r in b && OtherDue(orderId)(b[r]) != 0 ensures r in c && c[r] == b[r] {
      SecondUpdateLeavesItems(a, b, c, nextB, nextC, rowsA, rowsB, orderId, ticketTypes, holds, events, r);
    }
    forall r | r in c && OtherDue(orderId)(c[r]) != 0 ensures r in b && b[r] == c[r] {
      SecondUpdateLeavesItems(a, b, c, nextB, nextC, rowsA, rowsB, orderId, ticketTypes, holds, events, r);
    }
    SumOfSharedRows(b, c, OtherDue(orderId));
  }
}
