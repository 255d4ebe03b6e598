/**
  From fees to refunds: what `update_fees` (db/src/models/orders.rs:711-777) leaves of an order nobody has asked a refund of
  yet, and whether a refund of all tickets (db/src/models/orders.rs:145-213) can then clear it.
 */
module FeeRefunds {
  import opened Schema
  import opened FeeSchedules
  import opened FeeTheorems
  import opened ItemFees
  import opened OrderFees
  import opened OrderItems
  import opened OrderRefunds
  import opened OrderRows
  import opened RefundCompleteness
  import opened RefundUnits
  import opened Sums
  import opened TicketInstances

  /** Nothing of the order has been refunded yet. */
  ghost predicate NothingRefunded(items: map<Id, OrderItem>, orderId: Id) {
    forall k :: k in items && items[k].orderId == orderId ==> items[k].refundedQuantity == 0
  }

  /** Tickets no fee is charged for, being comps, have no fee row or one for as many units as there are tickets. */
  ghost predicate CompFeesMatch(items: map<Id, OrderItem>, orderId: Id, holds: map<Id, Hold>) {
    forall f, k :: f in items && k in items && IsFeeOf(items[f], k) && items[k].orderId == orderId && !Chargeable(items[k], orderId, holds)
      ==> items[f].quantity == items[k].quantity
  }

  /** The fee row of a ticket a fee is charged for is for as many units as there are tickets, and none is refunded. */
  lemma FeeOfCharged(before: map<Id, OrderItem>, after: map<Id, OrderItem>, nextId: Id, rows: seq<OrderItem>, orderId: Id,
                     ticketTypes: map<Id, TicketType>, holds: map<Id, Hold>, events: map<Id, Event>, k: Id, f: Id)
    requires FeesUpdated(before, after, nextId, rows, orderId, ticketTypes, holds, events)
    requires Refundable(before) && NothingRefunded(before, orderId)
    requires k in before && Chargeable(before[k], orderId, holds) && f in after && IsFeeOf(after[f], k)
    ensures after[f].quantity == before[k].quantity && after[f].refundedQuantity == 0
  {
    var base := WithoutEventFees(before, orderId);
    assert k in base && base[k] == before[k];
    ChargeableAreCharged(rows, base, orderId, holds, k);
    assert ItemSettled(base, after, k, ticketTypes) && OneFeeEach(after);
    hide Settling, EventFeeTotal, AreRowsOf;
    var ranges := ticketTypes[base[k].ticketTypeId.value].feeRanges;
    assert Covered(ranges, base[k].unitPriceInCents);
    var g, range :| IsApplicable(ranges, base[k].unitPriceInCents, range) && IsFeeRow(base, after, g, base[k], range);
    assert g == f;
    if f in base {
      assert before[f].orderId == orderId;
    }
  }

  /** What is not the fee of a ticket a fee is charged for, nor an event fee of the order, is as it was. */
  lemma OthersAreAsBefore(before: map<Id, OrderItem>, after: map<Id, OrderItem>, nextId: Id, rows: seq<OrderItem>, orderId: Id,
                          ticketTypes: map<Id, TicketType>, holds: map<Id, Hold>, events: map<Id, Event>, r: Id)
    requires FeesUpdated(before, after, nextId, rows, orderId, ticketTypes, holds, events) && Keyed(before)
    requires (r in before && !IsEventFeeOf(before[r], orderId)) || (r in after && !IsEventFeeOf(after[r], orderId))
    requires forall k :: k in before && Chargeable(before[k], orderId, holds) ==>
      !(r in before && before[r].parentId == Some(k)) && !(r in after && after[r].parentId == Some(k))
    ensures r in before && r in after && after[r] == before[r]
  {
    var base := WithoutEventFees(before, orderId);
    forall k | k in ChargedIds(Evented(rows), holds) ensures k in before && Chargeable(before[k], orderId, holds) {
      ChargedAreChargeable(rows, base, orderId, holds, k);
    }
    hide EventFeeTotal, AreRowsOf, ChargedIds;
  }

  lemma ChargedAreChargeable(rows: seq<OrderItem>, base: map<Id, OrderItem>, orderId: Id, holds: map<Id, Hold>, k: Id)
    requires AreRowsOf(rows, base, orderId) && k in ChargedIds(Evented(rows), holds)
    ensures k in base && Chargeable(base[k], orderId, holds)
  {
    var row :| row in Evented(rows) && row.itemType == Tickets && !IsComp(holds, row.holdId) && row.id == k;
    assert row in rows;
    ChargeableAreCharged(rows, base, orderId, holds, k);
  }

  lemma TicketRowsStay(before: map<Id, OrderItem>, after: map<Id, OrderItem>, nextId: Id, rows: seq<OrderItem>, orderId: Id,
                       ticketTypes: map<Id, TicketType>, holds: map<Id, Hold>, events: map<Id, Event>, k: Id)
    requires FeesUpdated(before, after, nextId, rows, orderId, ticketTypes, holds, events) && Structured(before, nextId)
    requires (k in before && before[k].itemType == Tickets) || (k in after && after[k].itemType == Tickets)
    ensures k in before && k in after && after[k] == before[k]
  {
    assert Structured(after, nextId);
    hide Settling, EventFeeTotal, AreRowsOf;
    OthersAreAsBefore(before, after, nextId, rows, orderId, ticketTypes, holds, events, k);
  }

  lemma StaysBounded(before: map<Id, OrderItem>, after: map<Id, OrderItem>, nextId: Id, rows: seq<OrderItem>, orderId: Id,
                     ticketTypes: map<Id, TicketType>, holds: map<Id, Hold>, events: map<Id, Event>)
    requires FeesUpdated(before, after, nextId, rows, orderId, ticketTypes, holds, events)
    requires Structured(before, nextId) && BoundedIn(before, orderId) && NothingRefunded(before, orderId)
    ensures BoundedIn(after, orderId) && NothingRefunded(after, orderId)
  {
    StructuredIsKeyed(before, nextId);
    AfterIsStructured(before, after, nextId, rows, orderId, ticketTypes, holds, events);
    hide FeesUpdated, Structured;
    forall r | r in after
      ensures after[r].orderId == orderId ==> after[r].refundedQuantity == 0 <= after[r].quantity
    {
      RowStaysBounded(before, after, nextId, rows, orderId, ticketTypes, holds, events, r);
    }
  }

  lemma AfterIsStructured(before: map<Id, OrderItem>, after: map<Id, OrderItem>, nextId: Id, rows: seq<OrderItem>, orderId: Id,
                          ticketTypes: map<Id, TicketType>, holds: map<Id, Hold>, events: map<Id, Event>)
    requires FeesUpdated(before, after, nextId, rows, orderId, ticketTypes, holds, events)
    ensures Structured(after, nextId) && OneFeeEach(after) && EventFeesAreWhole(after, orderId)
  {
  }

  lemma RowStaysBounded(before: map<Id, OrderItem>, after: map<Id, OrderItem>, nextId: Id, rows: seq<OrderItem>, orderId: Id,
                        ticketTypes: map<Id, TicketType>, holds: map<Id, Hold>, events: map<Id, Event>, r: Id)
    requires FeesUpdated(before, after, nextId, rows, orderId, ticketTypes, holds, events)
    requires Structured(before, nextId) && BoundedIn(before, orderId) && NothingRefunded(before, orderId) && r in after
    ensures after[r].orderId == orderId ==> after[r].refundedQuantity == 0 <= after[r].quantity
  {
    StructuredIsKeyed(before, nextId);
    AfterIsStructured(before, after, nextId, rows, orderId, ticketTypes, holds, events);
    hide FeesUpdated;
    if k :| k in before && Chargeable(before[k], orderId, holds) && after[r].parentId == Some(k) {
      FeeOfCharged(before, after, nextId, rows, orderId, ticketTypes, holds, events, k, r);
    } else if !IsEventFeeOf(after[r], orderId) {
      if k :| k in before && Chargeable(before[k], orderId, holds) && r in before && before[r].parentId == Some(k) {
        FeeOfBefore(before, after, nextId, rows, orderId, ticketTypes, holds, events, k, r);
      }
      OthersAreAsBefore(before, after, nextId, rows, orderId, ticketTypes, holds, events, r);
    }
  }

  /** A row that is there before and after has the same parent. */
  lemma FeeOfBefore(before: map<Id, OrderItem>, after: map<Id, OrderItem>, nextId: Id, rows: seq<OrderItem>, orderId: Id,
                    ticketTypes: map<Id, TicketType>, holds: map<Id, Hold>, events: map<Id, Event>, k: Id, r: Id)
    requires FeesUpdated(before, after, nextId, rows, orderId, ticketTypes, holds, events)
    requires r in before && r in after && before[r].parentId == Some(k) && Structured(before, nextId)
    ensures after[r].parentId == Some(k)
  {
    var base := WithoutEventFees(before, orderId);
    assert r in base;
    assert KeepsParents(base, after);
  }

  /** With its fees updated, an order of which nothing has been refunded is fit for refunds exactly if the fees of its comps match. */
  lemma UpdatedOrdersAreWellFormed(before: map<Id, OrderItem>, after: map<Id, OrderItem>, nextId: Id, rows: seq<OrderItem>, orderId: Id,
                                   ticketTypes: map<Id, TicketType>, holds: map<Id, Hold>, events: map<Id, Event>)
    requires FeesUpdated(before, after, nextId, rows, orderId, ticketTypes, holds, events)
    requires Structured(before, nextId) && BoundedIn(before, orderId) && NothingRefunded(before, orderId)
    ensures NothingRefunded(after, orderId)
    ensures WellFormed(after, orderId) <==> CompFeesMatch(before, orderId, holds)
  {
    StructuredIsKeyed(before, nextId);
    AfterIsStructured(before, after, nextId, rows, orderId, ticketTypes, holds, events);
    StructuredIsKeyed(after, nextId);
    StaysBounded(before, after, nextId, rows, orderId, ticketTypes, holds, events);
    hide FeesUpdated;
    if CompFeesMatch(before, orderId, holds) {
      forall f | f in after && after[f].itemType == PerUnitFees && after[f].orderId == orderId
        ensures after[f].parentId.Some? && after[f].parentId.value in after && after[after[f].parentId.value].quantity == after[f].quantity
      {
        FeeMatchesItem(before, after, nextId, rows, orderId, ticketTypes, holds, events, f);
      }
      assert WellFormed(after, orderId) by { hide Structured; }
    }
    if WellFormed(after, orderId) {
      forall f, k | f in before && k in before && IsFeeOf(before[f], k) && before[k].orderId == orderId && !Chargeable(before[k], orderId, holds)
        ensures before[f].quantity == before[k].quantity
      {
        TicketRowsStay(before, after, nextId, rows, orderId, ticketTypes, holds, events, k);
        FeeStays(before, after, nextId, rows, orderId, ticketTypes, holds, events, f, k);
        assert after[f].itemType == PerUnitFees && after[f].orderId == orderId;
      }
    }
  }

  lemma FeeStays(before: map<Id, OrderItem>, after: map<Id, OrderItem>, nextId: Id, rows: seq<OrderItem>, orderId: Id,
                 ticketTypes: map<Id, TicketType>, holds: map<Id, Hold>, events: map<Id, Event>, f: Id, k: Id)
    requires FeesUpdated(before, after, nextId, rows, orderId, ticketTypes, holds, events) && Structured(before, nextId)
    requires (f in before && IsFeeOf(before[f], k)) || (f in after && IsFeeOf(after[f], k))
    requires !(k in before && Chargeable(before[k], orderId, holds))
    ensures f in before && f in after && after[f] == before[f]
  {
    StructuredIsKeyed(before, nextId);
    assert KeepsParents(WithoutEventFees(before, orderId), after);
    hide Settling, EventFeeTotal, AreRowsOf;
    OthersAreAsBefore(before, after, nextId, rows, orderId, ticketTypes, holds, events, f);
  }

  lemma FeeMatchesItem(before: map<Id, OrderItem>, after: map<Id, OrderItem>, nextId: Id, rows: seq<OrderItem>, orderId: Id,
                       ticketTypes: map<Id, TicketType>, holds: map<Id, Hold>, events: map<Id, Event>, f: Id)
    requires FeesUpdated(before, after, nextId, rows, orderId, ticketTypes, holds, events)
    requires Structured(before, nextId) && NothingRefunded(before, orderId) && CompFeesMatch(before, orderId, holds)
    requires f in after && after[f].itemType == PerUnitFees && after[f].orderId == orderId
    ensures after[f].parentId.Some? && after[f].parentId.value in after && after[after[f].parentId.value].quantity == after[f].quantity
  {
    StructuredIsKeyed(before, nextId);
    AfterIsStructured(before, after, nextId, rows, orderId, ticketTypes, holds, events);
    hide FeesUpdated;
    var k := after[f].parentId.value;
    TicketRowsStay(before, after, nextId, rows, orderId, ticketTypes, holds, events, k);
    if Chargeable(before[k], orderId, holds) {
      FeeOfCharged(before, after, nextId, rows, orderId, ticketTypes, holds, events, k, f);
    } else {
      FeeStays(before, after, nextId, rows, orderId, ticketTypes, holds, events, f, k);
      assert IsFeeOf(before[f], k);
    }
  }

  /** As long as nothing of the order has been refunded and no record names an item of it, quantities and records agree. */
  lemma LedgerStartsInAgreement(s: RefundState, orderId: Id)
    requires NothingRefunded(s.items, orderId) && FeesFollowParents(s.items)
    requires forall f :: f in s.items && s.items[f].parentId.Some? ==> s.items[f].parentId.value in s.items
    requires forall j :: 0 <= j < |s.records| ==>
      && (s.records[j].ticketRefundedAt.Some? ==> s.records[j].feeRefundedAt.Some?)
      && !(s.records[j].orderItemId in s.items && s.items[s.records[j].orderItemId].orderId == orderId)
    ensures LedgerAgrees(s, orderId)
  {
    hide Oldest;
    forall k | k in s.items && s.items[k].orderId == orderId ensures TicketRefunds(s.records, k) == {} && FeeRefunds(s.records, k) == {} {
    }
  }

  // ------------------------------------------------------------ a comp with a fee

  // A hold with two tickets in the cart, and their fee; the hold is made a comp and the line lowered to one ticket.
  const COMP_LINE := RefundItem(1, Some(0))
  const COMP_TICKET := Ticket(3, 0, Some(6), Some(1), 5, Some(0), None, None, Purchased, 0)

  function CompItem(): OrderItem {
    OrderItem(1, 7, Tickets, Some(3), Some(4), 1, 1000, None, None, Some(6), 0, 0, 0)
  }

  function CompFee(): OrderItem {
    OrderItem(2, 7, PerUnitFees, None, Some(4), 2, 100, None, Some(1), None, 50, 50, 0)
  }

  function CompState(): RefundState {
    RefundState(map[1 := CompItem(), 2 := CompFee()], [COMP_TICKET], [])
  }

  function CompOutcome(): RefundState {
    RefundState(
      map[1 := CompItem().(refundedQuantity := 1), 2 := CompFee().(refundedQuantity := 1)],
      [ReleaseRow(0)(COMP_TICKET)],
      [RefundedTicket(1, 0, Some(0), Some(0))])
  }

  /** Updating the fees of that order leaves it as it is. */
  lemma CompFeesAreLeft(ticketTypes: map<Id, TicketType>, holds: map<Id, Hold>, events: map<Id, Event>)
    requires 6 in holds && holds[6].holdType == Comp
    ensures FeesUpdated(CompState().items, CompState().items, 3, [CompFee(), CompItem()], 7, ticketTypes, holds, events)
    ensures !CompFeesMatch(CompState().items, 7, holds)
  {
    hide Settling, EventFeeTotal, EventCharges, AreRowsOf, ChargedIds, Evented, CompFeesMatch;
    CompHasNoEventFees();
    CompRows(holds);
    CompRowsHaveEvents();
    CompEventFees(holds, events);
    CompFeesDiffer(holds);
    WithoutEventFeesIsABase(CompState().items, 3, 7, ticketTypes) by {
      CompItemsAreStructured();
    }
  }

  lemma CompHasNoEventFees()
    ensures WithoutEventFees(CompState().items, 7) == CompState().items
  {
  }

  lemma CompFeesDiffer(holds: map<Id, Hold>)
    requires 6 in holds && holds[6].holdType == Comp
    ensures !CompFeesMatch(CompState().items, 7, holds)
  {
    var items := CompState().items;
    assert IsFeeOf(items[2], 1) && !Chargeable(items[1], 7, holds) && items[2].quantity != items[1].quantity;
  }

  lemma CompItemsAreStructured()
    ensures Structured(CompState().items, 3) && OneFeeEach(CompState().items)
  {
    assert forall k :: k in CompState().items <==> k == 1 || k == 2;
  }

  lemma CompRowsHaveEvents()
    ensures Evented([CompFee(), CompItem()]) == [CompFee(), CompItem()]
  {
    assert [CompFee(), CompItem()][..1] == [CompFee()] && [CompFee()][..0] == [];
    assert Evented([CompFee()]) == [CompFee()];
  }

  lemma CompRows(holds: map<Id, Hold>)
    requires 6 in holds && holds[6].holdType == Comp
    ensures AreRowsOf([CompFee(), CompItem()], CompState().items, 7)
    ensures ChargedIds(Evented([CompFee(), CompItem()]), holds) == {}
  {
    var rows := [CompFee(), CompItem()];
    assert ItemsOf(CompState().items, 7) == {1, 2};
    assert rows[0] in rows && rows[1] in rows;
    assert Ids(rows) == {1, 2};
    forall row | row in Evented(rows) ensures row.itemType != Tickets || IsComp(holds, row.holdId) {
      assert row in rows;
    }
  }

  lemma CompEventFees(holds: map<Id, Hold>, events: map<Id, Event>)
    requires 6 in holds && holds[6].holdType == Comp
    ensures EventFeeTotal(CompState().items, 7) == 0 && EventCharges([CompFee(), CompItem()], holds, events) == 0
  {
    SumZero(CompState().items, EventDue(7));
    hide EventCharges;
    ChargesRunByRun([CompFee(), CompItem()], holds, events);
    assert [CompFee(), CompItem()][1..] == [CompItem()] && [CompItem()][1..] == [];
  }

  lemma CompLedgerAgrees()
    ensures LedgerAgrees(CompState(), 7)
  {
    LedgerStartsInAgreement(CompState(), 7);
  }

  lemma CompStep()
    ensures LineStep(CompState(), CompOutcome(), COMP_LINE, Some(2), 7, 0)
  {
    var s := CompState();
    assert Oldest(s.records, 0) == None;
    OldestAfterRegistering(s.records, 0, 1, 0);
    assert IsFeeOf(s.items[2], 1);
    assert Recorded(s.records, 0, 1, false, 0) == CompOutcome().records;
    assert BumpBoth(s.items, 1, Some(2)) == CompOutcome().items;
  }

  /**
    Its only ticket is refunded, in a paired and fresh request on an order whose records agree, and a unit of the fee
    stays to be paid: that fee rows match their items cannot be dropped from `FullyRefundedOrderOwesNothing`.
   */
  lemma CompsStillOweTheirFee()
    ensures LedgerAgrees(CompState(), 7) && Paired(CompState(), COMP_LINE) && Fresh(CompState(), COMP_LINE)
    ensures LineStep(CompState(), CompOutcome(), COMP_LINE, Some(2), 7, 0)
    ensures TicketsFullyRefunded(CompOutcome().items, 7) && Sweepable(CompOutcome().items, 7) == {}
    ensures OrderTotal(CompOutcome().items, 7) == 100
  {
    CompLedgerAgrees();
    CompStep();
    hide LineStep, LedgerAgrees;
    var items := CompOutcome().items;
    SumSplit(items, Due(7), 1);
    SumSplit(items - {1}, Due(7), 2);
    assert items - {1} - {2} == map[];
  }
}
