/**
  When everything on an order has been refunded, nothing is left to pay: fee refunds keep
  up with ticket refunds, and event fees go with the last item they were charged for.

  This needs every ticket to be refunded through the item it was sold under, and its oldest
  refund record to have been made under that item too. The second condition is not one the
  code checks: a ticket that was sold again after a refund still has its old record.
 */
module RefundCompleteness {
  import opened Schema
  import opened Sets
  import opened Sums
  import opened OrderItems
  import opened RefundUnits
  import opened OrderRefunds
  import opened TicketInstances

  // ------------------------------------------------------------ records against quantities

  ghost predicate IsOldest(records: seq<RefundedTicket>, j: Id) {
    j < |records| && Oldest(records, records[j].ticketInstanceId) == Some(j)
  }

  /** The records that count as a refund of a ticket sold under `k`. */
  ghost function TicketRefunds(records: seq<RefundedTicket>, k: Id): (r: set<Id>) {
    set j: Id | j < |records| && IsOldest(records, j) && records[j].orderItemId == k && records[j].ticketRefundedAt.Some?
  }

  ghost function FeeRefunds(records: seq<RefundedTicket>, k: Id): (r: set<Id>) {
    set j: Id | j < |records| && IsOldest(records, j) && records[j].orderItemId == k && records[j].feeRefundedAt.Some?
  }

  /** Refunded quantities are what the records say, for the items of an order and their fees. */
  ghost predicate LedgerAgrees(s: RefundState, orderId: Id) {
    && (forall k :: k in s.items && s.items[k].orderId == orderId && s.items[k].itemType == Tickets ==>
          s.items[k].refundedQuantity == |TicketRefunds(s.records, k)|)
    && (forall f, k :: f in s.items && IsFeeOf(s.items[f], k) && s.items[f].orderId == orderId ==>
          s.items[f].refundedQuantity == |FeeRefunds(s.records, k)|)
    && (forall j :: 0 <= j < |s.records| && s.records[j].ticketRefundedAt.Some? ==> s.records[j].feeRefundedAt.Some?)
  }

  lemma OldestAfterRegistering(records: seq<RefundedTicket>, ticketId: Id, itemId: Id, other: Id)
    ensures Oldest(Registered(records, ticketId, itemId), other) ==
      if other == ticketId && Oldest(records, other).None? then Some(|records|) else Oldest(records, other)
  {
    assert Registered(records, ticketId, itemId)[..|records|] == records;
  }

  lemma OldestIgnoresStamps(records: seq<RefundedTicket>, j: Id, row: RefundedTicket, other: Id)
    requires j < |records| && row.ticketInstanceId == records[j].ticketInstanceId
    ensures Oldest(records[j := row], other) == Oldest(records, other)
  {
    var after := records[j := row];
    assert forall i: Id :: i < |records| ==> after[i].ticketInstanceId == records[i].ticketInstanceId;
    match Oldest(records, other)
    case None =>
    case Some(i) =>
      match Oldest(after, other)
      case None =>
      case Some(i') => assert !(i < i') && !(i' < i);
  }

  lemma OldestAfterRecording(records: seq<RefundedTicket>, ticketId: Id, itemId: Id, justFee: bool, now: Time, other: Id)
    ensures Oldest(Recorded(records, ticketId, itemId, justFee, now), other) ==
      if other == ticketId && Oldest(records, other).None? then Some(|records|) else Oldest(records, other)
  {
    OldestAfterRegistering(records, ticketId, itemId, ticketId);
    OldestAfterRegistering(records, ticketId, itemId, other);
    var registered := Registered(records, ticketId, itemId);
    var j := Oldest(registered, ticketId).value;
    OldestIgnoresStamps(registered, j, Marked(registered[j], justFee, now), other);
  }

  /** The index of the record a refund of `ticketId` goes through. */
  function RecordId(records: seq<RefundedTicket>, ticketId: Id): (j: Id)
    ensures j <= |records|
  {
    if Oldest(records, ticketId).Some? then Oldest(records, ticketId).value else |records|
  }

  lemma CountsAfterRecording(records: seq<RefundedTicket>, ticketId: Id, itemId: Id, justFee: bool, now: Time, k: Id)
    ensures
      var j := RecordId(records, ticketId);
      var registered := Registered(records, ticketId, itemId);
      var after := Recorded(records, ticketId, itemId, justFee, now);
      && TicketRefunds(after, k) ==
           TicketRefunds(records, k) + (if !justFee && registered[j].orderItemId == k then {j} else {})
      && FeeRefunds(after, k) == FeeRefunds(records, k) + (if registered[j].orderItemId == k then {j} else {})
  {
    hide Oldest;
    var after := Recorded(records, ticketId, itemId, justFee, now);
    var j := RecordId(records, ticketId);
    OldestAfterRegistering(records, ticketId, itemId, ticketId);
    forall i: Id | i < |after| ensures IsOldest(after, i) <==> i == j || (i < |records| && IsOldest(records, i)) {
      OldestAfterRecording(records, ticketId, itemId, justFee, now, after[i].ticketInstanceId);
    }
  }

  // ------------------------------------------------------------ one line

  /** The ticket, while it is still linked, is named with the item it was sold under (or with that item's fee). */
  predicate Paired(s: RefundState, line: RefundItem) {
    line.orderItemId in s.items && TicketRelated(s.items[line.orderItemId]) && line.ticketInstanceId.Some?
    && line.ticketInstanceId.value < |s.tickets| && s.tickets[line.ticketInstanceId.value].orderItemId.Some?
    ==>
      var item := s.items[line.orderItemId];
      var soldUnder := s.tickets[line.ticketInstanceId.value].orderItemId;
      if item.itemType == Tickets then soldUnder == Some(item.id) else soldUnder == item.parentId
  }

  /** No record of the ticket was made while it was sold under another item. */
  predicate Fresh(s: RefundState, line: RefundItem) {
    line.orderItemId in s.items && TicketRelated(s.items[line.orderItemId]) && line.ticketInstanceId.Some?
    && line.ticketInstanceId.value < |s.tickets| && s.tickets[line.ticketInstanceId.value].orderItemId.Some?
    && Oldest(s.records, line.ticketInstanceId.value).Some?
    ==>
      s.records[Oldest(s.records, line.ticketInstanceId.value).value].orderItemId
        == s.tickets[line.ticketInstanceId.value].orderItemId.value
  }

  /** What a line on a ticket or fee row adds to the records of each item. */
  lemma StepCounts(s: RefundState, after: RefundState, line: RefundItem, fee: Option<Id>, orderId: Id, now: Time, k: Id)
    requires LineStep(s, after, line, fee, orderId, now)
    requires TicketRelated(s.items[line.orderItemId])
    ensures
      var item := s.items[line.orderItemId];
      var soldUnder := s.tickets[line.ticketInstanceId.value].orderItemId.value;
      var record := RecordFor(s, line.ticketInstanceId.value);
      && (Fresh(s, line) <==> record.orderItemId == soldUnder)
      && |TicketRefunds(after.records, k)| == |TicketRefunds(s.records, k)|
           + (if record.orderItemId == k && item.itemType == Tickets then 1 else 0)
      && |FeeRefunds(after.records, k)| == |FeeRefunds(s.records, k)|
           + (if record.orderItemId == k && record.feeRefundedAt.None? then 1 else 0)
  {
    hide Oldest, TicketRefunds, FeeRefunds, ChargesBack, BumpBoth;
    var item := s.items[line.orderItemId];
    var ticketId := line.ticketInstanceId.value;
    var soldUnder := s.tickets[ticketId].orderItemId.value;
    CountsAfterRecording(s.records, ticketId, soldUnder, item.itemType == PerUnitFees, now, k);
    OldestAfterRegistering(s.records, ticketId, soldUnder, ticketId);
    RecordMembership(s.records, ticketId, soldUnder, k);
    var j := RecordId(s.records, ticketId);
    var registered := Registered(s.records, ticketId, soldUnder);
    assert registered[j] == RecordFor(s, ticketId);
    assert j !in TicketRefunds(s.records, k);
    assert Fresh(s, line) <==> registered[j].orderItemId == soldUnder;
    assert j in FeeRefunds(s.records, k) <==> registered[j].orderItemId == k && registered[j].feeRefundedAt.Some?;
    assert FeeRefunds(s.records, k) + {} == FeeRefunds(s.records, k);
    assert TicketRefunds(s.records, k) + {} == TicketRefunds(s.records, k);
    assert j in FeeRefunds(s.records, k) ==> FeeRefunds(s.records, k) + {j} == FeeRefunds(s.records, k);
  }

  /** Whether the record of `ticketId` already counts. */
  lemma RecordMembership(records: seq<RefundedTicket>, ticketId: Id, itemId: Id, k: Id)
    ensures
      var j := RecordId(records, ticketId);
      var record := Registered(records, ticketId, itemId)[j];
      && (j in TicketRefunds(records, k) <==> j < |records| && record.orderItemId == k && record.ticketRefundedAt.Some?)
      && (j in FeeRefunds(records, k) <==> j < |records| && record.orderItemId == k && record.feeRefundedAt.Some?)
  {
  }

  lemma RecordsStayConsistent(s: RefundState, after: RefundState, line: RefundItem, fee: Option<Id>, orderId: Id, now: Time)
    requires LineStep(s, after, line, fee, orderId, now)
    requires forall j :: 0 <= j < |s.records| && s.records[j].ticketRefundedAt.Some? ==> s.records[j].feeRefundedAt.Some?
    ensures forall j :: 0 <= j < |after.records| && after.records[j].ticketRefundedAt.Some? ==> after.records[j].feeRefundedAt.Some?
  {
    hide Oldest, ChargesBack, BumpBoth;
  }

  /** The refunded quantity of a row after a line. */
  lemma QuantityAfterLine(s: RefundState, after: RefundState, line: RefundItem, fee: Option<Id>, orderId: Id, now: Time, k: Id)
    requires LineStep(s, after, line, fee, orderId, now) && k in s.items && Refundable(s.items)
    ensures k in after.items && after.items.Keys == s.items.Keys && Keyed(after.items)
    ensures after.items[k] == s.items[k].(refundedQuantity :=
      s.items[k].refundedQuantity + if k == line.orderItemId || fee == Some(k) then 1 else 0)
  {
    hide Oldest, TicketStep;
  }

  lemma TicketLineKeepsLedger(s: RefundState, after: RefundState, line: RefundItem, fee: Option<Id>, orderId: Id, now: Time)
    requires LineStep(s, after, line, fee, orderId, now)
    requires Refundable(s.items) && OneFeeEach(s.items) && LedgerAgrees(s, orderId)
    requires s.items[line.orderItemId].itemType == Tickets && Paired(s, line)
    ensures LedgerAgrees(after, orderId) <==> Fresh(s, line)
  {
    var k := line.orderItemId;
    var record := RecordFor(s, line.ticketInstanceId.value);
    assert s.tickets[line.ticketInstanceId.value].orderItemId == Some(k);
    StepCounts(s, after, line, fee, orderId, now, k);
    QuantityAfterLine(s, after, line, fee, orderId, now, k);
    if Fresh(s, line) {
      RecordsStayConsistent(s, after, line, fee, orderId, now);
      forall i | i in after.items && after.items[i].orderId == orderId && after.items[i].itemType == Tickets
        ensures after.items[i].refundedQuantity == |TicketRefunds(after.records, i)|
      {
        hide Oldest, TicketRefunds, FeeRefunds, BumpBoth, TicketStep;
        StepCounts(s, after, line, fee, orderId, now, i);
        QuantityAfterLine(s, after, line, fee, orderId, now, i);
      }
      forall f, p | f in after.items && IsFeeOf(after.items[f], p) && after.items[f].orderId == orderId
        ensures after.items[f].refundedQuantity == |FeeRefunds(after.records, p)|
      {
        hide Oldest, TicketRefunds, FeeRefunds, BumpBoth;
        StepCounts(s, after, line, fee, orderId, now, p);
        QuantityAfterLine(s, after, line, fee, orderId, now, f);
      }
    }
  }

  lemma FeeLineKeepsLedger(s: RefundState, after: RefundState, line: RefundItem, fee: Option<Id>, orderId: Id, now: Time)
    requires LineStep(s, after, line, fee, orderId, now)
    requires Refundable(s.items) && OneFeeEach(s.items) && LedgerAgrees(s, orderId)
    requires s.items[line.orderItemId].itemType == PerUnitFees && Paired(s, line)
    ensures LedgerAgrees(after, orderId) <==> Fresh(s, line)
  {
    var k := line.orderItemId;
    var soldUnder := s.tickets[line.ticketInstanceId.value].orderItemId.value;
    assert IsFeeOf(s.items[k], soldUnder);
    StepCounts(s, after, line, fee, orderId, now, soldUnder);
    QuantityAfterLine(s, after, line, fee, orderId, now, k);
    assert IsFeeOf(after.items[k], soldUnder);
    if Fresh(s, line) {
      RecordsStayConsistent(s, after, line, fee, orderId, now);
      forall i | i in after.items && after.items[i].orderId == orderId && after.items[i].itemType == Tickets
        ensures after.items[i].refundedQuantity == |TicketRefunds(after.records, i)|
      {
        hide Oldest, TicketRefunds, FeeRefunds, BumpBoth, TicketStep;
        StepCounts(s, after, line, fee, orderId, now, i);
        QuantityAfterLine(s, after, line, fee, orderId, now, i);
      }
      forall f, p | f in after.items && IsFeeOf(after.items[f], p) && after.items[f].orderId == orderId
        ensures after.items[f].refundedQuantity == |FeeRefunds(after.records, p)|
      {
        hide Oldest, TicketRefunds, FeeRefunds, BumpBoth;
        StepCounts(s, after, line, fee, orderId, now, p);
        QuantityAfterLine(s, after, line, fee, orderId, now, f);
      }
    }
  }

  lemma EventFeeLineKeepsLedger(s: RefundState, after: RefundState, line: RefundItem, fee: Option<Id>, orderId: Id, now: Time)
    requires LineStep(s, after, line, fee, orderId, now)
    requires Refundable(s.items) && LedgerAgrees(s, orderId)
    requires s.items[line.orderItemId].itemType == EventFees
    ensures LedgerAgrees(after, orderId)
  {
    forall k | k in s.items ensures k in after.items
      && after.items[k].(refundedQuantity := 0) == s.items[k].(refundedQuantity := 0)
      && (s.items[k].itemType != EventFees ==> after.items[k] == s.items[k])
    {
      QuantityAfterLine(s, after, line, fee, orderId, now, k);
    }
    hide LineStep, TicketRefunds, FeeRefunds;
  }

  /** Pairing and freshness of one line survive the lines before it. */
  lemma LaterLinesStayPaired(s: RefundState, after: RefundState, line: RefundItem, fee: Option<Id>, orderId: Id, now: Time,
                             later: RefundItem)
    requires LineStep(s, after, line, fee, orderId, now) && Refundable(s.items)
    requires Paired(s, later) && Fresh(s, later) && Fresh(s, line)
    ensures Paired(after, later) && Fresh(after, later)
  {
    hide Oldest, BumpBoth;
    QuantityAfterLine(s, after, line, fee, orderId, now, line.orderItemId);
    if later.orderItemId in s.items {
      QuantityAfterLine(s, after, line, fee, orderId, now, later.orderItemId);
    }
    if TicketRelated(s.items[line.orderItemId]) && later.ticketInstanceId.Some? {
      var ticketId := line.ticketInstanceId.value;
      OldestAfterRecording(s.records, ticketId, s.tickets[ticketId].orderItemId.value,
                           s.items[line.orderItemId].itemType == PerUnitFees, now, later.ticketInstanceId.value);
      OldestAfterRegistering(s.records, ticketId, s.tickets[ticketId].orderItemId.value, ticketId);
    }
  }

  // ------------------------------------------------------------ a whole request

  ghost predicate SoundRequest(s: RefundState, lines: seq<RefundItem>) {
    forall i :: 0 <= i < |lines| ==> Paired(s, lines[i]) && Fresh(s, lines[i])
  }

  /** What the rest of the proof needs of the items of a refunded order; `update_fees` sets them up so. */
  ghost predicate WellFormed(items: map<Id, OrderItem>, orderId: Id) {
    && Refundable(items) && BoundedIn(items, orderId) && OneFeeEach(items)
    && (forall f :: f in items && items[f].itemType == PerUnitFees && items[f].orderId == orderId ==>
          && items[f].parentId.Some? && items[f].parentId.value in items
          && items[items[f].parentId.value].quantity == items[f].quantity)
    && (forall e :: e in items && items[e].itemType == EventFees && items[e].orderId == orderId ==> items[e].quantity == 1)
  }

  /** Refunds of whatever order. */
  lemma RefundsKeepWellFormed(items: map<Id, OrderItem>, after: map<Id, OrderItem>, orderId: Id, o: Id)
    requires WellFormed(items, o) && OnlyRefunds(items, after, orderId) && Refundable(after)
    ensures WellFormed(after, o)
  {
    assert forall k :: k in after ==> k in items && after[k] == items[k].(refundedQuantity := after[k].refundedQuantity);
    RefundsKeepOneFeeEach(items, after, orderId);
    hide Refundable, OneFeeEach;
  }

  lemma RefundsKeepOneFeeEach(items: map<Id, OrderItem>, after: map<Id, OrderItem>, orderId: Id)
    requires OneFeeEach(items) && OnlyRefunds(items, after, orderId)
    ensures OneFeeEach(after)
  {
    forall f, g, k | f in after && g in after && IsFeeOf(after[f], k) && IsFeeOf(after[g], k) ensures f == g {
      assert IsFeeOf(items[f], k) && IsFeeOf(items[g], k);
    }
  }

  lemma LineKeepsLedger(s: RefundState, after: RefundState, line: RefundItem, fee: Option<Id>, orderId: Id, now: Time)
    requires LineStep(s, after, line, fee, orderId, now)
    requires WellFormed(s.items, orderId) && LedgerAgrees(s, orderId) && Paired(s, line) && Fresh(s, line)
    ensures WellFormed(after.items, orderId) && LedgerAgrees(after, orderId)
  {
    LineStepIsARefund(s, after, line, fee, orderId, now);
    RefundsKeepWellFormed(s.items, after.items, orderId, orderId);
    match s.items[line.orderItemId].itemType
    case Tickets => TicketLineKeepsLedger(s, after, line, fee, orderId, now);
    case PerUnitFees => FeeLineKeepsLedger(s, after, line, fee, orderId, now);
    case EventFees => EventFeeLineKeepsLedger(s, after, line, fee, orderId, now);
  }

  lemma {:induction false} RunKeepsLedger(trace: seq<RefundState>, lines: seq<RefundItem>, fees: seq<Option<Id>>, orderId: Id,
                                          now: Time, n: nat)
    requires IsRun(trace, lines, fees, orderId, now) && n <= |lines|
    requires WellFormed(trace[0].items, orderId) && LedgerAgrees(trace[0], orderId) && SoundRequest(trace[0], lines)
    ensures WellFormed(trace[n].items, orderId) && LedgerAgrees(trace[n], orderId) && SoundRequest(trace[n], lines)
  {
    hide WellFormed, LedgerAgrees, Paired, Fresh, LineStep;
    if n > 0 {
      RunKeepsLedger(trace, lines, fees, orderId, now, n - 1);
      assert LineStep(trace[n - 1], trace[n], lines[n - 1], fees[n - 1], orderId, now);
      LineKeepsLedger(trace[n - 1], trace[n], lines[n - 1], fees[n - 1], orderId, now);
      WellFormedIsRefundable(trace[n - 1].items, orderId);
      forall i | 0 <= i < |lines| ensures Paired(trace[n], lines[i]) && Fresh(trace[n], lines[i]) {
        LaterLinesStayPaired(trace[n - 1], trace[n], lines[n - 1], fees[n - 1], orderId, now, lines[i]);
      }
    }
  }

  lemma WellFormedIsRefundable(items: map<Id, OrderItem>, orderId: Id)
    requires WellFormed(items, orderId)
    ensures Refundable(items)
  {
  }

  lemma SweepKeepsLedger(s: RefundState, ids: set<Id>, orderId: Id)
    requires LedgerAgrees(s, orderId)
    requires forall e :: e in ids ==> e in s.items && s.items[e].itemType == EventFees
    ensures LedgerAgrees(s.(items := BumpAll(s.items, ids)), orderId)
  {
    hide TicketRefunds, FeeRefunds;
  }

  /** Any sound refund request keeps the ledger, so the theorems below apply after any number of them. */
  lemma RefundKeepsLedger(trace: seq<RefundState>, lines: seq<RefundItem>, fees: seq<Option<Id>>, after: RefundState,
                          orderId: Id, now: Time)
    requires IsRefund(trace, lines, fees, after, orderId, now)
    requires WellFormed(trace[0].items, orderId) && LedgerAgrees(trace[0], orderId) && SoundRequest(trace[0], lines)
    requires OnlyRefunds(trace[0].items, after.items, orderId) && Refundable(after.items)
    ensures WellFormed(after.items, orderId) && LedgerAgrees(after, orderId)
  {
    hide WellFormed, LedgerAgrees, SoundRequest, Sweepable, LineStep;
    RunKeepsLedger(trace, lines, fees, orderId, now, |lines|);
    var last := trace[|lines|];
    SweepableRows(last.items, orderId);
    SweepKeepsLedger(last, Sweepable(last.items, orderId), orderId);
    RefundsKeepWellFormed(trace[0].items, after.items, orderId, orderId);
  }

  // ------------------------------------------------------------ refunds of other orders

  /** A sound line on one order leaves the ledger of another alone. */
  lemma OtherLineKeepsLedger(s: RefundState, after: RefundState, line: RefundItem, fee: Option<Id>, orderId: Id, now: Time, o: Id)
    requires LineStep(s, after, line, fee, orderId, now) && o != orderId && Refundable(s.items) && OneFeeEach(s.items)
    requires LedgerAgrees(s, o) && Paired(s, line) && Fresh(s, line)
    ensures LedgerAgrees(after, o)
  {
    hide LineStep, TicketRefunds, FeeRefunds, Refundable, OneFeeEach, Paired, Fresh;
    LineStepIsARefund(s, after, line, fee, orderId, now);
    RecordsStayConsistent(s, after, line, fee, orderId, now);
    forall k | k in after.items && after.items[k].orderId == o && after.items[k].itemType == Tickets
      ensures |TicketRefunds(after.records, k)| == |TicketRefunds(s.records, k)|
    {
      assert after.items[k] == s.items[k];
      OtherCountsStay(s, after, line, fee, orderId, now, o, k, k);
    }
    forall f, k | f in after.items && IsFeeOf(after.items[f], k) && after.items[f].orderId == o
      ensures |FeeRefunds(after.records, k)| == |FeeRefunds(s.records, k)|
    {
      assert after.items[f] == s.items[f];
      OtherCountsStay(s, after, line, fee, orderId, now, o, f, k);
    }
    SameCountsSameLedger(s, after, orderId, o);
  }

  lemma SameCountsSameLedger(s: RefundState, after: RefundState, orderId: Id, o: Id)
    requires LedgerAgrees(s, o) && OnlyRefunds(s.items, after.items, orderId) && o != orderId
    requires forall k :: k in after.items && after.items[k].orderId == o && after.items[k].itemType == Tickets ==>
      |TicketRefunds(after.records, k)| == |TicketRefunds(s.records, k)|
    requires forall f, k :: f in after.items && IsFeeOf(after.items[f], k) && after.items[f].orderId == o ==>
      |FeeRefunds(after.records, k)| == |FeeRefunds(s.records, k)|
    requires forall j :: 0 <= j < |after.records| && after.records[j].ticketRefundedAt.Some? ==> after.records[j].feeRefundedAt.Some?
    ensures LedgerAgrees(after, o)
  {
    hide TicketRefunds, FeeRefunds;
    assert forall k :: k in after.items && after.items[k].orderId == o ==> after.items[k] == s.items[k];
  }

  /** `k` is an item of order `o`, or `r` is its fee. */
  lemma OtherCountsStay(s: RefundState, after: RefundState, line: RefundItem, fee: Option<Id>, orderId: Id, now: Time, o: Id, r: Id, k: Id)
    requires LineStep(s, after, line, fee, orderId, now) && o != orderId && Refundable(s.items) && OneFeeEach(s.items)
    requires Paired(s, line) && Fresh(s, line) && r in s.items && s.items[r].orderId == o
    requires (r == k && s.items[r].itemType == Tickets) || IsFeeOf(s.items[r], k)
    ensures |TicketRefunds(after.records, k)| == |TicketRefunds(s.records, k)|
    ensures |FeeRefunds(after.records, k)| == |FeeRefunds(s.records, k)|
  {
    hide TicketRefunds, FeeRefunds, Oldest, BumpBoth;
    if TicketRelated(s.items[line.orderItemId]) {
      StepCounts(s, after, line, fee, orderId, now, k);
      OtherItem(s, line, s.tickets[line.ticketInstanceId.value].orderItemId.value, o, r);
    }
  }

  /** Nothing of another order is the item the line's ticket was sold under, or its fee. */
  lemma OtherItem(s: RefundState, line: RefundItem, soldUnder: Id, o: Id, k: Id)
    requires line.orderItemId in s.items && s.items[line.orderItemId].id == line.orderItemId && s.items[line.orderItemId].orderId != o
    requires Refundable(s.items) && OneFeeEach(s.items) && k in s.items && s.items[k].orderId == o
    requires if s.items[line.orderItemId].itemType == Tickets then soldUnder == line.orderItemId
             else IsFeeOf(s.items[line.orderItemId], soldUnder)
    ensures (s.items[k].itemType == Tickets ==> k != soldUnder) && !IsFeeOf(s.items[k], soldUnder)
  {
  }

  lemma {:induction false} OtherRunKeepsLedger(trace: seq<RefundState>, lines: seq<RefundItem>, fees: seq<Option<Id>>, orderId: Id,
                                               now: Time, o: Id, n: nat)
    requires IsRun(trace, lines, fees, orderId, now) && n <= |lines| && o != orderId
    requires Refundable(trace[0].items) && OneFeeEach(trace[0].items) && LedgerAgrees(trace[0], o) && SoundRequest(trace[0], lines)
    ensures Refundable(trace[n].items) && OneFeeEach(trace[n].items) && LedgerAgrees(trace[n], o) && SoundRequest(trace[n], lines)
  {
    hide Refundable, OneFeeEach, LedgerAgrees, Paired, Fresh, LineStep;
    if n > 0 {
      OtherRunKeepsLedger(trace, lines, fees, orderId, now, o, n - 1);
      assert LineStep(trace[n - 1], trace[n], lines[n - 1], fees[n - 1], orderId, now);
      OtherLineKeepsLedger(trace[n - 1], trace[n], lines[n - 1], fees[n - 1], orderId, now, o);
      LineStepIsARefund(trace[n - 1], trace[n], lines[n - 1], fees[n - 1], orderId, now);
      LineKeepsOneFeeEach(trace[n - 1], trace[n], lines[n - 1], fees[n - 1], orderId, now);
      forall i | 0 <= i < |lines| ensures Paired(trace[n], lines[i]) && Fresh(trace[n], lines[i]) {
        LaterLinesStayPaired(trace[n - 1], trace[n], lines[n - 1], fees[n - 1], orderId, now, lines[i]);
      }
    }
  }

  // ------------------------------------------------------------ nothing left to pay

  ghost predicate TicketsFullyRefunded(items: map<Id, OrderItem>, orderId: Id) {
    forall k :: k in items && items[k].orderId == orderId && items[k].itemType == Tickets ==> !Open(items[k])
  }

  /** The fee of a ticket is refunded at least as often as the ticket. */
  lemma FeeRefundsKeepUp(s: RefundState, orderId: Id, k: Id, fee: Id)
    requires LedgerAgrees(s, orderId) && WellFormed(s.items, orderId)
    requires k in s.items && fee in s.items && IsFeeOf(s.items[fee], k) && s.items[k].orderId == orderId
    ensures s.items[k].refundedQuantity <= s.items[fee].refundedQuantity
  {
    SubsetSize(TicketRefunds(s.records, k), FeeRefunds(s.records, k));
  }

  /** An event fee survives a refund only if some other item of its event does. */
  lemma EventFeesGoWithTheLastItem(last: map<Id, OrderItem>, orderId: Id, e: Id)
    requires WellFormed(last, orderId)
    requires e in last && last[e].orderId == orderId && last[e].itemType == EventFees
    ensures
      var after := BumpAll(last, Sweepable(last, orderId));
      Open(after[e]) <==> Open(last[e]) && exists j :: j in last && KeepsEventFee(last[j], orderId, last[e].eventId)
  {
    var after := BumpAll(last, Sweepable(last, orderId));
    assert e in Sweepable(last, orderId) <==>
      Open(last[e]) && !exists j :: j in last && KeepsEventFee(last[j], orderId, last[e].eventId);
  }

  lemma ItemsBesidesEventFeesAreClosed(s: RefundState, orderId: Id, k: Id)
    requires WellFormed(s.items, orderId) && LedgerAgrees(s, orderId) && TicketsFullyRefunded(s.items, orderId)
    requires k in s.items && s.items[k].orderId == orderId && s.items[k].itemType != EventFees
    ensures !Open(s.items[k])
  {
    if s.items[k].itemType == PerUnitFees {
      var parent := s.items[k].parentId.value;
      assert IsFeeOf(s.items[k], parent);
      FeeRefundsKeepUp(s, orderId, parent, k);
    }
  }

  lemma SweepClosesTheOrder(last: RefundState, orderId: Id, k: Id)
    requires WellFormed(last.items, orderId) && LedgerAgrees(last, orderId) && TicketsFullyRefunded(last.items, orderId)
    requires k in last.items && last.items[k].orderId == orderId
    ensures !Open(BumpAll(last.items, Sweepable(last.items, orderId))[k])
  {
    if last.items[k].itemType == EventFees {
      hide LedgerAgrees, Sweepable;
      forall j | j in last.items ensures !KeepsEventFee(last.items[j], orderId, last.items[k].eventId) {
        if last.items[j].orderId == orderId && last.items[j].itemType != EventFees {
          ItemsBesidesEventFeesAreClosed(last, orderId, j);
        }
      }
      EventFeesGoWithTheLastItem(last.items, orderId, k);
    } else {
      ItemsBesidesEventFeesAreClosed(last, orderId, k);
    }
  }

  lemma ClosedOrderOwesNothing(items: map<Id, OrderItem>, orderId: Id)
    requires forall k :: k in items && items[k].orderId == orderId ==> !Open(items[k])
    ensures OrderTotal(items, orderId) == 0
  {
    forall k | k in items ensures Due(orderId)(items[k]) == 0 {
      if items[k].orderId == orderId {
        assert !Open(items[k]);
        assert items[k].quantity - items[k].refundedQuantity == 0;
      }
    }
    SumZero(items, Due(orderId));
  }

  /** Once every ticket of the order has been refunded, so has every fee, and its total is zero. */
  lemma FullyRefundedOrderOwesNothing(trace: seq<RefundState>, lines: seq<RefundItem>, fees: seq<Option<Id>>,
                                      after: RefundState, orderId: Id, now: Time)
    requires IsRefund(trace, lines, fees, after, orderId, now)
    requires WellFormed(trace[0].items, orderId) && LedgerAgrees(trace[0], orderId) && SoundRequest(trace[0], lines)
    requires TicketsFullyRefunded(after.items, orderId)
    ensures OrderTotal(after.items, orderId) == 0
    ensures forall k :: k in after.items && after.items[k].orderId == orderId ==> !Open(after.items[k])
  {
    hide WellFormed, LedgerAgrees, SoundRequest, LineStep, Sweepable;
    var last := trace[|lines|];
    RunKeepsLedger(trace, lines, fees, orderId, now, |lines|);
    SweepableRows(last.items, orderId);
    assert TicketsFullyRefunded(last.items, orderId) by {
      forall k | k in last.items && last.items[k].orderId == orderId && last.items[k].itemType == Tickets
        ensures !Open(last.items[k])
      {
        assert after.items[k] == last.items[k];
      }
    }
    forall k | k in after.items && after.items[k].orderId == orderId ensures !Open(after.items[k]) {
      SweepClosesTheOrder(last, orderId, k);
    }
    ClosedOrderOwesNothing(after.items, orderId);
  }

  // ------------------------------------------------------------ what stale records do

  /**
    Refunding only the fee of a ticket nobody has used also frees the ticket for sale: the buyer can no longer
    refund it, and whoever buys it next finds its fee refunded already.
   */
  lemma FeeOnlyRefundFreesTheTicket(s: RefundState, after: RefundState, line: RefundItem, fee: Option<Id>, orderId: Id, now: Time)
    requires LineStep(s, after, line, fee, orderId, now)
    requires s.items[line.orderItemId].itemType == PerUnitFees
    requires s.tickets[line.ticketInstanceId.value].status == Purchased
    ensures
      var t := line.ticketInstanceId.value;
      && Takeable(after.tickets[t], s.tickets[t].ticketTypeId, s.tickets[t].holdId, now)
      && Oldest(after.records, t).Some?
      && after.records[Oldest(after.records, t).value].feeRefundedAt.Some?
    ensures forall later: RefundItem, next, f, o, time ::
      && later.ticketInstanceId == line.ticketInstanceId
      && later.orderItemId in after.items && TicketRelated(after.items[later.orderItemId])
      ==> !LineStep(after, next, later, f, o, time)
  {
    var t := line.ticketInstanceId.value;
    OldestAfterRecording(s.records, t, s.tickets[t].orderItemId.value, true, now, t);
    OldestAfterRegistering(s.records, t, s.tickets[t].orderItemId.value, t);
  }

  /** A ticket that was refunded once is refused ever after, even when it has been sold again. */
  lemma RefundedTicketIsRefusedForGood(s: RefundState, after: RefundState, line: RefundItem, fee: Option<Id>, orderId: Id, now: Time)
    requires line.orderItemId in s.items && TicketRelated(s.items[line.orderItemId]) && line.ticketInstanceId.Some?
    requires Oldest(s.records, line.ticketInstanceId.value).Some?
    requires s.records[Oldest(s.records, line.ticketInstanceId.value).value].ticketRefundedAt.Some?
    ensures !LineStep(s, after, line, fee, orderId, now)
  {
    if LineStep(s, after, line, fee, orderId, now) {
      var t := line.ticketInstanceId.value;
      OldestAfterRegistering(s.records, t, s.tickets[t].orderItemId.value, t);
    }
  }

  // An order of one ticket with a fee, where the ticket's record dates from a sale under item 9.
  const STALE_LINE := RefundItem(1, Some(0))
  const STALE_TICKET := Ticket(3, 0, None, Some(1), 5, Some(0), None, None, Purchased, 0)

  function StaleItem(): OrderItem {
    OrderItem(1, 7, Tickets, Some(3), Some(4), 1, 1000, None, None, None, 0, 0, 0)
  }

  function StaleFee(): OrderItem {
    OrderItem(2, 7, PerUnitFees, None, Some(4), 1, 100, None, Some(1), None, 50, 50, 0)
  }

  function StaleState(): RefundState {
    RefundState(map[1 := StaleItem(), 2 := StaleFee()], [STALE_TICKET], [RefundedTicket(9, 0, Some(0), None)])
  }

  function StaleOutcome(): RefundState {
    RefundState(
      map[1 := StaleItem().(refundedQuantity := 1), 2 := StaleFee()],
      [ReleaseRow(0)(STALE_TICKET)],
      [RefundedTicket(9, 0, Some(0), Some(0)), RefundedTicket(1, 0, None, None)])
  }

  lemma StaleItemsAreWellFormed()
    ensures WellFormed(StaleState().items, 7)
  {
    assert forall k :: k in StaleState().items ==> k == 1 || k == 2;
  }

  lemma StaleLedgerAgrees()
    ensures LedgerAgrees(StaleState(), 7)
  {
    hide Oldest;
    var s := StaleState();
    forall k ensures k != 9 ==> TicketRefunds(s.records, k) == {} && FeeRefunds(s.records, k) == {} {
    }
    assert forall k :: k in s.items ==> k == 1 || k == 2;
  }

  lemma StaleLineIsPaired()
    ensures Paired(StaleState(), STALE_LINE)
    ensures !Fresh(StaleState(), STALE_LINE)
  {
    assert StaleState().records[..0] == [];
  }

  lemma StaleStep()
    ensures LineStep(StaleState(), StaleOutcome(), STALE_LINE, None, 7, 0)
  {
    var s := StaleState();
    assert s.records[..0] == [];
    assert Oldest(s.records, 0) == Some(0);
    OldestAfterRegistering(s.records, 0, 1, 0);
    assert Recorded(s.records, 0, 1, false, 0) == StaleOutcome().records;
    assert s.items[1 := s.items[1].(refundedQuantity := 1)] == StaleOutcome().items;
  }

  /**
    A paired request on a well-formed, agreeing order refunds its only ticket, leaves nothing for the sweep to do,
    and still owes the fee: freshness cannot be dropped from `FullyRefundedOrderOwesNothing`.
   */
  lemma StaleRecordKeepsTheFee()
    ensures WellFormed(StaleState().items, 7) && LedgerAgrees(StaleState(), 7) && Paired(StaleState(), STALE_LINE)
    ensures !Fresh(StaleState(), STALE_LINE)
    ensures LineStep(StaleState(), StaleOutcome(), STALE_LINE, None, 7, 0)
    ensures TicketsFullyRefunded(StaleOutcome().items, 7) && Sweepable(StaleOutcome().items, 7) == {}
    ensures OrderTotal(StaleOutcome().items, 7) == 100
  {
    StaleItemsAreWellFormed();
    StaleLedgerAgrees();
    StaleLineIsPaired();
    StaleStep();
    hide LineStep, WellFormed, LedgerAgrees, Paired, Fresh;
    var items := StaleOutcome().items;
    SumSplit(items, Due(7), 1);
    SumSplit(items - {1}, Due(7), 2);
    assert items - {1} - {2} == map[];
  }
}