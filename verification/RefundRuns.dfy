/**
  Refunds over whole runs (db/src/models/orders.rs:145-213): whatever else goes on in between, an order whose tickets have all
  been refunded, by any number of sound requests, owes nothing any more.
 */
module RefundRuns {
  import opened Schema
  import opened Cart
  import opened FeeRefunds
  import opened Inventory
  import opened OrderItems
  import opened OrderRefunds
  import opened OrderRows
  import opened RefundCompleteness
  import opened RefundController
  import opened RefundUnits
  import opened Requests
  import opened Runs
  import opened RunTheorems
  import opened Sales

  // ------------------------------------------------------------ one request

  /** The order is fit for refunds, and its refunded quantities are what the records say. */
  ghost predicate InAgreement(s: Shop, o: Id) {
    WellFormed(s.world.items, o) && LedgerAgrees(RefundStateOf(s), o)
  }

  /** Refund requests name each ticket with the item it was sold under, and go through records of that sale. */
  ghost predicate IsSound(s: Shop, request: Request) {
    request.RefundOrder? ==> SoundRequest(RefundStateOf(s), request.refunds)
  }

  lemma LedgerIgnoresTickets(s: RefundState, after: RefundState, o: Id)
    requires after.items == s.items && after.records == s.records
    ensures LedgerAgrees(s, o) <==> LedgerAgrees(after, o)
  {
  }

  lemma RefundKeepsAgreement(s: Shop, s': Shop, lines: seq<RefundItem>, orderId: Id, now: Time, o: Id)
    requires Refunds(RefundStateOf(s), RefundStateOf(s'), lines, orderId, now) && OnlyRefunds(s.world.items, s'.world.items, orderId)
    requires InAgreement(s, o) && SoundRequest(RefundStateOf(s), lines) && Refundable(s'.world.items)
    ensures InAgreement(s', o)
    ensures orderId == o && TicketsFullyRefunded(s'.world.items, o) ==> AllClosed(s'.world.items, o)
  {
    var trace: seq<RefundState>, fees: seq<Option<Id>>, tickets: seq<Ticket> :|
      RefundsBy(RefundStateOf(s), RefundStateOf(s'), trace, lines, fees, tickets, orderId, now);
    var after := RefundStateOf(s').(tickets := tickets);
    WellFormedIsRefundable(s.world.items, o);
    hide Refundable, WellFormed, LedgerAgrees, SoundRequest, IsRun, OnlyRefunds, TicketsFullyRefunded, Sweepable, BumpAll;
    LedgerIgnoresTickets(after, RefundStateOf(s'), o);
    if orderId == o {
      RefundKeepsLedger(trace, lines, fees, after, orderId, now);
      if TicketsFullyRefunded(s'.world.items, o) {
        FullyRefundedOrderOwesNothing(trace, lines, fees, after, orderId, now);
      }
    } else {
      OtherRunKeepsLedger(trace, lines, fees, orderId, now, o, |lines|);
      SweepableRows(trace[|lines|].items, orderId);
      SweepKeepsLedger(trace[|lines|], Sweepable(trace[|lines|].items, orderId), o);
      RefundsKeepWellFormed(s.world.items, s'.world.items, orderId, o);
    }
  }

  /** Nothing of the order is left to refund. */
  ghost predicate AllClosed(items: map<Id, OrderItem>, o: Id) {
    forall k :: k in items && items[k].orderId == o ==> !Open(items[k])
  }

  lemma KeptRowsKeepAgreement(s: Shop, s': Shop, o: Id)
    requires InAgreement(s, o) && KeepsRows(s.world.items, s'.world.items, o) && s'.records == s.records && Inv(s'.world)
    ensures InAgreement(s', o)
  {
    InvLinks(s'.world);
    InvIsStructured(s'.world);
    StructuredIsKeyed(s'.world.items, s'.world.nextId);
    hide Inv, Structured;
    KeptRowsStayWellFormed(s.world.items, s'.world.items, o);
    KeptRowsKeepLedger(RefundStateOf(s), RefundStateOf(s'), o);
  }

  lemma KeptRowsStayWellFormed(items: map<Id, OrderItem>, after: map<Id, OrderItem>, o: Id)
    requires WellFormed(items, o) && KeepsRows(items, after, o) && Refundable(after) && OneFeeEach(after)
    ensures WellFormed(after, o)
  {
    assert FeesFollowParents(items);
    hide OneFeeEach;
  }

  lemma KeptRowsKeepLedger(s: RefundState, after: RefundState, o: Id)
    requires LedgerAgrees(s, o) && KeepsRows(s.items, after.items, o) && after.records == s.records
    ensures LedgerAgrees(after, o)
  {
    hide TicketRefunds, RefundCompleteness.FeeRefunds;
  }

  lemma StepKeepsAgreement(s: Shop, s': Shop, request: Request, moment: Moment, o: Id)
    requires Served(s, s', request, moment) && Inv(s'.world) && IsPastDraft(s.world, o)
    requires InAgreement(s, o) && IsSound(s, request)
    ensures InAgreement(s', o)
    ensures s' != At(s, moment.now) && request.RefundOrder? && request.orderId == o && TicketsFullyRefunded(s'.world.items, o) ==>
      AllClosed(s'.world.items, o)
  {
    var found := At(s, moment.now);
    assert RefundStateOf(found) == RefundStateOf(s);
    if s' != found {
      InvIsStructured(s'.world);
      StructuredIsKeyed(s'.world.items, s'.world.nextId);
      hide Inv, WellFormed, LedgerAgrees, SoundRequest, Refunds, KeepsRows, OnlyRefunds, Remembers, PaymentsStand, BooksOk, CartsAtPrice,
        NumberingKept, MayReprice, MeetsNegativePrice, OutgrowsTokens, ShortsExactly, OrdersAdvance, Structured, TicketsFullyRefunded, AllClosed;
      if request.RefundOrder? {
        RefundKeepsAgreement(found, s', request.refunds, request.orderId, moment.now, o);
      } else {
        assert IsPastDraft(found.world, o);
        KeptRowsKeepAgreement(found, s', o);
      }
    }
  }

  /** What is closed cannot be refunded again, and no other request reopens it. */
  lemma StepKeepsClosed(s: Shop, s': Shop, request: Request, moment: Moment, o: Id)
    requires Served(s, s', request, moment) && IsPastDraft(s.world, o)
    requires AllClosed(s.world.items, o) && BoundedIn(s.world.items, o)
    ensures AllClosed(s'.world.items, o) && BoundedIn(s'.world.items, o)
  {
    if s' != At(s, moment.now) {
      hide Remembers, PaymentsStand, BooksOk, CartsAtPrice, NumberingKept, MayReprice, MeetsNegativePrice, OutgrowsTokens, ShortsExactly,
        OrdersAdvance, RefundsOnly;
      assert RowsStand(At(s, moment.now).world, s'.world, request);
      if request.RefundOrder? {
        forall k | k in s'.world.items && s'.world.items[k].orderId == o
          ensures s'.world.items[k].refundedQuantity == s'.world.items[k].quantity && 0 <= s'.world.items[k].quantity
        {
          assert s'.world.items[k] == s.world.items[k].(refundedQuantity := s'.world.items[k].refundedQuantity);
          assert !Open(s.world.items[k]);
        }
      } else {
        assert IsPastDraft(At(s, moment.now).world, o);
        assert KeepsRows(s.world.items, s'.world.items, o);
      }
    }
  }

  // ------------------------------------------------------------ over a run

  /** All refund requests from the `i`-th on, up to the `j`-th, are sound. */
  ghost predicate AllSound(trace: seq<Shop>, requests: seq<Request>, i: nat, j: nat)
    requires j <= |requests| < |trace|
  {
    forall n :: i <= n < j ==> IsSound(trace[n], requests[n])
  }

  lemma {:induction false} StaysInAgreement(trace: seq<Shop>, requests: seq<Request>, moments: seq<Moment>, i: nat, j: nat, o: Id)
    requires IsRunOf(trace, requests, moments) && i <= j < |trace| == |requests| + 1
    requires IsPastDraft(trace[i].world, o) && InAgreement(trace[i], o) && AllSound(trace, requests, i, j)
    ensures InAgreement(trace[j], o) && IsPastDraft(trace[j].world, o)
  {
    hide IsRunOf, Served, Inv, Remembers, InAgreement, IsSound, IsPastDraft;
    if i < j {
      StaysInAgreement(trace, requests, moments, i, j - 1, o);
      RunStep(trace, requests, moments, j - 1);
      StepKeepsAgreement(trace[j - 1], trace[j], requests[j - 1], moments[j - 1], o);
      SalesStand(trace, requests, moments, i, j, o);
    }
  }

  lemma {:induction false} StaysClosed(trace: seq<Shop>, requests: seq<Request>, moments: seq<Moment>, i: nat, j: nat, o: Id)
    requires IsRunOf(trace, requests, moments) && i <= j < |trace|
    requires IsPastDraft(trace[i].world, o) && AllClosed(trace[i].world.items, o) && BoundedIn(trace[i].world.items, o)
    ensures AllClosed(trace[j].world.items, o) && BoundedIn(trace[j].world.items, o) && IsPastDraft(trace[j].world, o)
  {
    hide IsRunOf, Served, Inv, Remembers, AllClosed, BoundedIn, IsPastDraft;
    if i < j {
      StaysClosed(trace, requests, moments, i, j - 1, o);
      RunStep(trace, requests, moments, j - 1);
      StepKeepsClosed(trace[j - 1], trace[j], requests[j - 1], moments[j - 1], o);
      SalesStand(trace, requests, moments, i, j, o);
    }
  }

  /** Nothing of the order has been refunded: its quantities say so, and no record names an item of it. */
  ghost predicate Unrefunded(s: Shop, o: Id) {
    && NothingRefunded(s.world.items, o)
    && forall j :: 0 <= j < |s.records| ==>
       && (s.records[j].ticketRefundedAt.Some? ==> s.records[j].feeRefundedAt.Some?)
       && !(s.records[j].orderItemId in s.world.items && s.world.items[s.records[j].orderItemId].orderId == o)
  }

  /**
    An order that was past draft, fit for refunds and not refunded at all by the `i`-th request: if all refund requests since,
    of whatever order, were sound, and the `n`-th, a refund of the order, left it with all tickets refunded, then it has owed
    nothing ever since.
   */
  lemma RefundedOrdersOweNothing(trace: seq<Shop>, requests: seq<Request>, moments: seq<Moment>, i: nat, n: nat, m: nat, o: Id)
    requires IsRunOf(trace, requests, moments) && i <= n < m < |trace| == |requests| + 1 && |moments| == |requests|
    requires IsPastDraft(trace[i].world, o) && WellFormed(trace[i].world.items, o) && Unrefunded(trace[i], o)
    requires AllSound(trace, requests, i, n + 1)
    requires requests[n].RefundOrder? && requests[n].orderId == o && trace[n + 1] != At(trace[n], moments[n].now)
    requires TicketsFullyRefunded(trace[n + 1].world.items, o)
    ensures OrderTotal(trace[m].world.items, o) == 0
    ensures forall k :: k in trace[m].world.items && trace[m].world.items[k].orderId == o ==> !Open(trace[m].world.items[k])
  {
    hide IsRunOf, Served, Inv, Remembers, IsSound, IsPastDraft, WellFormed, Unrefunded, TicketsFullyRefunded, InAgreement;
    StartsInAgreement(trace, requests, moments, i, o);
    StaysInAgreement(trace, requests, moments, i, n, o);
    RunStep(trace, requests, moments, n);
    StepKeepsAgreement(trace[n], trace[n + 1], requests[n], moments[n], o);
    SalesStand(trace, requests, moments, n, n + 1, o);
    AgreementIsBounded(trace[n + 1], o);
    StaysClosed(trace, requests, moments, n + 1, m, o);
    ClosedOrderOwesNothing(trace[m].world.items, o);
  }

  lemma StartsInAgreement(trace: seq<Shop>, requests: seq<Request>, moments: seq<Moment>, i: nat, o: Id)
    requires IsRunOf(trace, requests, moments) && i < |trace| && WellFormed(trace[i].world.items, o) && Unrefunded(trace[i], o)
    ensures InAgreement(trace[i], o)
  {
    hide Served, Inv, WellFormed;
    ShopIsInv(trace[i]);
    InvIsStructured(trace[i].world);
    WellFormedIsRefundable(trace[i].world.items, o);
    LedgerStartsInAgreement(RefundStateOf(trace[i]), o);
  }

  lemma AgreementIsBounded(s: Shop, o: Id)
    requires InAgreement(s, o)
    ensures BoundedIn(s.world.items, o)
  {
  }
}
