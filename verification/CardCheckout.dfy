/**
  Paying by card (api/src/controllers/cart.rs:186-203, 300-345, 440-574, api/src/middleware/database_transaction.rs:30-58):
  authorize the charge, record it, commit, capture the charge, complete the order, deliver the tokens, commit. Any step
  may fail, and the process may stop after any of them, which rolls back what was not committed.
 */
module CardCheckout {
  import opened Schema
  import opened Holds
  import opened Inventory
  import opened OrderFees
  import opened OrderItems
  import opened Requests
  import opened Runs
  import opened RunTheorems
  import opened Sales

  datatype ChargeState = ChargeAuthorized | ChargeCaptured | ChargeVoid

  /** The card processor's books, by reference. A call may fail, and then nothing has changed there. */
  class CardProcessor {
    var charges: map<string, ChargeState>
    // How many calls have failed.
    ghost var refused: nat

    constructor ()
      ensures charges == map[] && refused == 0
    {
      charges, refused := map[], 0;
    }

    /** `fresh_` is the reference the processor would give out. Nothing negative is authorized. */
    method Auth(amount: int, fresh_: string) returns (r: Result<string>)
      modifies this
      ensures r.Ok? ==>
        r.value == fresh_ && fresh_ !in old(charges) && 0 <= amount && charges == old(charges)[fresh_ := ChargeAuthorized]
      ensures r.Err? ==> charges == old(charges)
      ensures refused == old(refused) + (if r.Ok? then 0 else 1)
    {
      if fresh_ in charges || amount < 0 {
        refused := refused + 1;
        return Err(InternalError);
      }
      if * {
        refused := refused + 1;
        return Err(InternalError);
      }
      charges := charges[fresh_ := ChargeAuthorized];
      return Ok(fresh_);
    }

    method CompleteAuthedCharge(charge: string) returns (r: Result<()>)
      modifies this
      ensures r.Ok? ==>
        charge in old(charges) && old(charges)[charge] == ChargeAuthorized && charges == old(charges)[charge := ChargeCaptured]
      ensures r.Err? ==> charges == old(charges)
      ensures refused == old(refused) + (if r.Ok? then 0 else 1)
    {
      if charge !in charges || charges[charge] != ChargeAuthorized {
        refused := refused + 1;
        return Err(InternalError);
      }
      if * {
        refused := refused + 1;
        return Err(InternalError);
      }
      charges := charges[charge := ChargeCaptured];
      return Ok(());
    }

    method Refund(charge: string) returns (r: Result<()>)
      modifies this
      ensures r.Ok? ==> charge in old(charges) && charges == old(charges)[charge := ChargeVoid]
      ensures r.Err? ==> charges == old(charges)
      ensures refused == old(refused) + (if r.Ok? then 0 else 1)
    {
      if charge !in charges {
        refused := refused + 1;
        return Err(InternalError);
      }
      if * {
        refused := refused + 1;
        return Err(InternalError);
      }
      charges := charges[charge := ChargeVoid];
      return Ok(());
    }
  }

  // ------------------------------------------------------------ charges and rows

  ghost predicate Records(p: Payment, charge: string) {
    p.paymentMethod == CreditCard && p.externalReference == Some(charge)
  }

  ghost predicate OnSomeRow(payments: seq<Payment>, charge: string) {
    exists i :: 0 <= i < |payments| && Records(payments[i], charge)
  }

  /** Every captured charge is on some payment row. */
  ghost predicate CapturesRecorded(charges: map<string, ChargeState>, payments: seq<Payment>) {
    forall c :: c in charges && charges[c] == ChargeCaptured ==> OnSomeRow(payments, c)
  }

  /** Payments are never deleted, and go on carrying the reference they were made with. */
  ghost predicate ReferencesKept(before: seq<Payment>, after: seq<Payment>) {
    && |before| <= |after|
    && forall i {:trigger before[i]} {:trigger after[i]} :: 0 <= i < |before| ==>
       after[i].externalReference == before[i].externalReference && after[i].paymentMethod == before[i].paymentMethod
  }

  lemma RowsRecord(payments: seq<Payment>, i: nat, charge: string)
    requires i < |payments| && Records(payments[i], charge)
    ensures OnSomeRow(payments, charge)
  {
  }

  lemma KeptReferencesRecord(charges: map<string, ChargeState>, payments: seq<Payment>, after: seq<Payment>)
    requires CapturesRecorded(charges, payments) && ReferencesKept(payments, after)
    ensures CapturesRecorded(charges, after)
  {
    forall c | c in charges && charges[c] == ChargeCaptured ensures OnSomeRow(after, c) {
      var i :| 0 <= i < |payments| && Records(payments[i], c);
      assert Records(after[i], c);
    }
  }

  /** A charge may change its state as it likes once it is recorded, and to anything but captured at any time. */
  lemma ChargeRecorded(charges: map<string, ChargeState>, payments: seq<Payment>, charge: string, state: ChargeState)
    requires CapturesRecorded(charges, payments)
    requires state == ChargeCaptured ==> OnSomeRow(payments, charge)
    ensures CapturesRecorded(charges[charge := state], payments)
  {
  }

  // ------------------------------------------------------------ the two transactions

  /** Voids a charge, if the processor agrees. */
  method VoidCharge(conn: Connection, cards: CardProcessor, charge: string) returns (r: Result<()>)
    requires CapturesRecorded(cards.charges, conn.committed.payments) && charge in cards.charges
    modifies cards
    ensures CapturesRecorded(cards.charges, conn.committed.payments)
    ensures charge in cards.charges && cards.charges == old(cards.charges)[charge := cards.charges[charge]]
    ensures cards.refused >= old(cards.refused)
    ensures cards.charges[charge] == if cards.refused == old(cards.refused) then ChargeVoid else old(cards.charges)[charge]
  {
    ChargeRecorded(cards.charges, conn.committed.payments, charge, ChargeVoid);
    hide CapturesRecorded;
    ghost var charges := cards.charges;
    assert charges[charge := charges[charge]] == charges;
    r := cards.Refund(charge);
  }

  /** The cart is locked and the charge authorized. */
  method AuthCart(conn: Connection, cards: CardProcessor, userId: Id, amount: int, reference: string) returns (r: Result<Order>)
    requires Inv(WorldOf(conn)) && CapturesRecorded(cards.charges, conn.committed.payments)
    modifies conn`orders, cards
    ensures CapturesRecorded(cards.charges, conn.committed.payments)
    ensures r.Ok? <==> (exists o :: old(IsCartOf(conn, userId, o))) && cards.refused == old(cards.refused)
    ensures r.Err? ==> cards.charges == old(cards.charges)
    ensures r.Ok? ==>
      && 0 <= amount && cards.charges == old(cards.charges)[reference := ChargeAuthorized] && reference !in old(cards.charges)
      && Inv(WorldOf(conn)) && Undisturbed(old(WorldOf(conn)), WorldOf(conn), {})
      && old(IsCartOf(conn, userId, r.value.id)) && r.value.id in old(conn.orders) && old(conn.orders)[r.value.id].status == Draft
      && (forall o :: old(IsCartOf(conn, userId, o)) ==> o == r.value.id)
      && r.value == old(conn.orders)[r.value.id].(version := old(conn.orders)[r.value.id].version + 1)
      && conn.orders == old(conn.orders)[r.value.id := r.value]
  {
    hide Inv, Undisturbed, IsCartOf, CapturesRecorded;
    forall o | IsCartOf(conn, userId, o) ensures forall other :: IsCartOf(conn, userId, other) ==> other == o {
      OneCart(conn, userId, o);
    }
    r := LockCart(conn, userId);
    if r.Ok? {
      ghost var charges := cards.charges;
      var auth := cards.Auth(amount, reference);
      if auth.Err? {
        return Err(auth.error);
      }
      ChargeRecorded(charges, conn.committed.payments, reference, ChargeAuthorized);
    }
  }

  /**
    The first transaction, up to its commit: lock, authorize, record. It goes through when a checkout by card can, and the
    processor does not refuse; a charge that cannot be recorded is voided.
   */
  method AuthAndRecord(conn: Connection, cards: CardProcessor, userId: Id, amount: int, reference: string) returns (r: Result<Id>)
    requires Steady(conn) && CapturesRecorded(cards.charges, conn.committed.payments)
    modifies conn, cards
    ensures Steady(conn) && conn.now == old(conn.now) && CapturesRecorded(cards.charges, conn.committed.payments)
    ensures r.Ok? <==>
      (exists o :: old(CanCheckout(conn, userId, o, amount, CardCheckout(reference), true))) && cards.refused == old(cards.refused)
    ensures r.Err? ==> conn.Snapshot() == old(conn.Snapshot())
    ensures r.Err? ==> forall c :: c !in old(cards.charges) && c in cards.charges ==>
      cards.charges[c] == (if cards.refused == old(cards.refused) then ChargeVoid else ChargeAuthorized)
    ensures r.Ok? ==>
      && r.value == |old(conn.payments)| && |conn.payments| == r.value + 1
      && conn.payments == old(conn.payments) + [conn.payments[r.value]]
      && Records(conn.payments[r.value], reference)
      && conn.payments[r.value].status == Authorized && conn.payments[r.value].updatedAt == conn.now
      && (var o := conn.payments[r.value].orderId; old(IsCartOf(conn, userId, o)))
      && CheckedOut(old(WorldOf(conn)), old(conn.users), WorldOf(conn), conn.users, conn.payments, r.value, amount, CardCheckout(reference))
      && cards.charges == old(cards.charges)[reference := ChargeAuthorized] && reference !in old(cards.charges)
  {
    hide ShopOk, Inv, Undisturbed, OrdersAdvance, SamePlaces, BooksOk, CapturesRecorded, ReferencesKept, OrderTotal,
      TotalPaid, IsCartOf, CheckedOut, CanPay, OnSomeRow, Records, Remembers, HasWallet, ItemsOf, IsPastDraft, KeepsRows;
    ghost var start, users, payments, charges := WorldOf(conn), conn.users, conn.payments, cards.charges;
    ShopIsInv(ShopOf(conn));
    var locked := AuthCart(conn, cards, userId, amount, reference);
    if locked.Err? {
      conn.RollbackTransaction();
      return Err(locked.error);
    }
    ghost var ready := WorldOf(conn);
    assert ready == start.(orders := start.orders[locked.value.id := locked.value]);
    PayingIgnoresTheVersion(start.orders[locked.value.id], CardCheckout(reference), conn.orderItems, payments, conn.wallets,
                            PaymentFor(locked.value.id, amount, CardCheckout(reference), conn.now), conn.now);
    r := PayFor(conn, locked.value, amount, CardCheckout(reference), start, ready);
    if r.Err? {
      var _ := VoidCharge(conn, cards, reference);
      conn.RollbackTransaction();
      return;
    }
    assert old(CanCheckout(conn, userId, locked.value.id, amount, CardCheckout(reference), true));
    CardIsRecorded(start, users, WorldOf(conn), conn.users, conn.payments, r.value, amount, reference);
    AppendKeepsReferences(payments, conn.payments[r.value]);
    KeptReferencesRecord(cards.charges, payments, conn.payments);
    conn.CommitTransaction();
  }

  lemma CardIsRecorded(w: World, users: map<Id, User>, after: World, users': map<Id, User>, payments: seq<Payment>, paymentId: Id, amount: int,
                       reference: string)
    requires paymentId < |payments| && CheckedOut(w, users, after, users', payments, paymentId, amount, CardCheckout(reference))
    ensures Records(payments[paymentId], reference)
    ensures payments[paymentId].status == Authorized && payments[paymentId].updatedAt == w.now
  {
  }

  lemma AppendKeepsReferences(payments: seq<Payment>, payment: Payment)
    ensures ReferencesKept(payments, payments + [payment])
  {
  }

  lemma CaptureKeepsReferences(payments: seq<Payment>, paymentId: Id, self: Payment, now: Time)
    requires paymentId < |payments|
    ensures ReferencesKept(payments, Captured(payments, paymentId, self, now))
  {
  }

  /**
    The second transaction: capture, complete, deliver. The process may stop after the charge has been captured; and tokens may
    not be transferred or the mail not be sent. A charge for an order that cannot be completed is voided, in any other case of
    failure it remains.
   */
  method CaptureAndDeliver(conn: Connection, cards: CardProcessor, paymentId: Id, reference: string, stamp: Time, stops: bool, delivered: bool)
    returns (r: Result<()>)
    requires Steady(conn) && CapturesRecorded(cards.charges, conn.committed.payments)
    requires paymentId < |conn.payments| && Records(conn.payments[paymentId], reference) && reference in cards.charges
    modifies conn, cards
    ensures Steady(conn) && conn.now == old(conn.now) && CapturesRecorded(cards.charges, conn.committed.payments)
    ensures reference in cards.charges && cards.charges == old(cards.charges)[reference := cards.charges[reference]]
    ensures
      var completes := CanCapture(old(WorldOf(conn)), old(conn.payments), conn.wallets, paymentId, stamp);
      && (r.Ok? <==> !stops && delivered && completes && cards.refused == old(cards.refused))
      && (cards.refused == old(cards.refused) ==>
            cards.charges[reference] == if stops || completes then ChargeCaptured else ChargeVoid)
    ensures r.Err? ==> conn.Snapshot() == old(conn.Snapshot())
    ensures r.Ok? ==>
      && OnlyPaysFor(old(WorldOf(conn)), WorldOf(conn), old(conn.payments)[paymentId].orderId)
      && cards.charges[reference] == ChargeCaptured
      && conn.payments == Captured(old(conn.payments), paymentId, AsInserted(old(conn.payments)[paymentId], stamp), conn.now)
  {
    hide Inv, HoldsOk, PaymentsBelong, OrdersAdvance, SamePlaces, BooksOk, CapturesRecorded, ReferencesKept, Remembers, OrderTotal, TotalPaid,
      OnlyPaysFor, HasWallet, ItemsOf, CanCapture;
    RowsRecord(conn.payments, paymentId, reference);
    ghost var payments, charges := conn.payments, cards.charges;
    assert charges[reference := charges[reference]] == charges;
    var charged := cards.CompleteAuthedCharge(reference);
    if charged.Err? {
      conn.RollbackTransaction();
      return charged;
    }
    ChargeRecorded(charges, conn.committed.payments, reference, ChargeCaptured);
    if stops {
      conn.RollbackTransaction();
      return Err(InternalError);
    }
    var marked := HandleCapture(conn, paymentId, stamp);
    if marked.Err? {
      var _ := VoidCharge(conn, cards, reference);
      conn.RollbackTransaction();
      return marked;
    }
    if !delivered {
      conn.RollbackTransaction();
      return Err(InternalError);
    }
    CaptureKeepsReferences(payments, paymentId, AsInserted(payments[paymentId], stamp), conn.now);
    KeptReferencesRecord(cards.charges, payments, conn.payments);
    conn.CommitTransaction();
    return Ok(());
  }

  lemma RunKeepsReferences(trace: seq<Shop>, requests: seq<Request>, moments: seq<Moment>)
    requires IsRunOf(trace, requests, moments)
    ensures |trace| == |requests| + 1 && |moments| == |requests|
    ensures ReferencesKept(trace[0].payments, trace[|requests|].payments)
  {
    assert |trace| == |requests| + 1;
    hide IsRunOf;
    forall p | 0 <= p < |trace[0].payments| ensures p < |trace[|requests|].payments|
      && trace[|requests|].payments[p].externalReference == trace[0].payments[p].externalReference
      && trace[|requests|].payments[p].paymentMethod == trace[0].payments[p].paymentMethod
    {
      PaymentsOnlyComplete(trace, requests, moments, |requests|, p);
    }
    if |trace[0].payments| > 0 {
      PaymentsOnlyComplete(trace, requests, moments, |requests|, |trace[0].payments| - 1);
    }
  }

  lemma OthersInOrder(now: Time, moments: seq<Moment>, last: Moment)
    requires InOrder(now, moments + [last])
    ensures InOrder(now, moments) && (if moments == [] then now else moments[|moments| - 1].now) <= last.now
  {
    var all := moments + [last];
    assert all[|moments|] == last;
    assert forall i :: 0 <= i < |moments| ==> all[i] == moments[i];
  }

  lemma ShopAtAnyTime(w: World, holds: map<Id, Hold>, payments: seq<Payment>, now: Time)
    requires ShopOk(w, holds, payments) && Inv(w.(now := now))
    ensures ShopOk(w.(now := now), holds, payments)
  {
  }

  /** Where the process may stop. */
  datatype Stop = Never | BetweenTransactions | AfterCapture

  /**
    The whole of it, with any other requests between the two transactions. Wherever it ends, every captured charge has a
    committed payment row with its reference. On success that row is Completed. When it ends early, this charge may have
    been captured nevertheless, and then its row says Authorized, unless one of the others has completed it. `trace` is the
    shop from the first commit up to the second transaction, unless it does not get there.
   */
  method Checkout(conn: Connection, cards: CardProcessor, outside: Outside, userId: Id, amount: int, reference: string,
                  others: seq<Request>, moments: seq<Moment>, later: Time, stop: Stop, delivered: bool)
    returns (r: Result<()>, ghost paymentId: Id, ghost trace: seq<Shop>)
    requires Steady(conn) && SchedulesAscend(conn.ticketTypes) && CapturesRecorded(cards.charges, conn.committed.payments)
    requires |moments| == |others| && InOrder(conn.now, moments + [Moment(later, map[], {})])
    requires reference !in cards.charges
    modifies conn, cards, outside.ledger, outside.processor, outside.chain
    ensures Steady(conn) && CapturesRecorded(cards.charges, conn.committed.payments)
    ensures
      var authorized := (exists o :: old(CanCheckout(conn, userId, o, amount, CardCheckout(reference), true)));
      && (authorized && cards.refused == old(cards.refused) && !stop.BetweenTransactions? ==>
            && conn.now == later && IsRunOf(trace, others, moments) && paymentId < |trace[0].payments|
            && CheckedOut(old(WorldOf(conn)), old(conn.users), trace[0].world, trace[0].users, trace[0].payments, paymentId, amount,
                          CardCheckout(reference)))
      && (r.Ok? <==>
            && authorized && cards.refused == old(cards.refused) && stop.Never? && delivered && |trace| == |others| + 1
            && CanCapture(At(trace[|others|], later).world, trace[|others|].payments, conn.wallets, paymentId, old(conn.now)))
    ensures r.Ok? ==>
      && |trace| == |others| + 1 && paymentId < |trace[|others|].payments|
      && OnlyPaysFor(At(trace[|others|], later).world, WorldOf(conn), trace[|others|].payments[paymentId].orderId)
      && reference in cards.charges && cards.charges[reference] == ChargeCaptured
      && paymentId < |conn.payments| && Records(conn.payments[paymentId], reference) && conn.payments[paymentId].status == Completed
    ensures r.Err? && reference in cards.charges && cards.charges[reference] == ChargeCaptured ==>
      && paymentId < |conn.payments| && Records(conn.payments[paymentId], reference)
      && (conn.payments[paymentId].status == Authorized
          || (conn.payments[paymentId].status == Completed && CapturedIn(others, |others|, paymentId)))
  {
    hide Inv, ShopOk, HoldsOk, PaymentsBelong, CapturesRecorded, ReferencesKept, IsRunOf, SchedulesAscend, InOrder, CapturedIn, CheckedOut,
      CanCheckout, CanCapture, OnlyPaysFor;
    paymentId, trace := 0, [];
    var stamp := conn.now;
    OthersInOrder(conn.now, moments, Moment(later, map[], {}));
    var recorded := AuthAndRecord(conn, cards, userId, amount, reference);
    if recorded.Err? {
      return Err(recorded.error), paymentId, trace;
    }
    paymentId := recorded.value;
    if stop.BetweenTransactions? {
      return Err(InternalError), paymentId, trace;
    }
    ghost var payments := conn.payments;
    trace := ServeAll(conn, outside, others, moments);
    RunKeepsReferences(trace, others, moments);
    PaymentsOnlyComplete(trace, others, moments, |others|, paymentId);
    KeptReferencesRecord(cards.charges, payments, conn.payments);
    ShopIsInv(ShopOf(conn));
    WaitingIsSafe(WorldOf(conn), later);
    ShopAtAnyTime(WorldOf(conn), conn.holds, conn.payments, later);
    conn.now := later;
    r := CaptureAndDeliver(conn, cards, recorded.value, reference, stamp, stop.AfterCapture?, delivered);
  }
}
