/**
  Paying a refund back out of the charges on an order: the loop in the refund controller
  (api/src/controllers/orders.rs) and `Payment::log_refund` (db/src/models/payments.rs).
 */
module Payouts {
  import opened Schema

  type Reference = Option<string>

  /** The card processor. A call may be declined, and then nothing has happened but that it is remembered. */
  class PaymentProcessor {
    // Partial refunds that went through, oldest first.
    var refunds: seq<(string, u32)>
    ghost var declined: seq<(string, u32)>

    constructor ()
      ensures refunds == [] && declined == []
    {
      refunds, declined := [], [];
    }

    method PartialRefund(reference: string, amount: u32) returns (r: Result<()>)
      modifies this
      ensures refunds == if r.Ok? then old(refunds) + [(reference, amount)] else old(refunds)
      ensures declined == if r.Ok? then old(declined) else old(declined) + [(reference, amount)]
    {
      if * {
        refunds := refunds + [(reference, amount)];
        return Ok(());
      }
      declined := declined + [(reference, amount)];
      return Err(InternalError);
    }
  }

  // ------------------------------------------------------------ balances

  function OrderPayments(payments: seq<Payment>, orderId: Id): (r: seq<Payment>)
  {
    if payments == [] then []
    else
      var earlier := OrderPayments(payments[..|payments| - 1], orderId);
      var last := payments[|payments| - 1];
      if last.orderId == orderId then earlier + [last] else earlier
  }

  /** What is left of the charges under `reference`: refunds are negative rows under the same reference. */
  function Balance(payments: seq<Payment>, reference: Reference): (cents: int) {
    if payments == [] then 0
    else
      var last := payments[|payments| - 1];
      Balance(payments[..|payments| - 1], reference)
        + if last.status != Authorized && last.externalReference == reference then last.amount else 0
  }

  /** Everything paid on these rows and not paid back. */
  function NetPaid(payments: seq<Payment>): (cents: int) {
    if payments == [] then 0
    else
      var last := payments[|payments| - 1];
      NetPaid(payments[..|payments| - 1]) + if last.status != Authorized then last.amount else 0
  }

  lemma {:induction false} OrderPaymentsOfAppend(a: seq<Payment>, b: seq<Payment>, orderId: Id)
    ensures OrderPayments(a + b, orderId) == OrderPayments(a, orderId) + OrderPayments(b, orderId)
  {
    if b == [] {
      assert a + b == a;
    } else {
      assert (a + b)[..|a + b| - 1] == a + b[..|b| - 1];
      OrderPaymentsOfAppend(a, b[..|b| - 1], orderId);
    }
  }

  lemma {:induction false} NetPaidOfAppend(a: seq<Payment>, b: seq<Payment>)
    ensures NetPaid(a + b) == NetPaid(a) + NetPaid(b)
  {
    if b == [] {
      assert a + b == a;
    } else {
      assert (a + b)[..|a + b| - 1] == a + b[..|b| - 1];
      NetPaidOfAppend(a, b[..|b| - 1]);
    }
  }

  lemma {:induction false} BalanceOfAppend(a: seq<Payment>, b: seq<Payment>, reference: Reference)
    ensures Balance(a + b, reference) == Balance(a, reference) + Balance(b, reference)
  {
    if b == [] {
      assert a + b == a;
    } else {
      assert (a + b)[..|a + b| - 1] == a + b[..|b| - 1];
      BalanceOfAppend(a, b[..|b| - 1], reference);
    }
  }

  /** The balance map, as the controller accumulates it. */
  method BalancesByReference(payments: seq<Payment>) returns (balances: map<Reference, int>)
    ensures forall reference ::
      (if reference in balances then balances[reference] else 0) == Balance(payments, reference)
  {
    balances := map[];
    for i := 0 to |payments|
      invariant forall reference ::
        (if reference in balances then balances[reference] else 0) == Balance(payments[..i], reference)
    {
      assert payments[..i + 1][..i] == payments[..i];
      var payment := payments[i];
      if payment.status != Authorized {
        var soFar := if payment.externalReference in balances then balances[payment.externalReference] else 0;
        balances := balances[payment.externalReference := soFar + payment.amount];
      }
    }
    assert payments[..|payments|] == payments;
  }

  // ------------------------------------------------------------ the rows a payout logs

  function Min(a: int, b: int): (m: int) {
    if a <= b then a else b
  }

  predicate IsCharge(payment: Payment, payments: seq<Payment>) {
    payment.status == Completed && Balance(payments, payment.externalReference) != 0
  }

  /** `as u32` of the balance the payment's reference had before the payout began. */
  function Reach(payment: Payment, payments: seq<Payment>): (cents: nat) {
    if IsCharge(payment, payments) then ToU32(Balance(payments, payment.externalReference)) else 0
  }

  function TotalReach(rows: seq<Payment>, payments: seq<Payment>): (cents: nat) {
    if rows == [] then 0 else TotalReach(rows[..|rows| - 1], payments) + Reach(rows[|rows| - 1], payments)
  }

  function RefundRow(payment: Payment, amount: int, now: Time): (r: Payment) {
    payment.(status := Refunded, amount := -amount, updatedAt := now)
  }

  /** The rows logged for the charges among `rows`: each takes what its balance still reaches of the amount due. */
  function LoggedRows(due: nat, rows: seq<Payment>, payments: seq<Payment>, now: Time): (logged: seq<Payment>)
    ensures -NetPaid(logged) == Min(due, TotalReach(rows, payments))
  {
    if rows == [] then []
    else
      var earlier := LoggedRows(due, rows[..|rows| - 1], payments, now);
      var last := rows[|rows| - 1];
      if !IsCharge(last, payments) then earlier
      else
        var row := RefundRow(last, Min(due + NetPaid(earlier), Reach(last, payments)), now);
        assert (earlier + [row])[..|earlier|] == earlier;
        earlier + [row]
  }

  /** What the processor is asked to pay for logged rows: those of cards. */
  function CardRefunds(logged: seq<Payment>): (refunds: seq<(string, u32)>) {
    if logged == [] then []
    else
      var last := logged[|logged| - 1];
      CardRefunds(logged[..|logged| - 1])
        + if last.paymentMethod == CreditCard && last.externalReference.Some?
          then [(last.externalReference.value, ToU32(-last.amount))] else []
  }

  lemma CardRefundsStep(logged: seq<Payment>, payment: Payment, amount: u32, now: Time)
    ensures CardRefunds(logged + [RefundRow(payment, amount, now)]) == CardRefunds(logged)
      + if payment.paymentMethod == CreditCard && payment.externalReference.Some? then [(payment.externalReference.value, amount)] else []
  {
    assert (logged + [RefundRow(payment, amount, now)])[..|logged|] == logged;
  }

  predicate LacksReference(payment: Payment, payments: seq<Payment>) {
    IsCharge(payment, payments) && payment.paymentMethod == CreditCard && payment.externalReference.None?
  }

  /** What the logged rows paid back under one payment method. */
  function PaidBackBy(logged: seq<Payment>, paymentMethod: PaymentMethod): (cents: int) {
    if logged == [] then 0
    else
      var last := logged[|logged| - 1];
      PaidBackBy(logged[..|logged| - 1], paymentMethod) + if last.paymentMethod == paymentMethod then -last.amount else 0
  }

  function Breakdown(refundBreakdown: map<PaymentMethod, u32>, paymentMethod: PaymentMethod): (cents: u32) {
    if paymentMethod in refundBreakdown then refundBreakdown[paymentMethod] else 0
  }

  ghost predicate IsBreakdownOf(refundBreakdown: map<PaymentMethod, u32>, logged: seq<Payment>) {
    forall m :: Breakdown(refundBreakdown, m) == PaidBackBy(logged, m)
  }

  lemma LoggedRowsStep(due: nat, rows: seq<Payment>, i: nat, payments: seq<Payment>, now: Time)
    requires i < |rows|
    ensures
      var earlier := LoggedRows(due, rows[..i], payments, now);
      && LoggedRows(due, rows[..i + 1], payments, now) ==
        (if !IsCharge(rows[i], payments) then earlier
         else earlier + [RefundRow(rows[i], Min(due + NetPaid(earlier), Reach(rows[i], payments)), now)])
  {
    assert rows[..i + 1][..i] == rows[..i];
  }

  lemma BreakdownStep(before: map<PaymentMethod, u32>, logged: seq<Payment>, row: Payment, after: map<PaymentMethod, u32>)
    requires IsBreakdownOf(before, logged)
    requires 0 <= Breakdown(before, row.paymentMethod) - row.amount < U32_SIZE
    requires after == before[row.paymentMethod := Breakdown(before, row.paymentMethod) - row.amount]
    ensures IsBreakdownOf(after, logged + [row])
  {
    assert (logged + [row])[..|logged|] == logged;
  }

  /** The breakdown adds up to what was paid back, so no entry can exceed it. */
  lemma {:induction false} BreakdownAddsUp(logged: seq<Payment>)
    requires forall i :: 0 <= i < |logged| ==> logged[i].status == Refunded && logged[i].amount <= 0
    ensures PaidBackBy(logged, External) + PaidBackBy(logged, CreditCard) == -NetPaid(logged)
    ensures 0 <= PaidBackBy(logged, External) && 0 <= PaidBackBy(logged, CreditCard)
  {
    if logged != [] {
      BreakdownAddsUp(logged[..|logged| - 1]);
    }
  }

  lemma {:induction false} LoggedRowsAreRefunds(due: nat, rows: seq<Payment>, payments: seq<Payment>, now: Time)
    ensures forall row :: row in LoggedRows(due, rows, payments, now) ==> row.status == Refunded && row.amount <= 0
  {
    if rows != [] {
      LoggedRowsAreRefunds(due, rows[..|rows| - 1], payments, now);
      var earlier := LoggedRows(due, rows[..|rows| - 1], payments, now);
    }
  }

  method LogRefund(conn: Connection, self: Payment, refundAmount: u32)
    modifies conn`payments
    ensures conn.payments == old(conn.payments) + [RefundRow(self, refundAmount, conn.now)]
  {
    conn.payments := conn.payments + [self.(status := Refunded, amount := -(refundAmount as int), updatedAt := conn.now)];
  }

  /**
    Pays `refundDue` back, charge by charge in row order. The balances are those from before the first charge: the loop
    never lowers them. `done` rows were gone through before it ended: the processor has paid for exactly those, whether
    or not their rows are there to stay.
   */
  method PayOut(conn: Connection, processor: PaymentProcessor, orderId: Id, refundDue: u32)
    returns (r: Result<map<PaymentMethod, u32>>, amountRefunded: u32, ghost done: nat)
    modifies conn`payments, processor
    ensures
      var rows := OrderPayments(old(conn.payments), orderId);
      && (r.Ok? <==>
            && processor.declined == old(processor.declined)
            && refundDue <= TotalReach(rows, rows) && forall p :: p in rows ==> !LacksReference(p, rows))
      && old(processor.declined) <= processor.declined && |processor.declined| <= |old(processor.declined)| + 1
      && done <= |rows| && (r.Ok? ==> done == |rows|)
      && processor.refunds == old(processor.refunds) + CardRefunds(LoggedRows(refundDue, rows[..done], rows, conn.now))
      && (r.Ok? ==>
        && amountRefunded == refundDue
        && conn.payments == old(conn.payments) + LoggedRows(refundDue, rows, rows, conn.now)
        && IsBreakdownOf(r.value, LoggedRows(refundDue, rows, rows, conn.now)))
  {
    hide Balance, NetPaid, OrderPayments, TotalReach, LoggedRows, PaidBackBy, IsBreakdownOf, CardRefunds;
    var rows := OrderPayments(conn.payments, orderId);
    var balances := BalancesByReference(rows);
    var refundBreakdown: map<PaymentMethod, u32> := map[];
    amountRefunded := 0;
    ghost var before := conn.payments;
    ghost var logged := [];
    NothingLoggedYet(refundDue, rows, conn.now);

    for i := 0 to |rows|
      invariant logged == LoggedRows(refundDue, rows[..i], rows, conn.now)
      invariant conn.payments == before + logged
      invariant amountRefunded == -NetPaid(logged) <= refundDue
      invariant IsBreakdownOf(refundBreakdown, logged)
      invariant forall p :: p in rows[..i] ==> !LacksReference(p, rows)
      invariant processor.declined == old(processor.declined)
      invariant processor.refunds == old(processor.refunds) + CardRefunds(logged)
    {
      LoggedRowsStep(refundDue, rows, i, rows, conn.now);
      var payment := rows[i];
      done := i;
      if payment.status != Completed {
        continue;
      }
      var remainingBalance := if payment.externalReference in balances then balances[payment.externalReference] else 0;
      if remainingBalance == 0 {
        continue;
      }
      var amountToRefund: u32 := Min(refundDue - amountRefunded, ToU32(remainingBalance));
      if payment.paymentMethod == CreditCard {
        if payment.externalReference.None? {
          assert LacksReference(rows[i], rows);
          return Err(InternalError), amountRefunded, done;
        }
        var refundData := processor.PartialRefund(payment.externalReference.value, amountToRefund);
        if refundData.Err? {
          return Err(refundData.error), amountRefunded, done;
        }
      }
      LogRefund(conn, payment, amountToRefund);
      LogStep(logged, refundDue, rows[..i], rows, refundBreakdown, payment, amountToRefund, conn.now);
      CardRefundsStep(logged, payment, amountToRefund, conn.now);
      refundBreakdown :=
        refundBreakdown[payment.paymentMethod := Breakdown(refundBreakdown, payment.paymentMethod) + amountToRefund];
      logged := logged + [RefundRow(payment, amountToRefund, conn.now)];
      amountRefunded := amountRefunded + amountToRefund;
    }
    assert rows[..|rows|] == rows;
    done := |rows|;
    if amountRefunded < refundDue {
      return Err(InternalError), amountRefunded, done;
    }
    return Ok(refundBreakdown), amountRefunded, done;
  }

  /** A payout that is cut short has paid for the first of the rows it would have logged. */
  lemma {:induction false} CutShort(due: nat, rows: seq<Payment>, n: nat, payments: seq<Payment>, now: Time)
    requires n <= |rows|
    ensures CardRefunds(LoggedRows(due, rows[..n], payments, now)) <= CardRefunds(LoggedRows(due, rows, payments, now))
    decreases |rows|
  {
    if n == |rows| {
      assert rows[..n] == rows;
    } else {
      var front := rows[..|rows| - 1];
      assert front[..n] == rows[..n];
      CutShort(due, front, n, payments, now);
      var earlier, logged := LoggedRows(due, front, payments, now), LoggedRows(due, rows, payments, now);
      if logged != earlier {
        assert logged[..|logged| - 1] == earlier;
      }
    }
  }

  lemma NothingLoggedYet(due: nat, payments: seq<Payment>, now: Time)
    ensures LoggedRows(due, [], payments, now) == [] && NetPaid([]) == 0 && CardRefunds([]) == []
    ensures IsBreakdownOf(map[], [])
  {
  }

  lemma PaidBackAtMost(logged: seq<Payment>, due: u32, rows: seq<Payment>, payments: seq<Payment>, now: Time, m: PaymentMethod)
    requires logged == LoggedRows(due, rows, payments, now)
    ensures 0 <= PaidBackBy(logged, m) <= -NetPaid(logged)
  {
    LoggedRowsAreRefunds(due, rows, payments, now);
    hide LoggedRows, NetPaid, PaidBackBy;
    BreakdownAddsUp(logged);
  }

  lemma NetPaidOfRefund(logged: seq<Payment>, payment: Payment, amount: int, now: Time)
    ensures NetPaid(logged + [RefundRow(payment, amount, now)]) == NetPaid(logged) - amount
  {
    assert (logged + [RefundRow(payment, amount, now)])[..|logged|] == logged;
  }

  /** One logged row: no u32 in the breakdown overflows, since everything logged adds up to at most the amount due. */
  lemma LogStep(logged: seq<Payment>, due: u32, rows: seq<Payment>, payments: seq<Payment>,
                refundBreakdown: map<PaymentMethod, u32>, payment: Payment, amount: u32, now: Time)
    requires logged == LoggedRows(due, rows, payments, now) && IsBreakdownOf(refundBreakdown, logged)
    requires amount <= due + NetPaid(logged)
    ensures Breakdown(refundBreakdown, payment.paymentMethod) + amount < U32_SIZE
    ensures
      var row := RefundRow(payment, amount, now);
      && NetPaid(logged + [row]) == NetPaid(logged) - amount
      && IsBreakdownOf(refundBreakdown[payment.paymentMethod := Breakdown(refundBreakdown, payment.paymentMethod) + amount],
                       logged + [row])
  {
    PaidBackAtMost(logged, due, rows, payments, now, payment.paymentMethod);
    NetPaidOfRefund(logged, payment, amount, now);
    assert Breakdown(refundBreakdown, payment.paymentMethod) == PaidBackBy(logged, payment.paymentMethod);
    hide LoggedRows, NetPaid, PaidBackBy, IsBreakdownOf, Breakdown;
    BreakdownStep(refundBreakdown, logged, RefundRow(payment, amount, now),
      refundBreakdown[payment.paymentMethod := Breakdown(refundBreakdown, payment.paymentMethod) + amount]);
  }

  // ------------------------------------------------------------ no charge is overdrawn

  ghost predicate BalancesInRange(rows: seq<Payment>) {
    forall reference :: 0 <= Balance(rows, reference) < U32_SIZE
  }

  /** No two charges share a reference. */
  ghost predicate DistinctCharges(rows: seq<Payment>) {
    forall i, j :: 0 <= i < j < |rows| && IsCharge(rows[i], rows) && IsCharge(rows[j], rows) ==>
      rows[i].externalReference != rows[j].externalReference
  }

  /** After paying `due` back, some reference has been paid back more than was charged to it. */
  ghost predicate Overdraws(rows: seq<Payment>, due: nat, now: Time) {
    exists reference :: Balance(rows + LoggedRows(due, rows, rows, now), reference) < 0
  }

  /** A charge with this reference is among the first `n` rows. */
  ghost predicate Charged(rows: seq<Payment>, n: nat, reference: Reference)
    requires n <= |rows|
  {
    exists i :: 0 <= i < n && IsCharge(rows[i], rows) && rows[i].externalReference == reference
  }

  lemma {:induction false} DistinctChargesTakeAtMostTheirBalance(rows: seq<Payment>, n: nat, due: nat, now: Time, reference: Reference)
    requires n <= |rows| && DistinctCharges(rows) && BalancesInRange(rows)
    ensures
      var taken := -Balance(LoggedRows(due, rows[..n], rows, now), reference);
      0 <= taken <= if Charged(rows, n, reference) then Balance(rows, reference) else 0
  {
    hide DistinctCharges, Charged, TotalReach, LoggedRows, Reach, BalancesInRange, NetPaid, IsCharge, CardRefunds, PaidBackBy;
    if n == 0 {
      NothingLoggedYet(due, rows, now);
      ReachIsTheBalance(rows, reference);
    } else {
      hide Balance;
      DistinctChargesTakeAtMostTheirBalance(rows, n - 1, due, now, reference);
      ChargedStep(rows, n, reference);
      OneMoreTakes(rows, n - 1, due, now, reference);
    }
  }

  /** What logging one more row takes from `reference`: nothing, unless the row is a charge with that reference. */
  lemma OneMoreTakes(rows: seq<Payment>, n: nat, due: nat, now: Time, reference: Reference)
    requires n < |rows| && BalancesInRange(rows)
    ensures 0 <= Balance(rows, reference)
    ensures
      var more := Balance(LoggedRows(due, rows[..n], rows, now), reference)
                - Balance(LoggedRows(due, rows[..n + 1], rows, now), reference);
      0 <= more <= if IsCharge(rows[n], rows) && rows[n].externalReference == reference then Balance(rows, reference) else 0
  {
    hide TotalReach, LoggedRows, Reach, BalancesInRange, NetPaid, IsCharge, CardRefunds, PaidBackBy, Balance, RefundRow;
    var last := rows[n];
    ReachIsTheBalance(rows, last.externalReference);
    ReachIsTheBalance(rows, reference);
    LoggedRowsStep(due, rows, n, rows, now);
    if IsCharge(last, rows) {
      var earlier := LoggedRows(due, rows[..n], rows, now);
      var share := Min(due + NetPaid(earlier), Reach(last, rows));
      assert 0 <= share <= Reach(last, rows);
      RefundRowTakes(earlier, last, share, now, reference);
    }
  }

  lemma RefundRowTakes(earlier: seq<Payment>, payment: Payment, share: int, now: Time, reference: Reference)
    ensures Balance(earlier + [RefundRow(payment, share, now)], reference)
         == Balance(earlier, reference) - if payment.externalReference == reference then share else 0
  {
    BalanceOfRow(earlier, RefundRow(payment, share, now), reference);
  }

  lemma ReachIsTheBalance(rows: seq<Payment>, reference: Reference)
    requires BalancesInRange(rows)
    ensures 0 <= Balance(rows, reference)
    ensures forall p: Payment :: p.externalReference == reference ==>
      Reach(p, rows) == if IsCharge(p, rows) then Balance(rows, reference) else 0
  {
  }

  lemma ChargedStep(rows: seq<Payment>, n: nat, reference: Reference)
    requires 0 < n <= |rows| && DistinctCharges(rows)
    ensures
      var last := IsCharge(rows[n - 1], rows) && rows[n - 1].externalReference == reference;
      && (Charged(rows, n, reference) <==> Charged(rows, n - 1, reference) || last)
      && !(Charged(rows, n - 1, reference) && last)
  {
    if Charged(rows, n - 1, reference) {
      var i :| 0 <= i < n - 1 && IsCharge(rows[i], rows) && rows[i].externalReference == reference;
      assert Charged(rows, n, reference);
    }
  }

  lemma BalanceOfRow(earlier: seq<Payment>, row: Payment, reference: Reference)
    requires row.status == Refunded
    ensures Balance(earlier + [row], reference)
         == Balance(earlier, reference) + if row.externalReference == reference then row.amount else 0
  {
    assert (earlier + [row])[..|earlier|] == earlier;
  }

  /** Paying back everything within reach takes every charge's whole balance, once per charge. */
  lemma {:induction false} FullPayoutTakesEveryReach(rows: seq<Payment>, n: nat, due: nat, now: Time, reference: Reference, i: nat)
    requires i < n <= |rows| && BalancesInRange(rows) && TotalReach(rows[..n], rows) <= due
    requires IsCharge(rows[i], rows) && rows[i].externalReference == reference
    ensures -Balance(LoggedRows(due, rows[..n], rows, now), reference) >= Balance(rows, reference)
    ensures forall j :: i < j < n && IsCharge(rows[j], rows) && rows[j].externalReference == reference ==>
      -Balance(LoggedRows(due, rows[..n], rows, now), reference) >= 2 * Balance(rows, reference)
  {
    hide LoggedRows, Reach, BalancesInRange, NetPaid, IsCharge, Balance;
    assert rows[..n][..n - 1] == rows[..n - 1];
    LoggedRowsStep(due, rows, n - 1, rows, now);
    var earlier := LoggedRows(due, rows[..n - 1], rows, now);
    var last := rows[n - 1];
    ReachIsTheBalance(rows, reference);
    if i < n - 1 {
      FullPayoutTakesEveryReach(rows, n - 1, due, now, reference, i);
    } else {
      NothingTakenIsNegative(due, rows[..n - 1], rows, now, reference);
    }
    if IsCharge(last, rows) {
      assert Min(due + NetPaid(earlier), Reach(last, rows)) == Reach(last, rows);
      BalanceOfRow(earlier, RefundRow(last, Reach(last, rows), now), reference);
    }
  }

  lemma {:induction false} NothingTakenIsNegative(due: nat, rows: seq<Payment>, payments: seq<Payment>, now: Time, reference: Reference)
    ensures 0 <= -Balance(LoggedRows(due, rows, payments, now), reference)
  {
    if rows != [] {
      NothingTakenIsNegative(due, rows[..|rows| - 1], payments, now, reference);
      var earlier := LoggedRows(due, rows[..|rows| - 1], payments, now);
      var last := rows[|rows| - 1];
      if IsCharge(last, payments) {
        var row := RefundRow(last, Min(due + NetPaid(earlier), Reach(last, payments)), now);
        BalanceOfAppend(earlier, [row], reference);
        assert [row][..0] == [];
      }
    }
  }

  /**
    With balances that fit a u32, paying back is safe for every amount due exactly when no two
    charges of the order share a reference: the balance map is not lowered inside the loop.
   */
  lemma PayoutIsSafeIffChargesAreDistinct(rows: seq<Payment>, now: Time)
    requires BalancesInRange(rows) && TotalReach(rows, rows) < U32_SIZE
    ensures DistinctCharges(rows) <==> forall due: u32 :: !Overdraws(rows, due, now)
  {
    assert rows[..|rows|] == rows;
    if DistinctCharges(rows) {
      forall due: u32, reference ensures 0 <= Balance(rows + LoggedRows(due, rows, rows, now), reference) {
        BalanceOfAppend(rows, LoggedRows(due, rows, rows, now), reference);
        DistinctChargesTakeAtMostTheirBalance(rows, |rows|, due, now, reference);
      }
    } else {
      var i, j :| 0 <= i < j < |rows| && IsCharge(rows[i], rows) && IsCharge(rows[j], rows)
                  && rows[i].externalReference == rows[j].externalReference;
      var due: u32, reference := TotalReach(rows, rows), rows[i].externalReference;
      FullPayoutTakesEveryReach(rows, |rows|, due, now, reference, i);
      BalanceOfAppend(rows, LoggedRows(due, rows, rows, now), reference);
      assert Balance(rows + LoggedRows(due, rows, rows, now), reference) < 0;
      assert Overdraws(rows, due, now);
    }
  }

  /** An overdrawn reference still counts as a charge, and the cast makes its reach almost 2^32 cents. */
  lemma OverdrawnReferencePaysAgain(rows: seq<Payment>, payment: Payment)
    requires payment.status == Completed && -U32_SIZE < Balance(rows, payment.externalReference) < 0
    ensures Reach(payment, rows) == U32_SIZE + Balance(rows, payment.externalReference)
  {
    var b := Balance(rows, payment.externalReference);
    assert b % U32_SIZE == b + U32_SIZE;
  }
}
