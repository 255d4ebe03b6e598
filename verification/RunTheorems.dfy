/** What follows, over whole runs, from what every request keeps: who ends up with which tickets, and what is paid for. */
module RunTheorems {
  import opened Schema
  import opened Capacity
  import opened Cart
  import opened CartLines
  import opened CartSteps
  import opened Inventory
  import opened Requests
  import opened Runs
  import opened Sales
  import opened Sets
  import opened Sums
  import opened TicketInstances

  // ------------------------------------------------------------ one step

  lemma RunStep(trace: seq<Shop>, requests: seq<Request>, moments: seq<Moment>, i: nat)
    requires IsRunOf(trace, requests, moments) && i + 1 < |trace|
    ensures |trace| == |requests| + 1 && |moments| == |requests|
    ensures Served(trace[i], trace[i + 1], requests[i], moments[i])
    ensures Inv(trace[i].world) && Inv(trace[i + 1].world)
    ensures Remembers(At(trace[i], moments[i].now).world, trace[i + 1].world, KindOf(requests[i]))
  {
    hide Served;
    StepRemembers(trace[i], trace[i + 1], requests[i], moments[i]);
    ShopIsInv(trace[i]);
    ShopIsInv(trace[i + 1]);
  }

  lemma StepRemembers(s: Shop, s': Shop, request: Request, moment: Moment)
    requires Served(s, s', request, moment) && ShopOk(s.world, s.holds, s.payments)
    ensures Remembers(At(s, moment.now).world, s'.world, KindOf(request))
  {
    hide RowsStand, BooksOk, CartsAtPrice, NumberingKept, OrdersAdvance, PaymentsStand, MayReprice, MeetsNegativePrice, OutgrowsTokens;
    if s' == At(s, moment.now) {
      ShopIsInv(s);
      hide ShopOk, Inv;
      assert PaidInTime(s.world.orders, s.world.orders, moment.now) == {};
    }
  }

  lemma ShopIsInv(s: Shop)
    requires ShopOk(s.world, s.holds, s.payments)
    ensures Inv(s.world)
  {
  }

  /** Sales, losses and shortages stay on record. */
  ghost predicate StillKnown(h: History, h': History) {
    && h.settled <= h'.settled && h.lost <= h'.lost
    && forall k :: k in h.repriced ==> k in h'.repriced && h'.repriced[k] == h.repriced[k]
  }

  lemma {:induction false} HistoryOnlyGrows(trace: seq<Shop>, requests: seq<Request>, moments: seq<Moment>, i: nat, j: nat)
    requires IsRunOf(trace, requests, moments) && i <= j < |trace|
    ensures StillKnown(trace[i].world.history, trace[j].world.history)
  {
    hide IsRunOf, Served, Inv;
    if i < j {
      RunStep(trace, requests, moments, j - 1);
      HistoryOnlyGrows(trace, requests, moments, i, j - 1);
    }
  }

  /** The rows of an order are the same, but for how much of them has been refunded. */
  ghost predicate SameSale(before: map<Id, OrderItem>, after: map<Id, OrderItem>, o: Id) {
    forall k {:trigger k in before} {:trigger k in after} ::
      (k in before && before[k].orderId == o) || (k in after && after[k].orderId == o) ==>
        k in before && k in after && after[k] == before[k].(refundedQuantity := after[k].refundedQuantity)
  }

  lemma StepKeepsSale(s: Shop, s': Shop, request: Request, moment: Moment, o: Id)
    requires Served(s, s', request, moment) && IsPastDraft(s.world, o)
    ensures SameSale(s.world.items, s'.world.items, o) && IsPastDraft(s'.world, o)
  {
    hide Evolves, Answers;
    if s' != At(s, moment.now) {
      var w := At(s, moment.now).world;
      WhatStands(At(s, moment.now), s', request, moment.pricings);
      if request.RefundOrder? {
        forall k | k in s.world.items ensures k in s'.world.items
          && s'.world.items[k] == s.world.items[k].(refundedQuantity := s'.world.items[k].refundedQuantity) {
        }
      } else {
        assert IsPastDraft(w, o) && KeepsRows(s.world.items, s'.world.items, o);
      }
    }
  }

  lemma WhatStands(s: Shop, s': Shop, request: Request, pricings: map<(Id, bool), Pricing>)
    requires Evolves(s, s', request, pricings)
    ensures RowsStand(s.world, s'.world, request) && OrdersAdvance(s.world.orders, s'.world.orders)
  {
    hide RowsStand, OrdersAdvance, Remembers, PaymentsStand, BooksOk, CartsAtPrice, NumberingKept, MayReprice, MeetsNegativePrice,
      OutgrowsTokens, ShortsExactly, RefundsOnly;
  }

  lemma {:induction false} SalesStand(trace: seq<Shop>, requests: seq<Request>, moments: seq<Moment>, i: nat, j: nat, o: Id)
    requires IsRunOf(trace, requests, moments) && i <= j < |trace| && IsPastDraft(trace[i].world, o)
    ensures SameSale(trace[i].world.items, trace[j].world.items, o) && IsPastDraft(trace[j].world, o)
  {
    hide IsRunOf, Served, Inv, IsPastDraft, Remembers;
    if i < j {
      RunStep(trace, requests, moments, j - 1);
      SalesStand(trace, requests, moments, i, j - 1, o);
      StepKeepsSale(trace[j - 1], trace[j], requests[j - 1], moments[j - 1], o);
    }
  }

  // ------------------------------------------------------------ sold tickets

  /** The order has been paid while it was live, by the `i`-th request. */
  ghost predicate PaidAt(trace: seq<Shop>, moments: seq<Moment>, i: nat, o: Id)
    requires i < |moments| && i + 1 < |trace|
  {
    o in PaidInTime(trace[i].world.orders, trace[i + 1].world.orders, moments[i].now)
  }

  /**
    An order that was paid before it expired stays paid, with the rows it had; and at any later time each of its items
    has the tickets it was sold, less those on record as lost since, and less what it was short of when it was inserted.
   */
  lemma PaidInTimeStaysSold(trace: seq<Shop>, requests: seq<Request>, moments: seq<Moment>, i: nat, j: nat, o: Id)
    requires IsRunOf(trace, requests, moments) && i < j < |trace| && PaidAt(trace, moments, i, o)
    ensures o in trace[j].world.orders && trace[j].world.orders[o].status == Paid
    ensures SameSale(trace[i + 1].world.items, trace[j].world.items, o)
    ensures forall k :: k in trace[j].world.items && trace[j].world.items[k].orderId == o && trace[j].world.items[k].itemType == Tickets ==>
      && Sold(trace[j].world.tickets, trace[j].world.items[k], trace[j].world.history)
      && Short(trace[j].world.history, k) == Short(trace[i + 1].world.history, k)
  {
    hide IsRunOf, Served, Inv, SameSale, Sold, Short;
    RunStep(trace, requests, moments, i);
    RunStep(trace, requests, moments, j - 1);
    SettledIsPaid(trace[i + 1].world, o);
    SalesStand(trace, requests, moments, i + 1, j, o);
    HistoryOnlyGrows(trace, requests, moments, i + 1, j);
    forall k | k in trace[j].world.items && trace[j].world.items[k].orderId == o && trace[j].world.items[k].itemType == Tickets
      ensures Sold(trace[j].world.tickets, trace[j].world.items[k], trace[j].world.history)
      ensures Short(trace[j].world.history, k) == Short(trace[i + 1].world.history, k)
    {
      SoldIfSettled(trace[j].world, k);
      SameRow(trace[i + 1].world.items, trace[j].world.items, o, k);
      ShortFromTheStart(trace, requests, moments, i + 1, j, k);
    }
    SettledIsPaid(trace[j].world, o);
  }

  lemma SameRow(before: map<Id, OrderItem>, after: map<Id, OrderItem>, o: Id, k: Id)
    requires SameSale(before, after, o) && k in after && after[k].orderId == o
    ensures k in before && after[k] == before[k].(refundedQuantity := after[k].refundedQuantity)
  {
  }

  lemma SettledIsPaid(w: World, o: Id)
    requires Inv(w) && o in w.history.settled
    ensures o in w.orders && w.orders[o].status == Paid
  {
  }

  lemma SoldIfSettled(w: World, k: Id)
    requires Inv(w) && k in w.items && w.items[k].itemType == Tickets && w.items[k].orderId in w.history.settled
    ensures Sold(w.tickets, w.items[k], w.history)
  {
    assert ItemOk(w, k);
    FrameKeys(w, k);
  }

  /** An item is as short as it was when it was inserted. */
  lemma {:induction false} ShortFromTheStart(trace: seq<Shop>, requests: seq<Request>, moments: seq<Moment>, i: nat, j: nat, k: Id)
    requires IsRunOf(trace, requests, moments) && i <= j < |trace| && k in trace[i].world.items
    ensures Short(trace[j].world.history, k) == Short(trace[i].world.history, k) && trace[i].world.nextId <= trace[j].world.nextId
  {
    hide IsRunOf, Served, Inv;
    if i < j {
      RunStep(trace, requests, moments, j - 1);
      RunStep(trace, requests, moments, i);
      ShortFromTheStart(trace, requests, moments, i, j - 1, k);
      ItemIsOld(trace[i].world, k);
    }
  }

  lemma ItemIsOld(w: World, k: Id)
    requires Inv(w) && k in w.items
    ensures k < w.nextId
  {
  }

  /** The `i`-th request cost the item the ticket: a cart update a redeemed one, a refund a purchased one. */
  ghost predicate LostAt(trace: seq<Shop>, requests: seq<Request>, moments: seq<Moment>, i: nat, loss: (Id, Id))
    requires i < |requests| == |moments| && |trace| == |requests| + 1
  {
    && loss !in trace[i].world.history.lost && loss in trace[i + 1].world.history.lost
    && if requests[i].UpdateCart? then IsRedeemedLoss(trace[i].world.tickets, loss, moments[i].now)
       else requests[i].RefundOrder? && IsRefundedLoss(trace[i].world.tickets, trace[i + 1].world.tickets, loss)
  }

  lemma {:induction false} EveryLossHasACause(trace: seq<Shop>, requests: seq<Request>, moments: seq<Moment>, j: nat, loss: (Id, Id))
    requires IsRunOf(trace, requests, moments) && j < |trace|
    requires loss in trace[j].world.history.lost && loss !in trace[0].world.history.lost
    ensures exists i :: 0 <= i < j && LostAt(trace, requests, moments, i, loss)
  {
    hide IsRunOf, Served, Inv, Remembers, IsRedeemedLoss, IsRefundedLoss;
    if j > 0 {
      RunStep(trace, requests, moments, j - 1);
      if loss in trace[j - 1].world.history.lost {
        EveryLossHasACause(trace, requests, moments, j - 1, loss);
      } else {
        LossIsOfKind(At(trace[j - 1], moments[j - 1].now).world, trace[j].world, KindOf(requests[j - 1]), loss);
        assert LostAt(trace, requests, moments, j - 1, loss);
      }
    }
  }

  lemma LossIsOfKind(w: World, after: World, kind: Kind, loss: (Id, Id))
    requires Remembers(w, after, kind) && loss in after.history.lost && loss !in w.history.lost
    ensures kind.ForCarts? || kind.ForRefunds?
    ensures kind.ForCarts? ==> IsRedeemedLoss(w.tickets, loss, w.now)
    ensures kind.ForRefunds? ==> IsRefundedLoss(w.tickets, after.tickets, loss)
  {
    assert loss in after.history.lost - w.history.lost;
  }

  ghost predicate NoneRedeemed(tickets: seq<Ticket>) {
    forall i: Id :: i < |tickets| ==> tickets[i].status != Redeemed
  }

  lemma OnlyRedeemingRedeems(w: World, after: World, kind: Kind)
    requires Remembers(w, after, kind)
    ensures w.history.lost <= after.history.lost
    ensures !kind.ForRedemptions? && NoneRedeemed(w.tickets) ==> NoneRedeemed(after.tickets)
  {
  }

  /** Without redemptions and refunds no item ever loses a ticket it was sold. */
  lemma {:induction false} NothingIsLost(trace: seq<Shop>, requests: seq<Request>, moments: seq<Moment>, j: nat)
    requires IsRunOf(trace, requests, moments) && j < |trace| && NoneRedeemed(trace[0].world.tickets)
    requires forall i :: 0 <= i < j ==> !requests[i].Redeem? && !requests[i].RefundOrder?
    ensures NoneRedeemed(trace[j].world.tickets) && trace[j].world.history.lost == trace[0].world.history.lost
  {
    hide IsRunOf, Served, Inv, Remembers;
    if j > 0 {
      RunStep(trace, requests, moments, j - 1);
      NothingIsLost(trace, requests, moments, j - 1);
      var w := At(trace[j - 1], moments[j - 1].now).world;
      forall loss | loss in trace[j].world.history.lost ensures loss in w.history.lost {
        if loss !in w.history.lost {
          LossIsOfKind(w, trace[j].world, KindOf(requests[j - 1]), loss);
        }
      }
      OnlyRedeemingRedeems(w, trace[j].world, KindOf(requests[j - 1]));
    }
  }

  /** While no row is raised at a price that has changed, no item is short. */
  lemma {:induction false} NothingIsShort(trace: seq<Shop>, requests: seq<Request>, moments: seq<Moment>, j: nat)
    requires IsRunOf(trace, requests, moments) && j < |trace|
    requires forall i :: 0 <= i < j ==> !MayReprice(At(trace[i], moments[i].now), requests[i], moments[i].pricings)
    ensures trace[j].world.history.repriced == trace[0].world.history.repriced
  {
    hide IsRunOf, Served, Inv, Remembers, MayReprice;
    if j > 0 {
      RunStep(trace, requests, moments, j - 1);
      NothingIsShort(trace, requests, moments, j - 1);
      StepShortsNothing(trace[j - 1], trace[j], requests[j - 1], moments[j - 1]);
    }
  }

  /** Carts in which every row is at the price in force raise none at another. */
  lemma PricedCartsAreNotRepriced(s: Shop, request: Request, pricings: map<(Id, bool), Pricing>)
    requires CartsAtPrice(s.world, pricings)
    ensures !MayReprice(s, request, pricings)
  {
    if request.UpdateCart? {
      forall k | IsRowOfCart(s.world, s.users, request.userId, k, request.boxOfficePricing)
        ensures PriceHolds(pricings, request.boxOfficePricing, s.world.items[k])
      {
        assert IsLiveItem(s.world, k);
      }
    }
  }

  lemma WaitingKeepsPrices(w: World, now: Time, pricings: map<(Id, bool), Pricing>)
    requires CartsAtPrice(w, pricings) && w.now <= now
    ensures CartsAtPrice(w.(now := now), pricings)
  {
    forall k | IsLiveItem(w.(now := now), k) && w.orders[w.items[k].orderId].status == Draft
      ensures PriceHolds(pricings, w.orders[w.items[k].orderId].boxOfficePricing, w.items[k])
    {
      assert IsLiveItem(w, k);
    }
  }

  lemma StepShortsNothing(s: Shop, s': Shop, request: Request, moment: Moment)
    requires Served(s, s', request, moment) && !MayReprice(At(s, moment.now), request, moment.pricings)
    ensures s'.world.history.repriced == s.world.history.repriced && s'.world.now == moment.now
    ensures CartsAtPrice(At(s, moment.now).world, moment.pricings) ==> CartsAtPrice(s'.world, moment.pricings)
  {
    hide CartsAtPrice, BooksOk, Remembers, RowsStand, NumberingKept, OrdersAdvance, PaymentsStand;
  }

  /** As long as prices stay what they were, no row is raised at another, and no item is short. */
  lemma {:induction false} ConstantPricesShortNothing(trace: seq<Shop>, requests: seq<Request>, moments: seq<Moment>,
                                                      pricings: map<(Id, bool), Pricing>, j: nat)
    requires IsRunOf(trace, requests, moments) && InOrder(trace[0].world.now, moments) && j < |trace|
    requires CartsAtPrice(trace[0].world, pricings) && forall i :: 0 <= i < |moments| ==> moments[i].pricings == pricings
    ensures CartsAtPrice(trace[j].world, pricings) && trace[j].world.history.repriced == trace[0].world.history.repriced
    ensures forall i :: 0 <= i < j ==> !MayReprice(At(trace[i], moments[i].now), requests[i], moments[i].pricings)
    ensures trace[j].world.now == if j == 0 then trace[0].world.now else moments[j - 1].now
  {
    hide IsRunOf, Served, Inv, Remembers, CartsAtPrice, MayReprice;
    if j > 0 {
      RunStep(trace, requests, moments, j - 1);
      ConstantPricesShortNothing(trace, requests, moments, pricings, j - 1);
      var found := At(trace[j - 1], moments[j - 1].now);
      WaitingKeepsPrices(trace[j - 1].world, moments[j - 1].now, pricings);
      PricedCartsAreNotRepriced(found, requests[j - 1], pricings);
      StepShortsNothing(trace[j - 1], trace[j], requests[j - 1], moments[j - 1]);
    }
  }

  /**
    In a run of carts, checkouts, captures, holds and capacities in which no row is raised at a price that has changed (at
    constant prices none is), from a shop in which nothing was short, lost or redeemed: who paid before their order expired
    has, ever after, exactly as many tickets as they paid for, of the right type, all of them Purchased.
   */
  lemma WhoPaysInTimeHasAllTickets(trace: seq<Shop>, requests: seq<Request>, moments: seq<Moment>, i: nat, j: nat, o: Id, k: Id)
    requires IsRunOf(trace, requests, moments) && i < j < |trace| && PaidAt(trace, moments, i, o)
    requires forall n :: 0 <= n < j ==> !requests[n].Redeem? && !requests[n].RefundOrder?
    requires forall n :: 0 <= n < j ==> !MayReprice(At(trace[n], moments[n].now), requests[n], moments[n].pricings)
    requires trace[0].world.history.repriced == map[] && trace[0].world.history.lost == {} && NoneRedeemed(trace[0].world.tickets)
    requires k in trace[i + 1].world.items && trace[i + 1].world.items[k].orderId == o && trace[i + 1].world.items[k].itemType == Tickets
    ensures |Linked(trace[j].world.tickets, k)| == trace[i + 1].world.items[k].quantity
    ensures forall n :: n in Linked(trace[j].world.tickets, k) ==>
      && trace[j].world.tickets[n].status == Purchased
      && Some(trace[j].world.tickets[n].ticketTypeId) == trace[i + 1].world.items[k].ticketTypeId
  {
    hide IsRunOf, Inv, MayReprice, PaidAt, Served, SameSale, Remembers, LostBy;
    RunStep(trace, requests, moments, i);
    RunStep(trace, requests, moments, j - 1);
    PaidInTimeStaysSold(trace, requests, moments, i, j, o);
    NothingIsLost(trace, requests, moments, j);
    NothingIsShort(trace, requests, moments, j);
    SameRowLater(trace[i + 1].world.items, trace[j].world.items, o, k);
    KeyOfItem(trace[j].world, k);
    NoLossNoLosses(trace[j].world.history, k);
    AllPurchased(trace[j].world, trace[j].world.items[k]);
  }

  lemma SameRowLater(before: map<Id, OrderItem>, after: map<Id, OrderItem>, o: Id, k: Id)
    requires SameSale(before, after, o) && k in before && before[k].orderId == o
    ensures k in after && after[k] == before[k].(refundedQuantity := after[k].refundedQuantity)
  {
  }

  lemma KeyOfItem(w: World, k: Id)
    requires Inv(w) && k in w.items
    ensures w.items[k].id == k
  {
    FrameKeys(w, k);
  }

  lemma NoLossNoLosses(h: History, k: Id)
    requires h.lost == {}
    ensures LostBy(h, k) == {}
  {
  }

  lemma AllPurchased(w: World, item: OrderItem)
    requires NoneRedeemed(w.tickets) && Sold(w.tickets, item, w.history)
    ensures forall n :: n in Linked(w.tickets, item.id) ==> w.tickets[n].status == Purchased
  {
  }

  // ------------------------------------------------------------ what is paid for, and what is numbered

  lemma StepStaysCovered(s: Shop, s': Shop, request: Request, moment: Moment)
    requires Served(s, s', request, moment) && BooksOk(s.world, s.payments) && !MeetsNegativePrice(s, request)
    ensures BooksOk(s'.world, s'.payments)
  {
    BooksAtAnyTime(s, moment.now);
    hide BooksOk, Remembers, RowsStand, CartsAtPrice, NumberingKept, OrdersAdvance, PaymentsStand;
  }

  lemma BooksAtAnyTime(s: Shop, now: Time)
    ensures BooksOk(s.world, s.payments) <==> BooksOk(At(s, now).world, s.payments)
  {
  }

  /** As long as no refund meets a negative price, what is marked paid is paid for. In particular, without refunds it always is. */
  lemma {:induction false} PaidStaysCovered(trace: seq<Shop>, requests: seq<Request>, moments: seq<Moment>, j: nat)
    requires IsRunOf(trace, requests, moments) && j < |trace| && BooksOk(trace[0].world, trace[0].payments)
    requires forall i :: 0 <= i < j ==> !MeetsNegativePrice(trace[i], requests[i])
    ensures BooksOk(trace[j].world, trace[j].payments)
  {
    hide IsRunOf, Served, Inv, Remembers, BooksOk, MeetsNegativePrice;
    if j > 0 {
      PaidStaysCovered(trace, requests, moments, j - 1);
      RunStep(trace, requests, moments, j - 1);
      StepStaysCovered(trace[j - 1], trace[j], requests[j - 1], moments[j - 1]);
    }
  }

  lemma StepKeepsNumbering(s: Shop, s': Shop, request: Request, moment: Moment, t: Id)
    requires Served(s, s', request, moment) && Numbered(s.world.tickets, t) && !OutgrowsTokens(s, request)
    ensures Numbered(s'.world.tickets, t)
  {
    hide Numbered, BooksOk, Remembers, RowsStand, CartsAtPrice, OrdersAdvance, PaymentsStand;
  }

  /** As long as no type outgrows its token column, tokens stay numbered. In particular, they do while capacities are left alone. */
  lemma {:induction false} TokensStayNumbered(trace: seq<Shop>, requests: seq<Request>, moments: seq<Moment>, j: nat, t: Id)
    requires IsRunOf(trace, requests, moments) && j < |trace| && Numbered(trace[0].world.tickets, t)
    requires forall i :: 0 <= i < j ==> !OutgrowsTokens(trace[i], requests[i])
    ensures Numbered(trace[j].world.tickets, t)
  {
    hide IsRunOf, Served, Inv, Remembers, Numbered, OutgrowsTokens;
    if j > 0 {
      TokensStayNumbered(trace, requests, moments, j - 1, t);
      RunStep(trace, requests, moments, j - 1);
      StepKeepsNumbering(trace[j - 1], trace[j], requests[j - 1], moments[j - 1], t);
    }
  }

  lemma AdvancingNowhere(orders: map<Id, Order>)
    ensures OrdersAdvance(orders, orders)
  {
  }

  lemma StepAdvances(s: Shop, s': Shop, request: Request, moment: Moment)
    requires Served(s, s', request, moment)
    ensures OrdersAdvance(s.world.orders, s'.world.orders)
  {
    AdvancingNowhere(s.world.orders);
  }

  /** Orders go through their statuses in one direction. */
  lemma {:induction false} OrdersNeverGoBack(trace: seq<Shop>, requests: seq<Request>, moments: seq<Moment>, i: nat, j: nat)
    requires IsRunOf(trace, requests, moments) && i <= j < |trace|
    ensures OrdersAdvance(trace[i].world.orders, trace[j].world.orders)
  {
    hide IsRunOf, Served, Inv, Remembers, OrdersAdvance;
    AdvancingNowhere(trace[i].world.orders);
    if i < j {
      OrdersNeverGoBack(trace, requests, moments, i, j - 1);
      RunStep(trace, requests, moments, j - 1);
      StepAdvances(trace[j - 1], trace[j], requests[j - 1], moments[j - 1]);
      AdvancingTwice(trace[i].world.orders, trace[j - 1].world.orders, trace[j].world.orders);
    }
  }

  predicate CapturedIn(requests: seq<Request>, n: nat, p: nat)
    requires n <= |requests|
  {
    exists i :: 0 <= i < n && requests[i].Capture? && requests[i].paymentId == p
  }

  lemma CapturedLater(requests: seq<Request>, n: nat, p: nat)
    requires n < |requests|
    ensures CapturedIn(requests, n, p) || (requests[n].Capture? && requests[n].paymentId == p) ==> CapturedIn(requests, n + 1, p)
  {
  }

  /** A payment row stays as it was made, unless a capture completes it. */
  lemma {:induction false} PaymentsOnlyComplete(trace: seq<Shop>, requests: seq<Request>, moments: seq<Moment>, j: nat, p: nat)
    requires IsRunOf(trace, requests, moments) && j < |trace| && p < |trace[0].payments|
    ensures p < |trace[j].payments|
    ensures
      var was, row := trace[0].payments[p], trace[j].payments[p];
      || row == was
      || (was.status != Refunded && row == Complete(was, row.updatedAt) && CapturedIn(requests, j, p))
  {
    hide IsRunOf, Served, Inv, Remembers, CapturedIn;
    if j > 0 {
      PaymentsOnlyComplete(trace, requests, moments, j - 1, p);
      RunStep(trace, requests, moments, j - 1);
      StepLetsStand(trace[j - 1], trace[j], requests[j - 1], moments[j - 1]);
      CapturedLater(requests, j - 1, p);
    }
  }

  lemma StepLetsStand(s: Shop, s': Shop, request: Request, moment: Moment)
    requires Served(s, s', request, moment)
    ensures PaymentsStand(s.payments, s'.payments, request)
  {
    hide BooksOk, Remembers, RowsStand, CartsAtPrice, NumberingKept, OrdersAdvance;
  }

  // ------------------------------------------------------------ no overselling

  /** An item of a live cart or of a settled order. */
  ghost predicate HasClaim(w: World, k: Id) {
    && k in w.items && w.items[k].itemType == Tickets
    && (IsLiveItem(w, k) || w.items[k].orderId in w.history.settled)
  }

  /** The tickets of the type that the item has been promised, was not short of, and has not lost. */
  ghost function Claim(w: World, t: Id): OrderItem -> int {
    (item: OrderItem) =>
      if HasClaim(w, item.id) && item.ticketTypeId == Some(t)
      then item.quantity - Short(w.history, item.id) - |LostBy(w.history, item.id)| else 0
  }

  /** The tickets of the type that are linked to an item with a claim among `items`. */
  ghost function ClaimedBy(w: World, items: set<Id>, t: Id): (rows: set<Id>) {
    set i: Id | i < |w.tickets| && w.tickets[i].ticketTypeId == t && w.tickets[i].orderItemId.Some?
                && w.tickets[i].orderItemId.value in items && HasClaim(w, w.tickets[i].orderItemId.value)
  }

  lemma ClaimIsHeld(w: World, k: Id, t: Id)
    requires Inv(w) && k in w.items
    ensures Claim(w, t)(w.items[k]) == |ClaimedBy(w, {k}, t)|
  {
    FrameKeys(w, k);
    if HasClaim(w, k) {
      assert ItemOk(w, k);
      hide Frame, LostBy;
      if w.items[k].ticketTypeId == Some(t) {
        assert ClaimedBy(w, {k}, t) == Linked(w.tickets, k);
      } else {
        assert ClaimedBy(w, {k}, t) == {} by {
          forall i | i in ClaimedBy(w, {k}, t) ensures Some(w.tickets[i].ticketTypeId) == w.items[k].ticketTypeId {
            assert i in Linked(w.tickets, k);
          }
        }
      }
    } else {
      assert ClaimedBy(w, {k}, t) == {};
    }
  }

  lemma ClaimedByOneMore(w: World, items: set<Id>, k: Id, t: Id)
    requires k in items
    ensures |ClaimedBy(w, items, t)| == |ClaimedBy(w, items - {k}, t)| + |ClaimedBy(w, {k}, t)|
  {
    assert ClaimedBy(w, items, t) == ClaimedBy(w, items - {k}, t) + ClaimedBy(w, {k}, t);
    DisjointUnionSize(ClaimedBy(w, items - {k}, t), ClaimedBy(w, {k}, t));
  }

  lemma {:induction false} ClaimsAreHeld(w: World, items: map<Id, OrderItem>, t: Id)
    requires Inv(w) && forall k :: k in items ==> k in w.items && items[k] == w.items[k]
    ensures Sum(items, Claim(w, t)) == |ClaimedBy(w, items.Keys, t)|
    decreases |items|
  {
    hide Inv, HasClaim;
    if k :| k in items {
      SumSplit(items, Claim(w, t), k);
      ClaimsAreHeld(w, items - {k}, t);
      ClaimIsHeld(w, k, t);
      ClaimedByOneMore(w, items.Keys, k, t);
      assert (items - {k}).Keys == items.Keys - {k};
    } else {
      assert ClaimedBy(w, items.Keys, t) == {};
    }
  }

  /**
    At any time, the claims of all live carts and settled orders on a ticket type are met, ticket by ticket, by different
    valid tickets of the type: they never add up to more than there are.
   */
  lemma NoOversell(w: World, t: Id)
    requires Inv(w)
    ensures Sum(w.items, Claim(w, t)) == |ClaimedBy(w, w.items.Keys, t)| <= |Valid(w.tickets, t)|
  {
    ClaimsAreHeld(w, w.items, t);
    assert LinksOk(w);
    SubsetSize(ClaimedBy(w, w.items.Keys, t), Valid(w.tickets, t));
  }

  /** The quantities of all live carts and settled orders of a ticket type. */
  ghost function Promised(w: World, t: Id): OrderItem -> int {
    (item: OrderItem) => if HasClaim(w, item.id) && item.ticketTypeId == Some(t) then item.quantity else 0
  }

  /** Where nothing is short and nothing was lost, claims are promises. */
  lemma PromisesAreKept(w: World, t: Id)
    requires Inv(w) && w.history.repriced == map[] && w.history.lost == {}
    ensures Sum(w.items, Promised(w, t)) <= |Valid(w.tickets, t)|
  {
    NoOversell(w, t);
    hide Inv, HasClaim;
    forall k | k in w.items ensures Promised(w, t)(w.items[k]) == Claim(w, t)(w.items[k]) {
      assert LostBy(w.history, w.items[k].id) == {};
    }
    SumOfEquals(w.items, Promised(w, t), Claim(w, t));
  }

  lemma {:induction false} SumOfEquals(items: map<Id, OrderItem>, f: OrderItem -> int, g: OrderItem -> int)
    requires forall k :: k in items ==> f(items[k]) == g(items[k])
    ensures Sum(items, f) == Sum(items, g)
    decreases |items|
  {
    if k :| k in items {
      SumSplit(items, f, k);
      SumSplit(items, g, k);
      SumOfEquals(items - {k}, f, g);
    }
  }

  /** A cart with one of the two tickets of a type, which was sold at a price that is no longer in force. */
  function CartAtOldPrice(): (tables: Tables) {
    var row := OrderItem(1, 0, Tickets, Some(5), Some(6), 1, 1000, Some(7), None, None, 0, 0, 0);
    var held := Ticket(5, 0, None, Some(1), 8, Some(100), None, None, Reserved, 50);
    Tables(map[0 := Order(0, 9, Draft, Some(100), 1, None, false)], map[1 := row],
           [held, held.(tokenId := 1, orderItemId := None, reservedUntil := None, status := Available)],
           map[], [], [], map[], 11)
  }

  lemma CartAtOldPriceIsOk()
    ensures
      var tables := CartAtOldPrice();
      var w := World(tables.orders, tables.orderItems, tables.tickets, tables.nextId, 50, History(map[], {}, {}));
      && Inv(w) && Valid(w.tickets, 5) == {0, 1}
      && RowsWhere(w.tickets, TakeableWhere(5, None, 50)) == {1}
  {
    var tables := CartAtOldPrice();
    var w := World(tables.orders, tables.orderItems, tables.tickets, tables.nextId, 50, History(map[], {}, {}));
    assert Linked(w.tickets, 1) == {0};
    assert Frame(w);
    assert ItemOk(w, 1);
  }

  lemma TwoTickets(w: World, after: World, except: set<Id>)
    requires Undisturbed(w, after, except) && |w.tickets| == 2
    ensures |Valid(after.tickets, 5)| <= 2
  {
    SubsetSize(Valid(after.tickets, 5), {0, 1});
  }

  /**
    Without the exception for changed prices the theorem fails: raising that cart to two tickets succeeds, and leaves it
    live, with rows for three tickets where there are two, and the new row a ticket short.
   */
  method RaisingOversells() returns (conn: Connection, r: Result<()>)
    ensures fresh(conn) && r.Ok? && Inv(WorldOf(conn))
    ensures IsLiveItem(WorldOf(conn), 1) && IsLiveItem(WorldOf(conn), 11)
    ensures conn.orderItems[1].ticketTypeId == conn.orderItems[11].ticketTypeId == Some(5)
    ensures conn.orderItems[1].quantity + conn.orderItems[11].quantity == 3 && |Valid(conn.tickets, 5)| <= 2
    ensures Short(conn.history, 11) == 1
  {
    hide Inv, Undisturbed, Linked, RowsWhere, TakeableWhere, PriceUnderHold, RecordsLittle;
    CartAtOldPriceIsOk();
    var tables := CartAtOldPrice();
    conn := new Connection(tables, 50, map[(5, false) := Pricing(10, 1200)], map[], map[5 := TicketType(6, 1, 0, [])], map[]);
    var self, row := conn.orders[0], conn.orderItems[1];
    var line := MappedLine(true, None, None, UpdateOrderItem(5, 2, None));
    ghost var start := WorldOf(conn);
    assert start == World(tables.orders, tables.orderItems, tables.tickets, tables.nextId, 50, History(map[], {}, {}));
    assert {1} - conn.lockedRows == {1};
    r := IncreaseItem(conn, self, row, line, false);
    TwoTickets(start, WorldOf(conn), {1});
  }

  /** Before the first request. */
  lemma NewShopIsSteady(tables: Tables, now: Time)
    requires tables == Tables(map[], map[], [], map[], [], [], tables.users, 0)
    ensures
      var w := World(tables.orders, tables.orderItems, tables.tickets, tables.nextId, now, History(map[], {}, {}));
      && ShopOk(w, tables.holds, tables.payments) && BooksOk(w, tables.payments) && (forall t :: Numbered(w.tickets, t))
      && forall pricings :: CartsAtPrice(w, pricings)
  {
  }
}
