/**
  Rows raised at a price that has changed (db/src/models/orders.rs:516-583): each stays as it is, and another is put beside
  it for the whole of the requested quantity, with only the difference reserved.
 */
module RaisedRows {
  import opened Schema
  import opened CartLines
  import opened CartSteps
  import opened Inventory
  import opened OrderItems

  /** How many tickets are asked for in the line that the `i`-th row takes. */
  function Requested(mapped: seq<MappedLine>, rows: seq<OrderItem>, i: nat): (quantity: int)
    requires i < |rows|
  {
    var left := TakenByAll(mapped, rows[..i]);
    if MatchOf(left, rows[i]).Some? then left[MatchOf(left, rows[i]).value].item.quantity else 0
  }

  /** Item `k` was put beside the row, which is still there. */
  ghost predicate IsTwin(items: map<Id, OrderItem>, row: OrderItem, quantity: int, k: Id) {
    && row.id in items && items[row.id] == row
    && k in items && items[k].itemType == Tickets && items[k].orderId == row.orderId
    && items[k].ticketTypeId == row.ticketTypeId && items[k].holdId == row.holdId && items[k].quantity == quantity
  }

  /** The shortages on record once each twin is short by the quantity of the row it was put beside. */
  function ShortBy(repriced: map<Id, int>, rows: seq<OrderItem>, twins: seq<Option<Id>>): (after: map<Id, int>)
    requires |twins| <= |rows|
  {
    if twins == [] then repriced
    else
      var n := |twins| - 1;
      var earlier := ShortBy(repriced, rows, twins[..n]);
      if twins[n].Some? then earlier[twins[n].value := rows[n].quantity] else earlier
  }

  /** The `i`-th row has a twin exactly if it was raised at a changed price. */
  ghost predicate HasTwin(items: map<Id, OrderItem>, first: Id, pricings: map<(Id, bool), Pricing>, boxOfficePricing: bool,
                          mapped: seq<MappedLine>, rows: seq<OrderItem>, i: nat, twin: Option<Id>)
    requires i < |rows|
  {
    if IsRepriced(pricings, boxOfficePricing, TakenByAll(mapped, rows[..i]), rows[i])
    then twin.Some? && first <= twin.value && IsTwin(items, rows[i], Requested(mapped, rows, i), twin.value)
    else twin.None?
  }

  ghost predicate InTurn(twins: seq<Option<Id>>) {
    forall i, j :: 0 <= i < j < |twins| && twins[i].Some? && twins[j].Some? ==> twins[i].value < twins[j].value
  }

  /**
    What the first rows, merged with the request, have left behind: `twins` are the new rows, with ids from `first` on, beside
    those that were raised at a changed price, and what they are short of is all that has been added to the shortages on record.
   */
  ghost predicate AreTwins(before: map<Id, int>, after: map<Id, int>, items: map<Id, OrderItem>, first: Id,
                           pricings: map<(Id, bool), Pricing>, boxOfficePricing: bool, mapped: seq<MappedLine>, rows: seq<OrderItem>,
                           twins: seq<Option<Id>>)
  {
    && |twins| <= |rows| && InTurn(twins)
    && (forall i :: 0 <= i < |twins| ==> HasTwin(items, first, pricings, boxOfficePricing, mapped, rows, i, twins[i]))
    && after == ShortBy(before, rows, twins)
  }

  lemma NoTwinsYet(before: map<Id, int>, items: map<Id, OrderItem>, first: Id, pricings: map<(Id, bool), Pricing>,
                   boxOfficePricing: bool, mapped: seq<MappedLine>, rows: seq<OrderItem>)
    ensures AreTwins(before, before, items, first, pricings, boxOfficePricing, mapped, rows, [])
  {
  }

  lemma TwinsFromEarlier(before: map<Id, int>, after: map<Id, int>, items: map<Id, OrderItem>, first: Id, earlier: Id,
                         pricings: map<(Id, bool), Pricing>, boxOfficePricing: bool, mapped: seq<MappedLine>, rows: seq<OrderItem>,
                         twins: seq<Option<Id>>)
    requires AreTwins(before, after, items, first, pricings, boxOfficePricing, mapped, rows, twins) && earlier <= first
    ensures AreTwins(before, after, items, earlier, pricings, boxOfficePricing, mapped, rows, twins)
  {
    hide IsRepriced, IsTwin, Requested;
    forall i | 0 <= i < |twins| ensures HasTwin(items, earlier, pricings, boxOfficePricing, mapped, rows, i, twins[i]) {
      assert HasTwin(items, first, pricings, boxOfficePricing, mapped, rows, i, twins[i]);
    }
  }

  /** Shortages on record are those there were, and those of the twins. */
  lemma {:induction false} ShortKeys(repriced: map<Id, int>, rows: seq<OrderItem>, twins: seq<Option<Id>>)
    requires |twins| <= |rows|
    ensures forall k :: k in ShortBy(repriced, rows, twins) <==> k in repriced || Some(k) in twins
    ensures forall k :: k in repriced && Some(k) !in twins ==> ShortBy(repriced, rows, twins)[k] == repriced[k]
  {
    if twins != [] {
      var n := |twins| - 1;
      assert twins == twins[..n] + [twins[n]];
      ShortKeys(repriced, rows, twins[..n]);
    }
  }

  /** Every twin is short by the quantity of the row it was put beside. */
  lemma {:induction false} ShortOfTwin(repriced: map<Id, int>, rows: seq<OrderItem>, twins: seq<Option<Id>>, i: nat)
    requires i < |twins| <= |rows| && InTurn(twins) && twins[i].Some?
    ensures twins[i].value in ShortBy(repriced, rows, twins)
    ensures ShortBy(repriced, rows, twins)[twins[i].value] == rows[i].quantity
  {
    var n := |twins| - 1;
    if i < n {
      assert twins[..n][i] == twins[i];
      ShortOfTwin(repriced, rows, twins[..n], i);
    }
  }

  /** Nothing has been added to the shortages exactly if no row was raised at a changed price. */
  lemma ShortIffRepriced(before: map<Id, int>, after: map<Id, int>, items: map<Id, OrderItem>, first: Id,
                         pricings: map<(Id, bool), Pricing>, boxOfficePricing: bool, mapped: seq<MappedLine>, rows: seq<OrderItem>,
                         twins: seq<Option<Id>>)
    requires AreTwins(before, after, items, first, pricings, boxOfficePricing, mapped, rows, twins) && |twins| == |rows|
    requires forall k :: k in before ==> k < first
    ensures after == before <==> NoneRepriced(pricings, boxOfficePricing, mapped, rows)
  {
    hide IsRepriced, IsTwin;
    ShortKeys(before, rows, twins);
    if i :| 0 <= i < |rows| && IsRepriced(pricings, boxOfficePricing, TakenByAll(mapped, rows[..i]), rows[i]) {
      assert HasTwin(items, first, pricings, boxOfficePricing, mapped, rows, i, twins[i]);
      assert twins[i].value in after && twins[i].value !in before;
    } else {
      forall i | 0 <= i < |twins| ensures twins[i].None? {
        assert HasTwin(items, first, pricings, boxOfficePricing, mapped, rows, i, twins[i]);
      }
      NoTwinsNoShortage(before, rows, twins);
    }
  }

  lemma {:induction false} NoTwinsNoShortage(repriced: map<Id, int>, rows: seq<OrderItem>, twins: seq<Option<Id>>)
    requires |twins| <= |rows| && forall i :: 0 <= i < |twins| ==> twins[i].None?
    ensures ShortBy(repriced, rows, twins) == repriced
  {
    if twins != [] {
      NoTwinsNoShortage(repriced, rows, twins[..|twins| - 1]);
    }
  }

  /** Rows and their twins are live, and stay where they are not touched. */
  lemma TwinStays(w: World, after: World, self: Order, row: OrderItem, quantity: int, k: Id, except: set<Id>)
    requires Inv(w) && IsCart(w, self) && row.orderId == self.id && row.itemType == Tickets
    requires IsTwin(w.items, row, quantity, k) && Undisturbed(w, after, except) && k !in except && row.id !in except
    ensures IsTwin(after.items, row, quantity, k)
  {
    CartRowFacts(w, self, row);
    CartRowFacts(w, self, w.items[k]);
    FrameKeys(w, k);
    hide Inv;
    assert KeepsItem(w, after, row.id) && KeepsItem(w, after, k);
  }

  /** The rows of a cart were there before the first twin. */
  ghost predicate AreOld(rows: seq<OrderItem>, self: Order, first: Id) {
    && DistinctIds(rows) && forall i :: 0 <= i < |rows| && rows[i].itemType == Tickets ==> rows[i].orderId == self.id && rows[i].id < first
  }

  lemma TwinsStay(before: map<Id, int>, w: World, after: World, self: Order, first: Id, pricings: map<(Id, bool), Pricing>,
                  boxOfficePricing: bool, mapped: seq<MappedLine>, rows: seq<OrderItem>, twins: seq<Option<Id>>, except: set<Id>)
    requires AreTwins(before, w.history.repriced, w.items, first, pricings, boxOfficePricing, mapped, rows, twins)
    requires Inv(w) && IsCart(w, self) && AreOld(rows, self, first) && Undisturbed(w, after, except)
    requires forall k :: k in except ==> k < first
    requires forall i :: 0 <= i < |twins| ==> rows[i].id !in except
    ensures forall i :: 0 <= i < |twins| ==> HasTwin(after.items, first, pricings, boxOfficePricing, mapped, rows, i, twins[i])
  {
    hide Inv, Undisturbed, IsTwin, Requested, PriceHolds;
    forall i | 0 <= i < |twins| ensures HasTwin(after.items, first, pricings, boxOfficePricing, mapped, rows, i, twins[i]) {
      assert HasTwin(w.items, first, pricings, boxOfficePricing, mapped, rows, i, twins[i]);
      if twins[i].Some? {
        TwinStays(w, after, self, rows[i], Requested(mapped, rows, i), twins[i].value, except);
      }
    }
  }

  /** The next row has been merged. */
  lemma NextTwin(before: map<Id, int>, w: World, after: World, self: Order, first: Id, pricings: map<(Id, bool), Pricing>,
                 boxOfficePricing: bool, mapped: seq<MappedLine>, rows: seq<OrderItem>, twins: seq<Option<Id>>, except: set<Id>)
    requires |twins| < |rows| && AreTwins(before, w.history.repriced, w.items, first, pricings, boxOfficePricing, mapped, rows, twins)
    requires Inv(w) && IsCart(w, self) && AreOld(rows, self, first) && Undisturbed(w, after, except)
    requires except <= {rows[|twins|].id} && (rows[|twins|].itemType != Tickets ==> except == {})
    requires first <= w.nextId
    requires Leaves(w, after, pricings, boxOfficePricing, mapped, rows, |twins|)
    ensures AreTwins(before, after.history.repriced, after.items, first, pricings, boxOfficePricing, mapped, rows,
                     twins + [TwinLeft(w, pricings, boxOfficePricing, mapped, rows, |twins|)])
  {
    hide Inv, Undisturbed, IsTwin, Requested, IsRepriced;
    var n := |twins|;
    TwinsStay(before, w, after, self, first, pricings, boxOfficePricing, mapped, rows, twins, except);
    var twin := TwinLeft(w, pricings, boxOfficePricing, mapped, rows, n);
    var more := twins + [twin];
    assert more[..n] == twins;
    forall i | 0 <= i < n && twins[i].Some? ensures twins[i].value < w.nextId {
      assert HasTwin(w.items, first, pricings, boxOfficePricing, mapped, rows, i, twins[i]);
      TwinIsOld(w, rows[i], Requested(mapped, rows, i), twins[i].value);
    }
    forall i | 0 <= i < |more| ensures HasTwin(after.items, first, pricings, boxOfficePricing, mapped, rows, i, more[i]) {
      if i < n {
        assert more[i] == twins[i];
      }
    }
  }

  lemma TwinIsOld(w: World, row: OrderItem, quantity: int, k: Id)
    requires Inv(w) && IsTwin(w.items, row, quantity, k)
    ensures k < w.nextId
  {
  }

  /** The id of the row to be put beside the `n`-th, if one is. */
  ghost function TwinLeft(w: World, pricings: map<(Id, bool), Pricing>, boxOfficePricing: bool, mapped: seq<MappedLine>,
                          rows: seq<OrderItem>, n: nat): (twin: Option<Id>)
    requires n < |rows|
  {
    if IsRepriced(pricings, boxOfficePricing, TakenByAll(mapped, rows[..n]), rows[n]) then Some(w.nextId) else None
  }

  /** What merging one row leaves on record, and beside it. */
  ghost predicate Leaves(w: World, after: World, pricings: map<(Id, bool), Pricing>, boxOfficePricing: bool, mapped: seq<MappedLine>,
                         rows: seq<OrderItem>, n: nat)
    requires n < |rows|
  {
    if IsRepriced(pricings, boxOfficePricing, TakenByAll(mapped, rows[..n]), rows[n])
    then
      && 0 <= rows[n].quantity && after.history.repriced == w.history.repriced[w.nextId := rows[n].quantity]
      && IsTwin(after.items, rows[n], Requested(mapped, rows, n), w.nextId)
    else after.history.repriced == w.history.repriced
  }
}
