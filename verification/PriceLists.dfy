/**
  The prices of a ticket type over time (db/src/models/ticket_pricing.rs, db/src/models/ticket_types.rs:85-120, 340-410,
  api/src/controllers/ticket_types.rs:262-335, and the validation function of migration 20181231091032).
 */
module PriceLists {
  import opened Schema
  import opened Sets

  datatype PricingStatus = Published | Default | Deleted

  datatype TicketPricing = TicketPricing(
    id: Id,
    ticketTypeId: Id,
    status: PricingStatus,
    priceInCents: int,
    isBoxOfficeOnly: bool,
    startDate: Time,
    endDate: Time)

  /** When a ticket type is on sale, and at which price by default. */
  datatype Sale = Sale(ticketTypeId: Id, startDate: Time, endDate: Time, priceInCents: int)

  /** A line of an update request. Without an id it asks for a new price, if it gives all that one needs. */
  datatype PricingRequest = PricingRequest(
    id: Option<Id>,
    named: bool,
    priceInCents: Option<int>,
    startDate: Option<Time>,
    endDate: Option<Time>,
    isBoxOfficeOnly: Option<bool>)

  /** A row as a line of a request that names it leaves it. */
  function Applied(row: TicketPricing, request: PricingRequest): (r: TicketPricing) {
    if request.id == Some(row.id) then
      row.(
        priceInCents := UnwrapOr(request.priceInCents, row.priceInCents),
        startDate := UnwrapOr(request.startDate, row.startDate),
        endDate := UnwrapOr(request.endDate, row.endDate),
        isBoxOfficeOnly := UnwrapOr(request.isBoxOfficeOnly, row.isBoxOfficeOnly))
    else row
  }

  /** A row after all lines, one after the other. */
  function AppliedAll(row: TicketPricing, requests: seq<PricingRequest>): (r: TicketPricing)
    ensures r.id == row.id
  {
    if requests == [] then row
    else Applied(AppliedAll(row, requests[..|requests| - 1]), requests[|requests| - 1])
  }

  /** The line gives all it takes to make a price. */
  predicate MakesPrice(request: PricingRequest) {
    && request.id.None? && request.named
    && request.priceInCents.Some? && request.startDate.Some? && request.endDate.Some?
  }

  function NewPrice(request: PricingRequest, t: Id, id: Id): (row: TicketPricing)
    requires MakesPrice(request)
  {
    TicketPricing(id, t, Published, request.priceInCents.value, UnwrapOr(request.isBoxOfficeOnly, false), request.startDate.value,
                  request.endDate.value)
  }

  /** The lines that make prices, in their order. */
  function Making(requests: seq<PricingRequest>): (making: seq<PricingRequest>)
    ensures forall i :: 0 <= i < |making| ==> MakesPrice(making[i])
  {
    if requests == [] then []
    else
      var last := requests[|requests| - 1];
      Making(requests[..|requests| - 1]) + if MakesPrice(last) then [last] else []
  }

  /** The default price a type is put on sale at. */
  function DefaultOf(sale: Sale, id: Id): (row: TicketPricing) {
    TicketPricing(id, sale.ticketTypeId, Default, sale.priceInCents, false, sale.startDate, sale.endDate)
  }

  function UnwrapOr<T>(o: Option<T>, default_: T): (r: T) {
    if o.Some? then o.value else default_
  }

  // ------------------------------------------------------------ periods

  predicate Overlap(a: TicketPricing, b: TicketPricing) {
    a.startDate < b.endDate && b.startDate < a.endDate
  }

  predicate CurrentAt(p: TicketPricing, now: Time) {
    p.startDate <= now < p.endDate
  }

  /** The condition of `ticket_pricing_no_overlapping_periods` on another row. */
  predicate Clashes(row: TicketPricing, startDate: Time, endDate: Time) {
    || (row.startDate <= startDate && row.endDate > startDate)
    || (row.startDate < endDate && row.endDate >= endDate)
    || (row.startDate >= startDate && row.endDate <= endDate)
  }

  /** The three cases of the condition are exactly overlap, which is sharing an instant. */
  lemma ClashIsOverlap(row: TicketPricing, p: TicketPricing)
    requires row.startDate < row.endDate && p.startDate < p.endDate
    ensures Clashes(row, p.startDate, p.endDate) <==> Overlap(row, p)
    ensures Overlap(row, p) <==> exists now :: CurrentAt(row, now) && CurrentAt(p, now)
  {
    if Overlap(row, p) {
      var later := if row.startDate < p.startDate then p.startDate else row.startDate;
      assert CurrentAt(row, later) && CurrentAt(p, later);
    }
  }

  // ------------------------------------------------------------ the table

  ghost predicate RowsOk(rows: map<Id, TicketPricing>, nextId: Id) {
    forall k :: k in rows ==> rows[k].id == k && k < nextId && rows[k].startDate < rows[k].endDate
  }

  ghost function WithStatus(rows: map<Id, TicketPricing>, t: Id, status: PricingStatus): (ids: set<Id>) {
    set k | k in rows && rows[k].ticketTypeId == t && rows[k].status == status
  }

  /** There is one default price, open to everybody. */
  ghost predicate OneDefault(rows: map<Id, TicketPricing>, t: Id) {
    && |WithStatus(rows, t, Default)| == 1
    && forall k :: k in WithStatus(rows, t, Default) ==> !rows[k].isBoxOfficeOnly
  }

  /** Two published prices that are open to everybody. */
  ghost predicate BothOpen(rows: map<Id, TicketPricing>, t: Id, j: Id, k: Id) {
    && j in WithStatus(rows, t, Published) && k in WithStatus(rows, t, Published) && j != k
    && !rows[j].isBoxOfficeOnly && !rows[k].isBoxOfficeOnly
  }

  /** Published prices that are open to everybody never apply at the same time. */
  ghost predicate Disjoint(rows: map<Id, TicketPricing>, t: Id) {
    forall j, k :: BothOpen(rows, t, j, k) ==> !Overlap(rows[j], rows[k])
  }

  ghost predicate WithinSale(rows: map<Id, TicketPricing>, sale: Sale) {
    forall k :: k in WithStatus(rows, sale.ticketTypeId, Published) ==>
      sale.startDate <= rows[k].startDate && rows[k].endDate <= sale.endDate
  }

  /** Rows of other types are the same. */
  ghost predicate OnlyType(before: map<Id, TicketPricing>, after: map<Id, TicketPricing>, t: Id) {
    forall k {:trigger k in before} {:trigger k in after} ::
      (k in before && before[k].ticketTypeId != t) || (k in after && after[k].ticketTypeId != t) ==>
        k in before && k in after && after[k] == before[k]
  }

  ghost predicate SameWithStatus(before: map<Id, TicketPricing>, after: map<Id, TicketPricing>, t: Id, status: PricingStatus) {
    && WithStatus(after, t, status) == WithStatus(before, t, status)
    && forall k :: k in WithStatus(before, t, status) ==> after[k] == before[k]
  }

  class PriceList {
    var rows: map<Id, TicketPricing>
    var nextId: Id
    // The prices that order items refer to.
    var used: set<Id>
    var now: Time

    constructor (now: Time)
      ensures rows == map[] && Valid() && this.now == now
    {
      this.rows, this.nextId, this.used, this.now := map[], 0, {}, now;
    }

    ghost predicate Valid()
      reads this
    {
      RowsOk(rows, nextId)
    }

    /** `add_ticket_pricing`. Free is a price; a negative one is refused. */
    method AddTicketPricing(t: Id, startDate: Time, endDate: Time, priceInCents: int, isBoxOfficeOnly: bool, status: PricingStatus)
      returns (r: Result<Id>)
      requires Valid()
      modifies this`rows, this`nextId
      ensures Valid()
      ensures r.Ok? <==> startDate < endDate && 0 <= priceInCents
      ensures r.Ok? ==>
        && r.value == old(nextId) && r.value !in old(rows)
        && rows == old(rows)[r.value := TicketPricing(r.value, t, status, priceInCents, isBoxOfficeOnly, startDate, endDate)]
        && nextId == old(nextId) + 1
      ensures r.Err? ==> unchanged(this)
    {
      if startDate >= endDate || priceInCents < 0 {
        return Err(ValidationError);
      }
      var id := nextId;
      rows := rows[id := TicketPricing(id, t, status, priceInCents, isBoxOfficeOnly, startDate, endDate)];
      nextId := nextId + 1;
      return Ok(id);
    }

    /** `destroy`: a price that somebody bought at is kept, as deleted. */
    method Destroy(k: Id)
      requires Valid() && k in rows
      modifies this`rows
      ensures Valid()
      ensures rows == if k in used then old(rows)[k := old(rows)[k].(status := Deleted)] else old(rows) - {k}
    {
      if k in used {
        rows := rows[k := rows[k].(status := Deleted)];
      } else {
        rows := rows - {k};
      }
    }

    /** `NewTicketType::commit`, the pricing part: a new type starts out with its default price. */
    method CommitTicketType(sale: Sale) returns (r: Result<()>)
      requires Valid() && forall k :: k in rows ==> rows[k].ticketTypeId != sale.ticketTypeId
      modifies this`rows, this`nextId
      ensures Valid()
      ensures r.Ok? <==> sale.startDate < sale.endDate && 0 <= sale.priceInCents
      ensures r.Ok? ==>
        && OneDefault(rows, sale.ticketTypeId) && Disjoint(rows, sale.ticketTypeId) && WithinSale(rows, sale)
        && OnlyType(old(rows), rows, sale.ticketTypeId)
        && rows == old(rows)[old(nextId) := DefaultOf(sale, old(nextId))]
      ensures r.Err? ==> unchanged(this)
    {
      var added := AddTicketPricing(sale.ticketTypeId, sale.startDate, sale.endDate, sale.priceInCents, false, Default);
      if added.Err? {
        return Err(added.error);
      }
      assert WithStatus(rows, sale.ticketTypeId, Default) == {added.value};
      return Ok(());
    }

    /** `get_default`, which takes the first. */
    method GetDefault(t: Id) returns (r: Option<Id>)
      ensures r.Some? ==> r.value in WithStatus(rows, t, Default)
      ensures r.None? ==> WithStatus(rows, t, Default) == {}
    {
      if k :| k in rows && rows[k].ticketTypeId == t && rows[k].status == Default {
        return Some(k);
      }
      return None;
    }

    /** `TicketType::update`, the pricing part: the default price is replaced, so that orders keep the one they were sold at. */
    method ReplaceDefault(sale: Sale) returns (r: Result<()>)
      requires Valid() && OneDefault(rows, sale.ticketTypeId)
      modifies this`rows, this`nextId
      ensures Valid()
      ensures r.Ok? <==> sale.startDate < sale.endDate && 0 <= sale.priceInCents
      ensures r.Ok? ==>
        && OneDefault(rows, sale.ticketTypeId)
        && (forall k :: k in WithStatus(rows, sale.ticketTypeId, Default) ==>
              rows[k].priceInCents == sale.priceInCents && rows[k].startDate == sale.startDate && rows[k].endDate == sale.endDate)
        && SameWithStatus(old(rows), rows, sale.ticketTypeId, Published)
        && OnlyType(old(rows), rows, sale.ticketTypeId)
        && exists k ::
             && WithStatus(old(rows), sale.ticketTypeId, Default) == {k}
             && rows == (if k in used then old(rows)[k := old(rows)[k].(status := Deleted)] else old(rows) - {k})
                        [old(nextId) := DefaultOf(sale, old(nextId))]
    {
      if sale.startDate >= sale.endDate {
        return Err(ValidationError);
      }
      ghost var before := rows;
      var default_ := GetDefault(sale.ticketTypeId);
      if default_.Some? {
        Destroy(default_.value);
        OnlyMember(WithStatus(before, sale.ticketTypeId, Default), default_.value);
        forall k | k in rows && rows[k].ticketTypeId == sale.ticketTypeId ensures rows[k].status != Default {
          assert k != default_.value ==> k !in WithStatus(before, sale.ticketTypeId, Default);
        }
        assert WithStatus(rows, sale.ticketTypeId, Default) == {};
      }
      var added := AddTicketPricing(sale.ticketTypeId, sale.startDate, sale.endDate, sale.priceInCents, false, Default);
      if added.Err? {
        return Err(added.error);
      }
      assert WithStatus(rows, sale.ticketTypeId, Default) == {added.value};
      assert WithStatus(rows, sale.ticketTypeId, Published) == WithStatus(before, sale.ticketTypeId, Published);
      return Ok(());
    }

    static lemma OnlyMember(s: set<Id>, k: Id)
      requires |s| == 1 && k in s
      ensures s == {k}
    {
      SubsetSize({k}, s);
    }

    // ---------------------------------------------------------- validation

    ghost predicate ClashFree(t: Id, p: TicketPricing)
      reads this
    {
      p.isBoxOfficeOnly || forall k :: k in rows ==> !ClashesWith(t, p, k)
    }

    predicate ClashesWith(t: Id, p: TicketPricing, k: Id)
      reads this
    {
      && k in rows && k != p.id && !rows[k].isBoxOfficeOnly && rows[k].status == Published && rows[k].ticketTypeId == t
      && Clashes(rows[k], p.startDate, p.endDate)
    }

    method NoOverlappingPeriods(t: Id, p: TicketPricing) returns (ok: bool)
      ensures ok <==> ClashFree(t, p)
    {
      ok := p.isBoxOfficeOnly || !exists k :: k in rows && ClashesWith(t, p, k);
    }

    /** `validate_ticket_pricing`: each published price is held against the others and against the sale. */
    method ValidateTicketPricing(sale: Sale) returns (r: Result<()>)
      requires Valid()
      ensures r.Ok? <==> Disjoint(rows, sale.ticketTypeId) && WithinSale(rows, sale)
    {
      var ok := true;
      ghost var left0 := WithStatus(rows, sale.ticketTypeId, Published);
      var left := set k | k in rows && rows[k].ticketTypeId == sale.ticketTypeId && rows[k].status == Published;
      while left != {}
        invariant left <= left0 == WithStatus(rows, sale.ticketTypeId, Published)
        invariant ok <==> forall k :: k in left0 - left ==> PriceOk(sale, rows[k])
        decreases left
      {
        var k :| k in left;
        left := left - {k};
        var clashFree := NoOverlappingPeriods(sale.ticketTypeId, rows[k]);
        ok := ok && clashFree && sale.startDate <= rows[k].startDate && rows[k].endDate <= sale.endDate;
        assert clashFree && sale.startDate <= rows[k].startDate && rows[k].endDate <= sale.endDate <==> PriceOk(sale, rows[k]);
      }
      ValidMeansDisjoint(sale);
      return if ok then Ok(()) else Err(ValidationError);
    }

    ghost predicate PriceOk(sale: Sale, p: TicketPricing)
      reads this
    {
      ClashFree(sale.ticketTypeId, p) && sale.startDate <= p.startDate && p.endDate <= sale.endDate
    }

    lemma ValidMeansDisjoint(sale: Sale)
      requires Valid()
      ensures (forall k :: k in WithStatus(rows, sale.ticketTypeId, Published) ==> PriceOk(sale, rows[k]))
         <==> Disjoint(rows, sale.ticketTypeId) && WithinSale(rows, sale)
    {
      var t := sale.ticketTypeId;
      forall j, k | j in rows && k in rows ensures Clashes(rows[k], rows[j].startDate, rows[j].endDate) <==> Overlap(rows[j], rows[k]) {
        ClashIsOverlap(rows[k], rows[j]);
      }
      if Disjoint(rows, t) && WithinSale(rows, sale) {
        forall j | j in WithStatus(rows, t, Published) ensures PriceOk(sale, rows[j]) {
          if !rows[j].isBoxOfficeOnly {
            forall k | k in rows ensures !ClashesWith(t, rows[j], k) {
              assert ClashesWith(t, rows[j], k) ==> BothOpen(rows, t, j, k);
            }
          }
        }
      }
      if forall k :: k in WithStatus(rows, t, Published) ==> PriceOk(sale, rows[k]) {
        forall j, k | BothOpen(rows, t, j, k) ensures !Overlap(rows[j], rows[k]) {
          assert PriceOk(sale, rows[j]);
        }
      }
    }

    // ---------------------------------------------------------- the controller

    /** What every part of the update keeps: the table's shape, other types, and the default price. */
    ghost predicate KeepsTheRest(before: map<Id, TicketPricing>, t: Id)
      reads this
    {
      Valid() && OnlyType(before, rows, t) && SameWithStatus(before, rows, t, Default)
    }

    /** Published prices the request does not name are gone, or kept as deleted where they are used; deleted ones are as before. */
    static ghost predicate UnnamedGone(before: map<Id, TicketPricing>, rows: map<Id, TicketPricing>, used: set<Id>, t: Id,
                                       requests: seq<PricingRequest>) {
      && (forall k :: k in WithStatus(before, t, Published) && !Named(requests, k) ==>
            if k in used then k in rows && rows[k] == before[k].(status := Deleted) else k !in rows)
      && (forall k :: k in WithStatus(before, t, Deleted) ==> k in rows && rows[k] == before[k])
    }

    /** So far the unnamed prices outside `left` are gone. */
    static ghost predicate GoneSoFar(start: map<Id, TicketPricing>, rows: map<Id, TicketPricing>, used: set<Id>, t: Id, left: set<Id>,
                                     requests: seq<PricingRequest>) {
      && OnlyType(start, rows, t) && SameWithStatus(start, rows, t, Default)
      && (forall k :: k in WithStatus(rows, t, Published) <==> k in WithStatus(start, t, Published) && (k in left || Named(requests, k)))
      && (forall k :: k in WithStatus(rows, t, Published) ==> rows[k] == start[k])
      && (forall k :: k in WithStatus(start, t, Published) && k !in left && !Named(requests, k) ==>
            if k in used then k in rows && rows[k] == start[k].(status := Deleted) else k !in rows)
      && (forall k :: k in WithStatus(start, t, Deleted) ==> k in rows && rows[k] == start[k])
    }

    static lemma OneMoreGone(start: map<Id, TicketPricing>, before: map<Id, TicketPricing>, after: map<Id, TicketPricing>, used: set<Id>,
                             t: Id, left: set<Id>, requests: seq<PricingRequest>, k: Id)
      requires GoneSoFar(start, before, used, t, left, requests) && k in left && k in WithStatus(start, t, Published)
      requires if Named(requests, k) then after == before
               else k in before && after == if k in used then before[k := before[k].(status := Deleted)] else before - {k}
      ensures GoneSoFar(start, after, used, t, left - {k}, requests)
    {
      assert forall j :: j in WithStatus(after, t, Published) <==>
        j in WithStatus(before, t, Published) && (j != k || Named(requests, k));
      assert WithStatus(after, t, Default) == WithStatus(before, t, Default);
    }

    /** Destroys the published prices the request does not name. */
    method DestroyUnnamed(t: Id, published: set<Id>, requests: seq<PricingRequest>)
      requires Valid() && published == WithStatus(rows, t, Published)
      modifies this`rows
      ensures KeepsTheRest(old(rows), t)
      ensures forall k :: k in WithStatus(rows, t, Published) <==> k in published && Named(requests, k)
      ensures forall k :: k in WithStatus(rows, t, Published) ==> rows[k] == old(rows)[k]
      ensures UnnamedGone(old(rows), rows, used, t, requests)
    {
      NothingGone(rows, used, t, requests);
      hide GoneSoFar, RowsOk, Named;
      var left := published;
      while left != {}
        invariant left <= published && Valid() && GoneSoFar(old(rows), rows, used, t, left, requests)
        decreases left
      {
        var k :| k in left;
        var foundFlag := false;
        for i := 0 to |requests|
          invariant foundFlag <==> exists j :: 0 <= j < i && requests[j].id == Some(k)
        {
          if requests[i].id == Some(k) {
            foundFlag := true;
            break;
          }
        }
        NamedByALine(requests, k);
        ghost var before := rows;
        if !foundFlag {
          LeftIsThere(old(rows), rows, used, t, left, requests, k);
          Destroy(k);
        }
        OneMoreGone(old(rows), before, rows, used, t, left, requests, k);
        left := left - {k};
      }
      AllGone(old(rows), rows, used, t, requests);
    }

    static lemma NothingGone(rows: map<Id, TicketPricing>, used: set<Id>, t: Id, requests: seq<PricingRequest>)
      ensures GoneSoFar(rows, rows, used, t, WithStatus(rows, t, Published), requests)
    {
    }

    static lemma AllGone(start: map<Id, TicketPricing>, rows: map<Id, TicketPricing>, used: set<Id>, t: Id, requests: seq<PricingRequest>)
      requires GoneSoFar(start, rows, used, t, {}, requests)
      ensures UnnamedGone(start, rows, used, t, requests) && OnlyType(start, rows, t) && SameWithStatus(start, rows, t, Default)
      ensures forall k :: k in WithStatus(rows, t, Published) <==> k in WithStatus(start, t, Published) && Named(requests, k)
      ensures forall k :: k in WithStatus(rows, t, Published) ==> rows[k] == start[k]
    {
    }

    static lemma LeftIsThere(start: map<Id, TicketPricing>, rows: map<Id, TicketPricing>, used: set<Id>, t: Id, left: set<Id>,
                             requests: seq<PricingRequest>, k: Id)
      requires GoneSoFar(start, rows, used, t, left, requests) && k in left && k in WithStatus(start, t, Published)
      ensures k in rows
    {
      assert k in WithStatus(rows, t, Published);
    }

    static lemma NamedByALine(requests: seq<PricingRequest>, k: Id)
      ensures Named(requests, k) <==> exists j :: 0 <= j < |requests| && requests[j].id == Some(k)
    {
    }

    static predicate Named(requests: seq<PricingRequest>, k: Id) {
      exists j :: 0 <= j < |requests| && requests[j].id == Some(k)
    }

    /** The dates are in order, both on the row as it was loaded and on the row as it is now. */
    static predicate DatesInOrder(self: TicketPricing, row: TicketPricing, request: PricingRequest) {
      && UnwrapOr(request.startDate, self.startDate) < UnwrapOr(request.endDate, self.endDate)
      && UnwrapOr(request.startDate, row.startDate) < UnwrapOr(request.endDate, row.endDate)
    }

    /** `TicketPricing::update` on a row as it was loaded. Prices are not validated here, and may become negative. */
    method UpdateRow(self: TicketPricing, request: PricingRequest) returns (r: Result<()>)
      requires Valid() && self.id in rows && request.id == Some(self.id)
      modifies this`rows
      ensures r.Ok? <==> DatesInOrder(self, old(rows)[self.id], request)
      ensures r.Ok? ==> Valid() && rows == old(rows)[self.id := Applied(old(rows)[self.id], request)]
      ensures r.Err? ==> unchanged(this)
    {
      if UnwrapOr(request.startDate, self.startDate) >= UnwrapOr(request.endDate, self.endDate) {
        return Err(ValidationError);
      }
      var row := rows[self.id];
      row := row.(
        priceInCents := UnwrapOr(request.priceInCents, row.priceInCents),
        startDate := UnwrapOr(request.startDate, row.startDate),
        endDate := UnwrapOr(request.endDate, row.endDate),
        isBoxOfficeOnly := UnwrapOr(request.isBoxOfficeOnly, row.isBoxOfficeOnly));
      if row.startDate >= row.endDate {
        return Err(UpdateError);
      }
      rows := rows[self.id := row];
      return Ok(());
    }

    /** One line of the request. One without an id and without all it takes to make a price is passed over. */
    method ApplyRequest(t: Id, loaded: map<Id, TicketPricing>, request: PricingRequest, ghost start: map<Id, TicketPricing>)
      returns (r: Result<()>)
      requires KeepsTheRest(start, t)
      requires forall k :: k in loaded ==> loaded[k].id == k && (request.id == Some(k) ==> k in WithStatus(rows, t, Published))
      modifies this`rows, this`nextId
      ensures r.Ok? <==>
        && (request.id.Some? ==>
              request.id.value in loaded && request.id.value in old(rows)
              && DatesInOrder(loaded[request.id.value], old(rows)[request.id.value], request))
        && (MakesPrice(request) ==> request.startDate.value < request.endDate.value && 0 <= request.priceInCents.value)
      ensures r.Ok? ==> KeepsTheRest(start, t) && old(nextId) <= nextId
      ensures r.Ok? && request.id.Some? ==>
        && request.id.value in WithStatus(old(rows), t, Published)
        && rows == old(rows)[request.id.value := Applied(old(rows)[request.id.value], request)]
      ensures r.Ok? && MakesPrice(request) ==>
        && old(nextId) < nextId && old(nextId) !in old(rows)
        && rows == old(rows)[old(nextId) := NewPrice(request, t, old(nextId))]
      ensures r.Ok? && request.id.None? && !MakesPrice(request) ==> rows == old(rows)
    {
      if request.id.Some? {
        var k := request.id.value;
        if k !in loaded {
          return Err(InternalError);
        }
        r := UpdateRow(loaded[k], request);
      } else if request.named && request.priceInCents.Some? && request.startDate.Some? && request.endDate.Some? {
        ghost var before := rows;
        var added := AddTicketPricing(t, request.startDate.value, request.endDate.value, request.priceInCents.value,
                                      UnwrapOr(request.isBoxOfficeOnly, false), Published);
        r := if added.Ok? then Ok(()) else Err(added.error);
        if added.Ok? {
          AddingKeepsTheRest(start, before, rows, t, added.value);
        }
      } else {
        r := Ok(());
      }
    }

    static lemma AddingKeepsTheRest(start: map<Id, TicketPricing>, before: map<Id, TicketPricing>, after: map<Id, TicketPricing>, t: Id, k: Id)
      requires OnlyType(start, before, t) && SameWithStatus(start, before, t, Default) && k !in before
      requires k in after && after == before[k := after[k]] && after[k].ticketTypeId == t && after[k].status == Published
      ensures OnlyType(start, after, t) && SameWithStatus(start, after, t, Default)
    {
      assert WithStatus(after, t, Default) == WithStatus(before, t, Default);
    }

    /** The lines so far: the named prices carry what the request asks for, and beside them are those it has made, as `made`. */
    static ghost predicate Requested(start: map<Id, TicketPricing>, rows: map<Id, TicketPricing>, t: Id, requests: seq<PricingRequest>,
                                     n: nat, made: seq<Id>)
      requires n <= |requests|
    {
      && (forall k :: k in WithStatus(start, t, Published) && Named(requests, k) ==>
            k in WithStatus(rows, t, Published) && rows[k] == AppliedAll(start[k], requests[..n]))
      && |made| == |Making(requests[..n])|
      && (forall i :: 0 <= i < |made| ==>
            made[i] !in start && made[i] in rows && rows[made[i]] == NewPrice(Making(requests[..n])[i], t, made[i]))
      && (forall i, j :: 0 <= i < j < |made| ==> made[i] < made[j])
      && (forall k :: k in WithStatus(rows, t, Published) ==> (k in WithStatus(start, t, Published) && Named(requests, k)) || k in made)
    }

    static lemma UpdatedIsRequested(start: map<Id, TicketPricing>, before: map<Id, TicketPricing>, after: map<Id, TicketPricing>, t: Id,
                                    requests: seq<PricingRequest>, n: nat, made: seq<Id>, k: Id)
      requires n < |requests| && requests[n].id == Some(k) && Requested(start, before, t, requests, n, made)
      requires (forall j :: j in start ==> start[j].id == j) && k in WithStatus(start, t, Published) && k in before
      requires after == before[k := Applied(before[k], requests[n])]
      ensures Requested(start, after, t, requests, n + 1, made)
    {
      assert requests[..n + 1][..n] == requests[..n];
      assert Making(requests[..n + 1]) == Making(requests[..n]);
      assert Named(requests, k);
      assert WithStatus(after, t, Published) == WithStatus(before, t, Published);
      forall j | j in WithStatus(start, t, Published) && Named(requests, j)
        ensures j in WithStatus(after, t, Published) && after[j] == AppliedAll(start[j], requests[..n + 1])
      {
        assert AppliedAll(start[j], requests[..n + 1]) == Applied(AppliedAll(start[j], requests[..n]), requests[n]);
      }
    }

    static lemma MadeIsRequested(start: map<Id, TicketPricing>, before: map<Id, TicketPricing>, after: map<Id, TicketPricing>, t: Id,
                                 requests: seq<PricingRequest>, n: nat, made: seq<Id>, k: Id)
      requires n < |requests| && MakesPrice(requests[n]) && Requested(start, before, t, requests, n, made)
      requires (forall j :: j in start ==> start[j].id == j) && k !in before && k !in start
      requires forall i :: 0 <= i < |made| ==> made[i] < k
      requires after == before[k := NewPrice(requests[n], t, k)]
      ensures Requested(start, after, t, requests, n + 1, made + [k])
    {
      assert requests[..n + 1][..n] == requests[..n];
      var more := made + [k];
      assert Making(requests[..n + 1]) == Making(requests[..n]) + [requests[n]];
      assert WithStatus(after, t, Published) == WithStatus(before, t, Published) + {k};
      assert k in more && forall j :: j in made ==> j in more;
      forall j | j in WithStatus(start, t, Published) && Named(requests, j)
        ensures j in WithStatus(after, t, Published) && after[j] == AppliedAll(start[j], requests[..n + 1])
      {
        assert AppliedAll(start[j], requests[..n + 1]) == Applied(AppliedAll(start[j], requests[..n]), requests[n]);
      }
    }

    static lemma PassedOverIsRequested(start: map<Id, TicketPricing>, rows: map<Id, TicketPricing>, t: Id, requests: seq<PricingRequest>,
                                       n: nat, made: seq<Id>)
      requires n < |requests| && requests[n].id.None? && !MakesPrice(requests[n]) && Requested(start, rows, t, requests, n, made)
      ensures Requested(start, rows, t, requests, n + 1, made)
    {
      assert requests[..n + 1][..n] == requests[..n];
      assert Making(requests[..n + 1]) == Making(requests[..n]);
      forall j | j in WithStatus(start, t, Published) && Named(requests, j)
        ensures j in rows && rows[j] == AppliedAll(start[j], requests[..n + 1])
      {
        assert AppliedAll(start[j], requests[..n + 1]) == Applied(AppliedAll(start[j], requests[..n]), requests[n]);
      }
    }

    /** The `i`-th line can be applied: it names a published price and leaves its dates in order, or makes a valid one. */
    static ghost predicate LineOk(start: map<Id, TicketPricing>, t: Id, requests: seq<PricingRequest>, i: nat)
      requires i < |requests|
    {
      var request := requests[i];
      && (request.id.Some? ==>
            && request.id.value in WithStatus(start, t, Published)
            && DatesInOrder(start[request.id.value], AppliedAll(start[request.id.value], requests[..i]), request))
      && (MakesPrice(request) ==> request.startDate.value < request.endDate.value && 0 <= request.priceInCents.value)
    }

    static lemma NothingRequestedYet(start: map<Id, TicketPricing>, rows: map<Id, TicketPricing>, t: Id, requests: seq<PricingRequest>)
      requires forall k :: k in WithStatus(rows, t, Published) <==> k in WithStatus(start, t, Published) && Named(requests, k)
      requires forall k :: k in WithStatus(rows, t, Published) ==> k in start && rows[k] == start[k]
      ensures Requested(start, rows, t, requests, 0, [])
    {
    }

    /**
      The pricing part of the type's update. It goes through when every line can be applied and the prices that result do not
    overlap and lie within the sale. If it goes through, the published prices of the type are the named ones, with what
      the request asks for, and those it makes; no two open prices are on at once, all lie within the sale, and the
      default price is untouched.
     */
    method UpdatePricings(sale: Sale, requests: seq<PricingRequest>) returns (r: Result<()>, ghost made: seq<Id>)
      requires Valid()
      modifies this`rows, this`nextId
      ensures r.Ok? ==> forall i :: 0 <= i < |requests| ==> LineOk(old(rows), sale.ticketTypeId, requests, i)
      ensures (forall i :: 0 <= i < |requests| ==> LineOk(old(rows), sale.ticketTypeId, requests, i)) ==>
        && KeepsTheRest(old(rows), sale.ticketTypeId)
        && Requested(old(rows), rows, sale.ticketTypeId, requests, |requests|, made)
        && UnnamedGone(old(rows), rows, used, sale.ticketTypeId, requests)
        && (r.Ok? <==> Disjoint(rows, sale.ticketTypeId) && WithinSale(rows, sale))
    {
      hide Requested, OnlyType, SameWithStatus, DatesInOrder, Disjoint, WithinSale, MakesPrice, UnnamedGone;
      ghost var start := rows;
      ghost var firstId := nextId;
      var t := sale.ticketTypeId;
      var published := set k | k in rows && rows[k].ticketTypeId == t && rows[k].status == Published;
      assert published == WithStatus(rows, t, Published);
      var loaded := map k | k in published :: rows[k];
      made := [];
      DestroyUnnamed(t, published, requests);
      NothingRequestedYet(start, rows, t, requests);
      for i := 0 to |requests|
        invariant KeepsTheRest(start, t) && firstId <= nextId
        invariant Requested(start, rows, t, requests, i, made)
        invariant UnnamedGone(start, rows, used, t, requests) && firstId <= nextId
        invariant forall j :: 0 <= j < i ==> LineOk(start, t, requests, j)
        invariant forall j :: 0 <= j < |made| ==> made[j] < nextId
      {
        ghost var before, id := rows, nextId;
        NamedIsThere(start, rows, t, requests, i, made);
        var applied := ApplyRequest(t, loaded, requests[i], start);
        assert applied.Ok? <==> LineOk(start, t, requests, i);
        if applied.Err? {
          return applied, made;
        }
        if requests[i].id.Some? {
          UpdatedIsRequested(start, before, rows, t, requests, i, made, requests[i].id.value);
          NamedLeavesTheGone(start, before, rows, used, t, requests, i, requests[i].id.value);
        } else if MakesPrice(requests[i]) {
          MadeIsRequested(start, before, rows, t, requests, i, made, id);
          MadeLeavesTheGone(start, before, rows, used, t, requests, id);
          made := made + [id];
        } else {
          PassedOverIsRequested(start, rows, t, requests, i, made);
        }
      }
      r := ValidateTicketPricing(sale);
    }

    static lemma NamedLeavesTheGone(start: map<Id, TicketPricing>, before: map<Id, TicketPricing>, after: map<Id, TicketPricing>, used: set<Id>,
                                    t: Id, requests: seq<PricingRequest>, n: nat, k: Id)
      requires UnnamedGone(start, before, used, t, requests) && n < |requests| && requests[n].id == Some(k)
      requires k in WithStatus(start, t, Published) && k in after && after == before[k := after[k]]
      ensures UnnamedGone(start, after, used, t, requests)
    {
      assert Named(requests, k);
    }

    static lemma MadeLeavesTheGone(start: map<Id, TicketPricing>, before: map<Id, TicketPricing>, after: map<Id, TicketPricing>, used: set<Id>,
                                   t: Id, requests: seq<PricingRequest>, k: Id)
      requires UnnamedGone(start, before, used, t, requests) && k !in start && k in after && after == before[k := after[k]]
      ensures UnnamedGone(start, after, used, t, requests)
    {
    }

    static lemma NamedIsThere(start: map<Id, TicketPricing>, rows: map<Id, TicketPricing>, t: Id, requests: seq<PricingRequest>, n: nat,
                              made: seq<Id>)
      requires n < |requests| && Requested(start, rows, t, requests, n, made)
      ensures forall k :: requests[n].id == Some(k) && k in WithStatus(start, t, Published) ==>
        k in WithStatus(rows, t, Published) && rows[k] == AppliedAll(start[k], requests[..n])
    {
      assert forall k :: requests[n].id == Some(k) ==> Named(requests, k);
    }

    // ---------------------------------------------------------- the price now

    ghost function Applicable(t: Id, status: PricingStatus): (ids: set<Id>)
      reads this
    {
      set k | k in WithStatus(rows, t, status) && CurrentAt(rows[k], now)
    }

    ghost predicate IsOpen(k: Id)
      reads this
    {
      k in rows && !rows[k].isBoxOfficeOnly
    }

    /** An open published price is current. */
    ghost predicate OpenPriceIsPublished(t: Id)
      reads this
    {
      exists k :: k in Applicable(t, Published) && IsOpen(k)
    }

    /** The default is what is asked for, or what there is left where no open price is published; but not at the box office. */
    ghost predicate FallsToDefault(t: Id, boxOfficePricing: bool, getDefaultPricing: bool)
      reads this
    {
      getDefaultPricing || (!boxOfficePricing && !OpenPriceIsPublished(t))
    }

    /** A price that may be charged now. */
    ghost predicate IsPriceNow(t: Id, boxOfficePricing: bool, getDefaultPricing: bool, k: Id)
      reads this
    {
      && k in Applicable(t, if FallsToDefault(t, boxOfficePricing, getDefaultPricing) then Default else Published)
      && (boxOfficePricing || IsOpen(k))
    }

    /**
      `get_current_ticket_pricing`. The box office sees published prices only, its own before the open ones, and has no
      default to fall back on. Other buyers pay the default only while no open price is published.
     */
    method GetCurrentTicketPricing(t: Id, boxOfficePricing: bool, getDefaultPricing: bool) returns (r: Result<TicketPricing>)
      requires Valid()
      ensures r.Ok? ==> exists k :: IsPriceNow(t, boxOfficePricing, getDefaultPricing, k) && r.value == rows[k]
      ensures r.Ok? && !getDefaultPricing && (boxOfficePricing || OpenPriceIsPublished(t)) ==> r.value.status == Published
      ensures r.Ok? ==> (r.value.status == Default <==> getDefaultPricing || (!boxOfficePricing && !OpenPriceIsPublished(t)))
      ensures r.Ok? ==> r.value.ticketTypeId == t && r.value.startDate <= now && now < r.value.endDate
      ensures r == Err(NoResults) <==> forall k :: !IsPriceNow(t, boxOfficePricing, getDefaultPricing, k)
      ensures r == Err(MultipleResultsWhenOneExpected) <==>
        && !boxOfficePricing
        && exists j, k :: j != k && IsPriceNow(t, false, getDefaultPricing, j) && IsPriceNow(t, false, getDefaultPricing, k)
      ensures r.Ok? || r == Err(NoResults) || r == Err(MultipleResultsWhenOneExpected)
      ensures Disjoint(rows, t) && OneDefault(rows, t) ==> r != Err(MultipleResultsWhenOneExpected)
      ensures boxOfficePricing && r.Ok? && !r.value.isBoxOfficeOnly ==>
        forall k :: k in Applicable(t, if getDefaultPricing then Default else Published) ==> IsOpen(k)
      decreases !getDefaultPricing
    {
      hide RowsOk, IsPriceNow, OpenPriceIsPublished, Applicable, IsOpen, Disjoint, OneDefault, CurrentAt;
      var status := if getDefaultPricing then Default else Published;
      var pricePoints := set k | k in rows && rows[k].ticketTypeId == t && rows[k].status == status && CurrentAt(rows[k], now)
                                 && (boxOfficePricing || !rows[k].isBoxOfficeOnly);
      ghost var found := pricePoints;
      PointsArePrices(t, boxOfficePricing, getDefaultPricing, status, pricePoints);
      if boxOfficePricing && pricePoints != {} {
        if k :| k in pricePoints && rows[k].isBoxOfficeOnly {
          pricePoints := {k};
        } else {
          var k :| k in pricePoints;
          pricePoints := {k};
        }
      }
      AtMostOneOpen(t, pricePoints, status, boxOfficePricing);
      if |pricePoints| > 1 {
        var _, _ := TwoOf(pricePoints);
        return Err(MultipleResultsWhenOneExpected);
      } else if |pricePoints| == 0 {
        if !getDefaultPricing && !boxOfficePricing {
          r := GetCurrentTicketPricing(t, boxOfficePricing, true);
          SamePrices(t);
          return;
        }
        return Err(NoResults);
      }
      var k :| k in pricePoints;
      OnlyMember(pricePoints, k);
      PointIsCurrent(k);
      assert IsPriceNow(t, boxOfficePricing, getDefaultPricing, k);
      return Ok(rows[k]);
    }

    static lemma TwoOf(s: set<Id>) returns (j: Id, k: Id)
      requires |s| > 1
      ensures j in s && k in s && j != k
    {
      j :| j in s;
      if s - {j} == {} {
        SubsetSize(s, {j});
      }
      k :| k in s - {j};
    }

    /** Where no open price is published, the prices are the defaults. */
    lemma SamePrices(t: Id)
      requires !OpenPriceIsPublished(t)
      ensures (exists k :: IsPriceNow(t, false, false, k)) <==> (exists k :: IsPriceNow(t, false, true, k))
      ensures (exists j, k :: j != k && IsPriceNow(t, false, false, j) && IsPriceNow(t, false, false, k))
         <==> (exists j, k :: j != k && IsPriceNow(t, false, true, j) && IsPriceNow(t, false, true, k))
    {
      assert forall k {:trigger IsPriceNow(t, false, false, k)} {:trigger IsPriceNow(t, false, true, k)} ::
        IsPriceNow(t, false, false, k) <==> IsPriceNow(t, false, true, k);
      hide IsPriceNow;
    }

    lemma PointIsCurrent(k: Id)
      requires k in rows
      ensures CurrentAt(rows[k], now) <==> rows[k].startDate <= now && now < rows[k].endDate
    {
    }

    /** What the query finds are the prices that may be charged, or if it finds none, these are the defaults. */
    lemma PointsArePrices(t: Id, boxOfficePricing: bool, getDefaultPricing: bool, status: PricingStatus, points: set<Id>)
      requires status == if getDefaultPricing then Default else Published
      requires forall k :: k in points <==>
        && k in rows && rows[k].ticketTypeId == t && rows[k].status == status && CurrentAt(rows[k], now)
        && (boxOfficePricing || !rows[k].isBoxOfficeOnly)
      ensures !getDefaultPricing && !boxOfficePricing ==> (OpenPriceIsPublished(t) <==> points != {})
      ensures getDefaultPricing || boxOfficePricing || points != {} ==>
        forall k :: k in points <==> IsPriceNow(t, boxOfficePricing, getDefaultPricing, k)
      ensures !getDefaultPricing && !boxOfficePricing && points == {} ==>
        forall k :: IsPriceNow(t, false, false, k) <==> IsPriceNow(t, false, true, k)
      ensures forall k :: k in Applicable(t, status) && (boxOfficePricing || IsOpen(k)) <==> k in points
      ensures forall k :: IsOpen(k) <==> k in rows && !rows[k].isBoxOfficeOnly
    {
      assert forall k :: k in points <==> k in Applicable(t, status) && (boxOfficePricing || IsOpen(k));
    }

    lemma AtMostOneOpen(t: Id, points: set<Id>, status: PricingStatus, single: bool)
      requires single ==> |points| <= 1
      requires !single ==> forall k :: k in points ==> k in WithStatus(rows, t, status) && CurrentAt(rows[k], now) && IsOpen(k)
      requires status != Deleted
      ensures Disjoint(rows, t) && OneDefault(rows, t) ==> |points| <= 1
    {
      if !single && Disjoint(rows, t) && OneDefault(rows, t) {
        if status == Default {
          SubsetSize(points, WithStatus(rows, t, Default));
        } else if j :| j in points {
          forall k | k in points ensures k == j {
            assert Overlap(rows[j], rows[k]);
            assert !BothOpen(rows, t, j, k);
          }
          SubsetSize(points, {j});
        }
      }
    }
  }
}
