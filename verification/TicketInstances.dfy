/**
  Rows of `ticket_instances` and the statements that move them between carts, holds
  and the main pool (db/src/models/ticket_instances.rs and db/src/queries).

  Every statement has the shape UPDATE ... WHERE id IN (SELECT ... LIMIT n FOR UPDATE
  SKIP LOCKED): a scan picks at most n eligible rows that no other transaction has
  locked, and the update rewrites exactly those.
*/
module TicketInstances {
  import opened Schema
  import opened Sets

  /** A WHERE clause over a row id and its row. */
  type Where = (Id, Ticket) -> bool

  /** SQL's `column < now()`, which is not true of NULL. */
  predicate Before(time: Option<Time>, now: Time) {
    time.Some? && time.value < now
  }

  /** The rows that satisfy a WHERE clause. */
  ghost function RowsWhere(tickets: seq<Ticket>, where_: Where): (rows: set<Id>) {
    set i: Id | i < |tickets| && where_(i, tickets[i])
  }

  /** The rows an order item holds. */
  ghost function Linked(tickets: seq<Ticket>, itemId: Id): (rows: set<Id>) {
    set i: Id | i < |tickets| && tickets[i].orderItemId == Some(itemId)
  }

  /** The table after SET ... on the picked rows. */
  ghost predicate Rewritten(before: seq<Ticket>, after: seq<Ticket>, picked: set<Id>, set_: Ticket -> Ticket) {
    && |after| == |before|
    && forall i: Id {:trigger after[i]} {:trigger before[i]} :: i < |after| ==>
       after[i] == if i in picked then set_(before[i]) else before[i]
  }

  /** What SELECT ... WHERE ... LIMIT n FOR UPDATE SKIP LOCKED may return. */
  ghost predicate IsSelection(tickets: seq<Ticket>, where_: Where, limit: nat, locked: set<Id>, picked: set<Id>) {
    && picked <= RowsWhere(tickets, where_) - locked
    && |picked| <= limit
    && (|picked| < limit ==> picked == RowsWhere(tickets, where_) - locked)
  }

  /** A selection is full exactly when enough unlocked rows qualify. */
  lemma SelectionIsFull(tickets: seq<Ticket>, where_: Where, limit: nat, locked: set<Id>, picked: set<Id>)
    requires IsSelection(tickets, where_, limit, locked, picked)
    ensures |picked| == limit <==> limit <= |RowsWhere(tickets, where_) - locked|
  {
    SubsetSize(picked, RowsWhere(tickets, where_) - locked);
  }

  /** The inner SELECT. Which rows it picks when more than `limit` qualify is not for callers to know. */
  method SelectForUpdate(tickets: seq<Ticket>, where_: Where, limit: nat, locked: set<Id>)
    returns (picked: set<Id>)
    ensures IsSelection(tickets, where_, limit, locked, picked)
  {
    picked := {};
    var i := 0;
    while i < |tickets| && |picked| < limit
      invariant i <= |tickets| && |picked| <= limit
      invariant forall j :: j in picked ==> j < i && where_(j, tickets[j]) && j !in locked
      invariant forall j: Id :: j < i && where_(j, tickets[j]) && j !in locked ==> j in picked
    {
      if where_(i, tickets[i]) && i !in locked {
        picked := picked + {i};
      }
      i := i + 1;
    }
    if |picked| < limit {
      assert picked == RowsWhere(tickets, where_) - locked;
    }
  }

  /** The outer UPDATE. */
  method Update(tickets: seq<Ticket>, picked: set<Id>, set_: Ticket -> Ticket) returns (updated: seq<Ticket>)
    ensures Rewritten(tickets, updated, picked, set_)
  {
    updated := [];
    for i := 0 to |tickets|
      invariant |updated| == i
      invariant forall j: Id :: j < i ==>
        updated[j] == if j in picked then set_(tickets[j]) else tickets[j]
    {
      updated := updated + [if i in picked then set_(tickets[i]) else tickets[i]];
    }
  }

  // ------------------------------------------------------------ reserving and releasing

  /**
    queries/reserve_tickets.sql and queries/add_tickets_to_hold.sql: the row is unlinked,
    or its reservation has lapsed and it is not Purchased. Nothing is asked of the status
    beyond that, so Nullified rows and lapsed Redeemed rows qualify.
   */
  predicate Takeable(t: Ticket, ticketTypeId: Id, holdId: Option<Id>, now: Time) {
    && (t.orderItemId.None? || (Before(t.reservedUntil, now) && !t.status.Purchased?))
    && t.ticketTypeId == ticketTypeId
    && t.holdId == holdId
  }

  /** A ticket that was sold can be taken from its buyer exactly once it has been redeemed and its reservation has run out. */
  lemma SoldTicketIsTakeable(t: Ticket, now: Time)
    requires t.orderItemId.Some? && t.status in {Purchased, Redeemed}
    ensures Takeable(t, t.ticketTypeId, t.holdId, now) <==> t.status == Redeemed && Before(t.reservedUntil, now)
  {
  }

  function TakeableWhere(ticketTypeId: Id, holdId: Option<Id>, now: Time): Where {
    (_, t: Ticket) => Takeable(t, ticketTypeId, holdId, now)
  }

  function ReserveRow(itemId: Id, expiresAt: Time, now: Time): Ticket -> Ticket {
    (t: Ticket) =>
      t.(orderItemId := Some(itemId), reservedUntil := Some(expiresAt), status := Reserved, updatedAt := now)
  }

  /** queries/release_tickets.sql */
  function ReleasableWhere(itemId: Option<Id>, status: TicketStatus, ticketId: Option<Id>): Where {
    (i: Id, t: Ticket) =>
      itemId.Some? && t.orderItemId == itemId && t.status == status && (ticketId == None || ticketId == Some(i))
  }

  function ReleaseRow(now: Time): Ticket -> Ticket {
    (t: Ticket) =>
      t.(orderItemId := None, reservedUntil := None, transferKey := None, transferExpiryDate := None,
         status := Available, updatedAt := now)
  }

  /** The ticket has been sold to the item it is linked to. */
  predicate IsSold(t: Ticket) {
    t.orderItemId.Some? && t.status in {Purchased, Redeemed}
  }

  /** The sold tickets among `picked`, each with the item it is taken from. */
  ghost function SoldBy(tickets: seq<Ticket>, picked: set<Id>): (losses: set<(Id, Id)>) {
    set i | i in picked && i < |tickets| && IsSold(tickets[i]) :: (tickets[i].orderItemId.value, i)
  }

  /** Tickets stay with the item they were sold to, unless they are on record as lost to it. */
  ghost predicate SoldStay(before: seq<Ticket>, after: seq<Ticket>, lost: set<(Id, Id)>) {
    && |before| <= |after|
    && forall i: Id {:trigger before[i]} :: i < |before| && IsSold(before[i]) ==>
       || (IsSold(after[i]) && after[i].orderItemId == before[i].orderItemId)
       || (before[i].orderItemId.value, i) in lost
  }

  lemma EligibleRows(tickets: seq<Ticket>, ticketTypeId: Id, holdId: Option<Id>, now: Time)
    ensures RowsWhere(tickets, TakeableWhere(ticketTypeId, holdId, now)) ==
      (set i: Id | i < |tickets| && tickets[i].ticketTypeId == ticketTypeId && tickets[i].holdId == holdId
                   && (tickets[i].orderItemId.None?
                       || (tickets[i].status != Purchased && tickets[i].reservedUntil.Some? && tickets[i].reservedUntil.value < now)))
  {
  }

  method ReserveTickets(conn: Connection, itemId: Id, expiresAt: Option<Time>, ticketTypeId: Id,
                        holdId: Option<Id>, quantity: u32)
    returns (r: Result<set<Id>>)
    modifies conn`tickets, conn`history
    ensures expiresAt.None? ==> r == Err(BusinessProcessError) && unchanged(conn)
    ensures expiresAt.Some? ==>
      (r.Ok? <==> quantity <= |RowsWhere(old(conn.tickets), TakeableWhere(ticketTypeId, holdId, conn.now)) - conn.lockedRows|)
    ensures RowsWhere(old(conn.tickets), TakeableWhere(ticketTypeId, holdId, conn.now)) ==
      (set i: Id | i < |old(conn.tickets)| && old(conn.tickets)[i].ticketTypeId == ticketTypeId && old(conn.tickets)[i].holdId == holdId
                   && (old(conn.tickets)[i].orderItemId.None?
                       || (old(conn.tickets)[i].status != Purchased && old(conn.tickets)[i].reservedUntil.Some?
                           && old(conn.tickets)[i].reservedUntil.value < conn.now)))
    ensures r.Ok? ==>
      && r.value <= RowsWhere(old(conn.tickets), TakeableWhere(ticketTypeId, holdId, conn.now)) - conn.lockedRows
      && |r.value| == quantity
      && Rewritten(old(conn.tickets), conn.tickets, r.value, ReserveRow(itemId, expiresAt.value, conn.now))
      && (forall i :: i in r.value ==>
            conn.tickets[i] == old(conn.tickets)[i].(orderItemId := Some(itemId), reservedUntil := expiresAt, status := Reserved,
                                                     updatedAt := conn.now))
      && conn.history == old(conn.history).(lost := old(conn.history.lost) + SoldBy(old(conn.tickets), r.value))
  {
    hide Takeable, IsSold;
    EligibleRows(conn.tickets, ticketTypeId, holdId, conn.now);
    if expiresAt.None? {
      return Err(BusinessProcessError);
    }
    var where_ := TakeableWhere(ticketTypeId, holdId, conn.now);
    var picked := SelectForUpdate(conn.tickets, where_, quantity, conn.lockedRows);
    SelectionIsFull(conn.tickets, where_, quantity, conn.lockedRows, picked);
    conn.history := conn.history.(lost := conn.history.lost + SoldBy(conn.tickets, picked));
    conn.tickets := Update(conn.tickets, picked, ReserveRow(itemId, expiresAt.value, conn.now));
    if |picked| != quantity {
      return Err(ValidationError);
    }
    return Ok(picked);
  }

  method ReleaseTickets(conn: Connection, itemId: Id, quantity: u32) returns (r: Result<set<Id>>)
    modifies conn`tickets
    ensures r.Ok? <==>
      quantity <= |RowsWhere(old(conn.tickets), ReleasableWhere(Some(itemId), Reserved, None)) - conn.lockedRows|
    ensures RowsWhere(old(conn.tickets), ReleasableWhere(Some(itemId), Reserved, None)) ==
      (set i: Id | i < |old(conn.tickets)| && old(conn.tickets)[i].orderItemId == Some(itemId) && old(conn.tickets)[i].status == Reserved)
    ensures r.Ok? ==>
      && r.value <= RowsWhere(old(conn.tickets), ReleasableWhere(Some(itemId), Reserved, None)) - conn.lockedRows
      && |r.value| == quantity
      && Rewritten(old(conn.tickets), conn.tickets, r.value, ReleaseRow(conn.now))
      && (forall i :: i in r.value ==>
            conn.tickets[i] == old(conn.tickets)[i].(orderItemId := None, reservedUntil := None, transferKey := None,
                                                     transferExpiryDate := None, status := Available, updatedAt := conn.now))
  {
    var where_ := ReleasableWhere(Some(itemId), Reserved, None);
    var picked := SelectForUpdate(conn.tickets, where_, quantity, conn.lockedRows);
    SelectionIsFull(conn.tickets, where_, quantity, conn.lockedRows, picked);
    conn.tickets := Update(conn.tickets, picked, ReleaseRow(conn.now));
    if |picked| != quantity {
      return Err(ValidationError);
    }
    return Ok(picked);
  }

  /** `release`: gives one Purchased ticket back. `self` is the row as the caller read it. */
  method Release(conn: Connection, ticketId: Id, self: Ticket) returns (r: Result<()>)
    requires ticketId < |conn.tickets|
    modifies conn`tickets, conn`history
    ensures r.Ok? <==>
      && self.orderItemId.Some?
      && old(conn.tickets)[ticketId].orderItemId == self.orderItemId
      && old(conn.tickets)[ticketId].status == Purchased
      && ticketId !in conn.lockedRows
    ensures r.Ok? ==>
      && conn.tickets == old(conn.tickets)[ticketId := ReleaseRow(conn.now)(old(conn.tickets)[ticketId])]
      && conn.tickets[ticketId]
         == old(conn.tickets)[ticketId].(orderItemId := None, reservedUntil := None, transferKey := None, transferExpiryDate := None,
                                         status := Available, updatedAt := conn.now)
      && conn.history == old(conn.history).(lost := old(conn.history.lost) + {(self.orderItemId.value, ticketId)})
  {
    var where_ := ReleasableWhere(self.orderItemId, Purchased, Some(ticketId));
    var picked := SelectForUpdate(conn.tickets, where_, 1, conn.lockedRows);
    SelectionOfOneRow(conn.tickets, where_, ticketId, conn.lockedRows, picked);
    if |picked| != 1 {
      return Err(ValidationError);
    }
    conn.history := conn.history.(lost := conn.history.lost + {(self.orderItemId.value, ticketId)});
    conn.tickets := Update(conn.tickets, picked, ReleaseRow(conn.now));
    return Ok(());
  }

  lemma SelectionOfOneRow(tickets: seq<Ticket>, where_: Where, ticketId: Id, locked: set<Id>, picked: set<Id>)
    requires IsSelection(tickets, where_, 1, locked, picked)
    requires ticketId < |tickets|
    requires forall i, t :: where_(i, t) ==> i == ticketId
    ensures |picked| == 1 <==> where_(ticketId, tickets[ticketId]) && ticketId !in locked
    ensures |picked| == 1 ==> picked == {ticketId}
  {
    assert RowsWhere(tickets, where_) <= {ticketId};
    SubsetSize(picked, {ticketId});
    if where_(ticketId, tickets[ticketId]) && ticketId !in locked {
      assert ticketId in RowsWhere(tickets, where_) - locked;
    }
  }

  lemma LinkedAfterReserve(before: seq<Ticket>, after: seq<Ticket>, picked: set<Id>, itemId: Id, expiresAt: Time, now: Time)
    requires Rewritten(before, after, picked, ReserveRow(itemId, expiresAt, now))
    requires forall i :: i in picked ==> i < |before|
    ensures Linked(after, itemId) == Linked(before, itemId) + picked
    ensures forall k :: k != itemId ==> Linked(after, k) == Linked(before, k) - picked
  {
  }

  lemma LinkedAfterRelease(before: seq<Ticket>, after: seq<Ticket>, picked: set<Id>, now: Time)
    requires Rewritten(before, after, picked, ReleaseRow(now))
    ensures forall k :: Linked(after, k) == Linked(before, k) - picked
  {
  }

  // ------------------------------------------------------------ taking sold tickets back

  /** A ticket went back to the pool. */
  function Freed(t: Ticket, after: Ticket): (r: Ticket) {
    t.(orderItemId := None, reservedUntil := None, transferKey := None, transferExpiryDate := None,
       status := Available, walletId := after.walletId, updatedAt := after.updatedAt)
  }

  /** Tickets may have moved between wallets. */
  predicate Rehomed(t: Ticket, after: Ticket) {
    after == t.(walletId := after.walletId, updatedAt := after.updatedAt)
  }

  ghost predicate OnlyRehomed(before: seq<Ticket>, after: seq<Ticket>) {
    |after| == |before| && forall i: Id :: i < |after| ==> Rehomed(before[i], after[i])
  }

  /** The tickets that lost their link, each with the item it was linked to. */
  ghost function TakenBack(before: seq<Ticket>, after: seq<Ticket>): (losses: set<(Id, Id)>)
    requires |after| == |before|
  {
    set i: Id | i < |before| && before[i].orderItemId.Some? && after[i].orderItemId.None? :: (before[i].orderItemId.value, i)
  }

  /** Some Purchased tickets went back to the pool; exactly those are on record as lost to their items. */
  ghost predicate TakesBack(before: seq<Ticket>, after: seq<Ticket>, h: History, h': History) {
    && |after| == |before|
    && (forall i: Id {:trigger after[i]} {:trigger before[i]} :: i < |after| ==>
          || Rehomed(before[i], after[i])
          || (before[i].status == Purchased && before[i].orderItemId.Some? && after[i] == Freed(before[i], after[i])))
    && h' == h.(lost := h.lost + TakenBack(before, after))
  }

  lemma TakingBackTwice(a: seq<Ticket>, b: seq<Ticket>, c: seq<Ticket>, h: History, h1: History, h2: History)
    requires TakesBack(a, b, h, h1) && TakesBack(b, c, h1, h2)
    ensures TakesBack(a, c, h, h2)
  {
    forall i: Id | i < |c|
      ensures Rehomed(a[i], c[i]) || (a[i].status == Purchased && a[i].orderItemId.Some? && c[i] == Freed(a[i], c[i]))
      ensures a[i].orderItemId.Some? && c[i].orderItemId.None? ==>
        (a[i].orderItemId.value, i) in TakenBack(a, b) || (a[i].orderItemId.value, i) in TakenBack(b, c)
    {
      var _ := b[i];
    }
    assert TakenBack(a, c) == TakenBack(a, b) + TakenBack(b, c);
  }

  lemma RehomingTakesNothing(before: seq<Ticket>, after: seq<Ticket>, h: History)
    requires OnlyRehomed(before, after)
    ensures TakesBack(before, after, h, h)
  {
    assert TakenBack(before, after) == {};
  }

  // ------------------------------------------------------------ completing a sale

  method UpdateReservedTime(conn: Connection, itemId: Id, reservedTime: Time)
    modifies conn`tickets
    ensures Rewritten(old(conn.tickets), conn.tickets, Linked(old(conn.tickets), itemId), ExtendRow(reservedTime, conn.now))
    ensures forall i: Id :: i < |conn.tickets| && conn.tickets[i].orderItemId == Some(itemId) ==>
      conn.tickets[i] == old(conn.tickets)[i].(reservedUntil := Some(reservedTime), updatedAt := conn.now)
  {
    var where_: Where := (_, t: Ticket) => t.orderItemId == Some(itemId);
    var picked := SelectForUpdate(conn.tickets, where_, |conn.tickets| + 1, {});
    assert picked == Linked(conn.tickets, itemId) by { AllRowsFit(conn.tickets, where_, picked); }
    conn.tickets := Update(conn.tickets, picked, ExtendRow(reservedTime, conn.now));
  }

  function ExtendRow(reservedTime: Time, now: Time): Ticket -> Ticket {
    (t: Ticket) => t.(reservedUntil := Some(reservedTime), updatedAt := now)
  }

  function PurchaseRow(walletId: Id, now: Time): Ticket -> Ticket {
    (t: Ticket) => t.(walletId := walletId, status := Purchased, updatedAt := now)
  }

  function RowIds(n: nat): (ids: set<Id>)
    ensures forall i: Id :: i in ids <==> i < n
    ensures |ids| == n
  {
    if n == 0 then {} else RowIds(n - 1) + {n - 1}
  }

  /** An unlimited SELECT returns every row that qualifies. */
  lemma AllRowsFit(tickets: seq<Ticket>, where_: Where, picked: set<Id>)
    requires IsSelection(tickets, where_, |tickets| + 1, {}, picked)
    ensures picked == RowsWhere(tickets, where_)
  {
    SubsetSize(picked, RowIds(|tickets|));
  }

  /** `mark_as_purchased`: every linked row, whatever its status, goes to the user's first wallet. */
  method MarkAsPurchased(conn: Connection, itemId: Id, userId: Id) returns (r: Result<Id>)
    modifies conn`tickets
    ensures r.Ok? <==> exists w :: w in conn.wallets && conn.wallets[w] == Some(userId)
    ensures r.Ok? ==>
      && r.value in conn.wallets && conn.wallets[r.value] == Some(userId)
      && Rewritten(old(conn.tickets), conn.tickets, Linked(old(conn.tickets), itemId), PurchaseRow(r.value, conn.now))
      && (forall i: Id :: i < |conn.tickets| && conn.tickets[i].orderItemId == Some(itemId) ==>
            conn.tickets[i] == old(conn.tickets)[i].(walletId := r.value, status := Purchased, updatedAt := conn.now))
    ensures r.Err? ==> unchanged(conn)
  {
    if w :| w in conn.wallets && conn.wallets[w] == Some(userId) {
      var where_: Where := (_, t: Ticket) => t.orderItemId == Some(itemId);
      var picked := SelectForUpdate(conn.tickets, where_, |conn.tickets| + 1, {});
      assert picked == Linked(conn.tickets, itemId) by { AllRowsFit(conn.tickets, where_, picked); }
      conn.tickets := Update(conn.tickets, picked, PurchaseRow(w, conn.now));
      return Ok(w);
    }
    return Err(InternalError);
  }

  /** `redeem_ticket`, once the redeem key has been found to match. The row's `updated_at` is left alone. */
  method RedeemTicket(conn: Connection, ticketId: Id) returns (redeemed: bool)
    requires ticketId < |conn.tickets|
    modifies conn`tickets
    ensures redeemed <==> old(conn.tickets)[ticketId].status == Purchased
    ensures conn.tickets == old(conn.tickets)[ticketId :=
      if redeemed then old(conn.tickets)[ticketId].(status := Redeemed) else old(conn.tickets)[ticketId]]
  {
    redeemed := conn.tickets[ticketId].status == Purchased;
    if redeemed {
      conn.tickets := conn.tickets[ticketId := conn.tickets[ticketId].(status := Redeemed)];
    }
  }
}
