/**
  Passing tickets on (db/src/models/ticket_instances.rs:616-793). Authorizing and receiving each read rows first and write
  them later, and a write goes through only where the row's `updated_at` is still the one that was read. In between other
  transactions commit. Transactions start at different instants, which is what `updated_at` is set to.
 */
module Transfers {
  import opened Schema
  import opened TicketInstances

  /** A row as it was read. */
  datatype Read = Read(id: Id, row: Ticket)

  predicate StillAsRead(tickets: seq<Ticket>, read: Read) {
    read.id < |tickets| && tickets[read.id].updatedAt == read.row.updatedAt
  }

  ghost predicate DistinctReads(loaded: seq<Read>) {
    forall i, j :: 0 <= i < j < |loaded| ==> loaded[i].id != loaded[j].id
  }

  ghost function ReadIds(loaded: seq<Read>): (ids: set<Id>) {
    set read | read in loaded :: read.id
  }

  ghost predicate AreReads(loaded: seq<Read>, tickets: seq<Ticket>) {
    forall read :: read in loaded ==> read.id < |tickets| && tickets[read.id] == read.row
  }

  // ------------------------------------------------------------ authorizing

  predicate OwnedAndPurchased(tickets: seq<Ticket>, wallets: map<Id, Option<Id>>, userId: Id, i: Id) {
    && i < |tickets| && tickets[i].walletId in wallets && wallets[tickets[i].walletId] == Some(userId)
    && tickets[i].status == Purchased
  }

  predicate OwnsATicket(tickets: seq<Ticket>, wallets: map<Id, Option<Id>>, userId: Id) {
    exists i: Id :: i < |tickets| && tickets[i].walletId in wallets && wallets[tickets[i].walletId] == Some(userId)
  }

  /**
    The first half of `authorize_ticket_transfer`. Somebody who owns any ticket at all may ask for none. The wallet is
    that of the last ticket asked for.
   */
  method ConfirmOwnership(conn: Connection, userId: Id, ticketIds: seq<Id>) returns (r: Result<seq<Read>>, walletId: Id)
    ensures r.Ok? <==>
      && (forall i :: i in ticketIds ==>
            && i < |conn.tickets| && conn.tickets[i].status == Purchased
            && conn.tickets[i].walletId in conn.wallets && conn.wallets[conn.tickets[i].walletId] == Some(userId))
      && exists i: Id ::
           i < |conn.tickets| && conn.tickets[i].walletId in conn.wallets && conn.wallets[conn.tickets[i].walletId] == Some(userId)
    ensures r.Ok? ==>
      && |r.value| == |ticketIds|
      && (forall j :: 0 <= j < |ticketIds| ==> r.value[j].id == ticketIds[j])
      && AreReads(r.value, conn.tickets)
      && (ticketIds != [] ==> walletId == r.value[|ticketIds| - 1].row.walletId)
  {
    var loaded := [];
    walletId := 0;
    for j := 0 to |ticketIds|
      invariant |loaded| == j && AreReads(loaded, conn.tickets)
      invariant forall k :: 0 <= k < j ==> loaded[k].id == ticketIds[k]
      invariant forall k :: 0 <= k < j ==> OwnedAndPurchased(conn.tickets, conn.wallets, userId, ticketIds[k])
      invariant j > 0 ==> walletId == loaded[j - 1].row.walletId
    {
      var i := ticketIds[j];
      if !OwnedAndPurchased(conn.tickets, conn.wallets, userId, i) {
        return Err(BusinessProcessError), walletId;
      }
      loaded := loaded + [Read(i, conn.tickets[i])];
      walletId := conn.tickets[i].walletId;
    }
    if !OwnsATicket(conn.tickets, conn.wallets, userId) {
      return Err(BusinessProcessError), walletId;
    }
    return Ok(loaded), walletId;
  }

  function AuthorizeRow(key: Id, expiry: Time, now: Time): Ticket -> Ticket {
    (t: Ticket) => t.(transferKey := Some(key), transferExpiryDate := Some(expiry), updatedAt := now)
  }

  predicate CanAuthorize(tickets: seq<Ticket>, read: Read, walletId: Id) {
    StillAsRead(tickets, read) && tickets[read.id].walletId == walletId
  }

  /** The second half: every row that is still as it was read gets the key, and all of them must. */
  method WriteAuthorization(conn: Connection, loaded: seq<Read>, walletId: Id, key: Id, expiry: Time) returns (r: Result<()>)
    requires forall read :: read in loaded ==> read.row.updatedAt != conn.now
    modifies conn`tickets
    ensures r.Ok? <==>
      && DistinctReads(loaded)
      && forall read :: read in loaded ==>
           && read.id < |old(conn.tickets)| && old(conn.tickets)[read.id].updatedAt == read.row.updatedAt
           && old(conn.tickets)[read.id].walletId == walletId
    ensures r.Ok? ==> Rewritten(old(conn.tickets), conn.tickets, ReadIds(loaded), AuthorizeRow(key, expiry, conn.now))
    ensures r.Ok? ==> forall read :: read in loaded ==>
      conn.tickets[read.id]
      == old(conn.tickets)[read.id].(transferKey := Some(key), transferExpiryDate := Some(expiry), updatedAt := conn.now)
  {
    ghost var before := conn.tickets;
    var updateCount := 0;
    for j := 0 to |loaded|
      invariant 0 <= updateCount <= j
      invariant |conn.tickets| == |before|
      invariant forall i: Id :: i < |before| ==> conn.tickets[i] == before[i] || conn.tickets[i].updatedAt == conn.now
      invariant updateCount == j ==>
        && DistinctReads(loaded[..j])
        && (forall read :: read in loaded[..j] ==> CanAuthorize(before, read, walletId))
        && Rewritten(before, conn.tickets, ReadIds(loaded[..j]), AuthorizeRow(key, expiry, conn.now))
      invariant updateCount < j ==>
        !(DistinctReads(loaded[..j]) && forall read :: read in loaded[..j] ==> CanAuthorize(before, read, walletId))
    {
      var read := loaded[j];
      assert loaded[..j + 1] == loaded[..j] + [read];
      assert ReadIds(loaded[..j + 1]) == ReadIds(loaded[..j]) + {read.id};
      assert forall k :: 0 <= k < j ==> loaded[..j + 1][k] == loaded[..j][k];
      assert read in loaded;
      if updateCount == j && read.id in ReadIds(loaded[..j]) {
        var k :| 0 <= k < j && loaded[..j][k].id == read.id;
        assert !DistinctReads(loaded[..j + 1]) by {
          assert loaded[..j + 1][k].id == loaded[..j + 1][j].id;
        }
      }
      if CanAuthorize(conn.tickets, read, walletId) {
        conn.tickets := conn.tickets[read.id := AuthorizeRow(key, expiry, conn.now)(conn.tickets[read.id])];
        updateCount := updateCount + 1;
      }
    }
    assert loaded[..|loaded|] == loaded;
    if updateCount != |loaded| {
      return Err(UpdateError);
    }
    return Ok(());
  }

  // ------------------------------------------------------------ receiving

  datatype Authorization = Authorization(transferKey: Id, senderUserId: Id, numTickets: nat)

  ghost function Keyed(tickets: seq<Ticket>, key: Id): (rows: set<Id>) {
    set i: Id | i < |tickets| && tickets[i].transferKey == Some(key)
  }

  ghost function Claimable(tickets: seq<Ticket>, key: Id, now: Time): (rows: set<Id>) {
    set i: Id | i < |tickets| && tickets[i].transferKey == Some(key)
                && tickets[i].transferExpiryDate.Some? && now < tickets[i].transferExpiryDate.value
  }

  /** The rows that carry the key and have not expired. */
  method LoadClaimable(conn: Connection, key: Id) returns (found: seq<Read>)
    ensures DistinctReads(found) && AreReads(found, conn.tickets)
    ensures ReadIds(found) == Claimable(conn.tickets, key, conn.now) && |found| == |Claimable(conn.tickets, key, conn.now)|
  {
    found := [];
    ghost var rows: set<Id> := {};
    for i := 0 to |conn.tickets|
      invariant forall j: Id :: j in rows <==> j < i && j in Claimable(conn.tickets, key, conn.now)
      invariant ReadIds(found) == rows && DistinctReads(found) && AreReads(found, conn.tickets) && |found| == |rows|
    {
      var t := conn.tickets[i];
      if t.transferKey == Some(key) && t.transferExpiryDate.Some? && conn.now < t.transferExpiryDate.value {
        assert forall read :: read in found ==> read.id in rows;
        found := found + [Read(i, t)];
        rows := rows + {i};
      }
    }
    assert rows == Claimable(conn.tickets, key, conn.now);
  }

  /**
    The first half of `receive_ticket_transfer`, on an authorization whose signature is good: the rows that carry the
    key and have not expired must be as many as authorized, and all with the sender.
   */
  method FindTransfer(conn: Connection, auth: Authorization, senderWalletId: Id) returns (r: Result<seq<Read>>)
    ensures
      var rows := Claimable(conn.tickets, auth.transferKey, conn.now);
      && (r.Ok? <==> |rows| == auth.numTickets && forall i :: i in rows ==> conn.tickets[i].walletId == senderWalletId)
      && (r.Ok? ==> DistinctReads(r.value) && ReadIds(r.value) == rows && AreReads(r.value, conn.tickets) && |r.value| == auth.numTickets)
  {
    var found := LoadClaimable(conn, auth.transferKey);
    ghost var rows := Claimable(conn.tickets, auth.transferKey, conn.now);
    assert forall read :: read in found ==> read.id in rows;
    var ownAll := true;
    for j := 0 to |found|
      invariant ownAll ==> forall k :: 0 <= k < j ==> found[k].row.walletId == senderWalletId
      invariant !ownAll ==> exists i :: i in rows && conn.tickets[i].walletId != senderWalletId
    {
      assert found[j] in found;
      if found[j].row.walletId != senderWalletId {
        ownAll := false;
      }
    }
    if !ownAll || |found| != auth.numTickets {
      return Err(BusinessProcessError);
    }
    return Ok(found);
  }

  function ReceiveRow(walletId: Id, now: Time): Ticket -> Ticket {
    (t: Ticket) => t.(transferKey := None, transferExpiryDate := None, walletId := walletId, updatedAt := now)
  }

  /** The second half: every row that is still as it was read changes wallets, and all of them must. */
  method WriteReceipt(conn: Connection, auth: Authorization, loaded: seq<Read>, receiverWalletId: Id) returns (r: Result<()>)
    requires DistinctReads(loaded) && |loaded| == auth.numTickets
    modifies conn`tickets
    ensures r.Ok? <==> forall read :: read in loaded ==>
      read.id < |old(conn.tickets)| && old(conn.tickets)[read.id].updatedAt == read.row.updatedAt
    ensures r.Ok? ==> Rewritten(old(conn.tickets), conn.tickets, ReadIds(loaded), ReceiveRow(receiverWalletId, conn.now))
    ensures r.Ok? ==> forall read :: read in loaded ==>
      conn.tickets[read.id]
      == old(conn.tickets)[read.id].(transferKey := None, transferExpiryDate := None, walletId := receiverWalletId, updatedAt := conn.now)
  {
    ghost var before := conn.tickets;
    var updateCount := 0;
    for j := 0 to |loaded|
      invariant 0 <= updateCount <= j
      invariant |conn.tickets| == |before|
      invariant forall i: Id :: i < |before| && i !in ReadIds(loaded[..j]) ==> conn.tickets[i] == before[i]
      invariant updateCount == j ==>
        && (forall read :: read in loaded[..j] ==> StillAsRead(before, read))
        && Rewritten(before, conn.tickets, ReadIds(loaded[..j]), ReceiveRow(receiverWalletId, conn.now))
      invariant updateCount < j ==> exists read :: read in loaded[..j] && !StillAsRead(before, read)
    {
      var read := loaded[j];
      assert loaded[..j + 1] == loaded[..j] + [read];
      assert ReadIds(loaded[..j + 1]) == ReadIds(loaded[..j]) + {read.id};
      assert read.id !in ReadIds(loaded[..j]);
      if StillAsRead(conn.tickets, read) {
        conn.tickets := conn.tickets[read.id := ReceiveRow(receiverWalletId, conn.now)(conn.tickets[read.id])];
        updateCount := updateCount + 1;
      } else {
        assert read in loaded[..j + 1] && !StillAsRead(before, read);
      }
    }
    assert loaded[..|loaded|] == loaded;
    if updateCount != auth.numTickets {
      return Err(UpdateError);
    }
    return Ok(());
  }
}
