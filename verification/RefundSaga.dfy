/**
  Moving the tokens of refunded tickets back to the organization's wallet, and returning them
  when the payout fails afterwards (api/src/controllers/orders.rs).
 */
module RefundSaga {
  import opened Schema
  import opened TicketInstances

  type Token = (Id, int)

  /** A call to the chain: it is refused, or accepted and carried out. */
  datatype Call = Call(asset: Id, tokens: seq<int>, to: Id, accepted: bool)

  /** Who holds which token, by asset and token id. A transfer may be refused, and then nothing has moved. */
  class TokenLedger {
    var owner: map<Token, Id>
    // Every call there has been, oldest first.
    ghost var calls: seq<Call>

    constructor (owner: map<Token, Id>)
      ensures this.owner == owner && calls == []
    {
      this.owner, this.calls := owner, [];
    }

    method TransferTokens(asset: Id, tokens: seq<int>, to: Id) returns (r: Result<()>)
      modifies this
      ensures owner == if r.Ok? then old(owner) + Deposit(asset, tokens, to) else old(owner)
      ensures calls == old(calls) + [Call(asset, tokens, to, r.Ok?)]
    {
      if * {
        owner := owner + Deposit(asset, tokens, to);
        calls := calls + [Call(asset, tokens, to, true)];
        return Ok(());
      }
      calls := calls + [Call(asset, tokens, to, false)];
      return Err(InternalError);
    }
  }

  function Deposit(asset: Id, tokens: seq<int>, to: Id): (r: map<Token, Id>) {
    map token | token in tokens :: (asset, token) := to
  }

  /** The refunded tickets of a request, grouped by asset; `walletOf` keeps the wallet of the first of each. */
  datatype Transfers = Transfers(tokens: map<Id, seq<int>>, walletOf: map<Id, Id>, ticketsOf: map<Id, seq<Id>>)

  predicate Consistent(t: Transfers) {
    t.tokens.Keys == t.walletOf.Keys == t.ticketsOf.Keys
  }

  /** All tokens named for an asset are in the one wallet remembered for it. */
  ghost predicate OneWalletPerAsset(t: Transfers, owner: map<Token, Id>)
    requires Consistent(t)
  {
    forall a, token :: a in t.tokens && token in t.tokens[a] ==> (a, token) in owner && owner[(a, token)] == t.walletOf[a]
  }

  /** The tokens of the assets in `done`, and only those, are with `at[asset]`; everything else is as in `before`. */
  ghost predicate Relocated(before: map<Token, Id>, owner: map<Token, Id>, tokens: map<Id, seq<int>>, done: set<Id>, at: map<Id, Id>)
    requires done <= tokens.Keys && done <= at.Keys
  {
    && (forall a, token :: a in done && token in tokens[a] ==> (a, token) in owner && owner[(a, token)] == at[a])
    && (forall key: Token :: !(key.0 in done && key.1 in tokens[key.0]) ==>
          (key in owner <==> key in before) && (key in owner ==> owner[key] == before[key]))
  }

  lemma TransferRelocates(before: map<Token, Id>, owner: map<Token, Id>, tokens: map<Id, seq<int>>, done: set<Id>, at: map<Id, Id>, a: Id)
    requires done <= tokens.Keys && done <= at.Keys && a in tokens && a in at
    requires Relocated(before, owner, tokens, done, at)
    ensures Relocated(before, owner + Deposit(a, tokens[a], at[a]), tokens, done + {a}, at)
  {
  }

  function GroupTicket(t: Transfers, asset: Id, token: int, walletId: Id, ticketId: Id): (r: Transfers)
    requires Consistent(t)
    ensures Consistent(r)
  {
    Transfers(
      t.tokens[asset := (if asset in t.tokens then t.tokens[asset] else []) + [token]],
      t.walletOf[asset := if asset in t.walletOf then t.walletOf[asset] else walletId],
      t.ticketsOf[asset := (if asset in t.ticketsOf then t.ticketsOf[asset] else []) + [ticketId]])
  }

  predicate InRequest(record: RefundedTicket, ticketIds: set<Id>) {
    record.ticketInstanceId in ticketIds && record.ticketRefundedAt.Some?
  }

  /** The tickets of the request whose records say they have been refunded. */
  ghost function RefundedTickets(tickets: seq<Ticket>, records: seq<RefundedTicket>, ticketIds: set<Id>): (r: set<Id>) {
    set record | record in records && InRequest(record, ticketIds) && record.ticketInstanceId < |tickets|
      :: record.ticketInstanceId
  }

  /** Every refunded ticket sits in the wallet the ledger says, and those of one asset in one wallet. */
  ghost predicate WalletsAgree(tickets: seq<Ticket>, refunded: set<Id>, owner: map<Token, Id>) {
    && (forall i :: i in refunded && i < |tickets| ==>
          && (tickets[i].ticketTypeId, tickets[i].tokenId) in owner
          && owner[(tickets[i].ticketTypeId, tickets[i].tokenId)] == tickets[i].walletId)
    && (forall i, j | i in refunded && j in refunded && i < |tickets| && j < |tickets| ::
          tickets[i].ticketTypeId == tickets[j].ticketTypeId ==> tickets[i].walletId == tickets[j].walletId)
  }

  /** One of the tickets is of the asset, with the token. */
  ghost predicate SomeToken(tickets: seq<Ticket>, refunded: set<Id>, a: Id, token: int) {
    exists i :: i in refunded && i < |tickets| && tickets[i].ticketTypeId == a && tickets[i].tokenId == token
  }

  /** One of the tickets is of the asset, in the wallet. */
  ghost predicate SomeWallet(tickets: seq<Ticket>, refunded: set<Id>, a: Id, walletId: Id) {
    exists i :: i in refunded && i < |tickets| && tickets[i].ticketTypeId == a && tickets[i].walletId == walletId
  }

  /** The tickets listed for an asset are of that asset. */
  ghost predicate ListedByAsset(t: Transfers, tickets: seq<Ticket>) {
    forall a, i {:trigger i in t.ticketsOf[a]} ::
      a in t.ticketsOf && i in t.ticketsOf[a] ==> i < |tickets| && tickets[i].ticketTypeId == a
  }

  /** What is grouped comes from tickets in `refunded`. */
  ghost predicate GroupsOnly(t: Transfers, tickets: seq<Ticket>, refunded: set<Id>) {
    && Consistent(t)
    && (forall a, token :: a in t.tokens && token in t.tokens[a] ==> SomeToken(tickets, refunded, a, token))
    && (forall a :: a in t.walletOf ==> SomeWallet(tickets, refunded, a, t.walletOf[a]))
    && (forall a, i :: a in t.ticketsOf && i in t.ticketsOf[a] ==> i in refunded)
    && ListedByAsset(t, tickets)
  }

  /** Each ticket of `refunded` is grouped, under its asset and with its token. */
  ghost predicate GroupsAll(t: Transfers, tickets: seq<Ticket>, refunded: set<Id>) {
    && Consistent(t)
    && forall i :: i in refunded ==> i < |tickets| && IsGrouped(t, tickets[i], i)
  }

  predicate IsGrouped(t: Transfers, ticket: Ticket, i: Id)
    requires Consistent(t)
  {
    var a := ticket.ticketTypeId;
    a in t.tokens && ticket.tokenId in t.tokens[a] && i in t.ticketsOf[a]
  }

  lemma GroupingOneMore(t: Transfers, tickets: seq<Ticket>, refunded: set<Id>, i: Id)
    requires GroupsOnly(t, tickets, refunded) && GroupsAll(t, tickets, refunded) && i < |tickets|
    ensures
      var more := GroupTicket(t, tickets[i].ticketTypeId, tickets[i].tokenId, tickets[i].walletId, i);
      GroupsOnly(more, tickets, refunded + {i}) && GroupsAll(more, tickets, refunded + {i})
  {
    hide SomeToken, SomeWallet, IsGrouped, ListedByAsset;
    ListedOneMore(t, tickets, i);
    var a := tickets[i].ticketTypeId;
    var more := GroupTicket(t, a, tickets[i].tokenId, tickets[i].walletId, i);
    StillGrouped(t, tickets[i], i);
    forall j | j in refunded ensures IsGrouped(more, tickets[j], j) {
      GroupedStill(t, tickets[j], j, a, tickets[i].tokenId, tickets[i].walletId, i);
    }
    SomeOfTicket(tickets, refunded, i);
    forall b | b in more.walletOf ensures SomeWallet(tickets, refunded + {i}, b, more.walletOf[b]) {
      if b in t.walletOf {
        SomeOfMore(tickets, refunded, i, b, 0, t.walletOf[b]);
      }
    }
    forall b, token | b in more.tokens && token in more.tokens[b] ensures SomeToken(tickets, refunded + {i}, b, token) {
      if b in t.tokens && token in t.tokens[b] {
        SomeOfMore(tickets, refunded, i, b, token, 0);
      }
    }
  }

  lemma ListedOneMore(t: Transfers, tickets: seq<Ticket>, i: Id)
    requires Consistent(t) && ListedByAsset(t, tickets) && i < |tickets|
    ensures ListedByAsset(GroupTicket(t, tickets[i].ticketTypeId, tickets[i].tokenId, tickets[i].walletId, i), tickets)
  {
  }

  lemma StillGrouped(t: Transfers, ticket: Ticket, i: Id)
    requires Consistent(t)
    ensures IsGrouped(GroupTicket(t, ticket.ticketTypeId, ticket.tokenId, ticket.walletId, i), ticket, i)
  {
  }

  lemma GroupedStill(t: Transfers, ticket: Ticket, j: Id, a: Id, token: int, walletId: Id, i: Id)
    requires Consistent(t) && IsGrouped(t, ticket, j)
    ensures IsGrouped(GroupTicket(t, a, token, walletId, i), ticket, j)
  {
  }

  lemma SomeOfTicket(tickets: seq<Ticket>, refunded: set<Id>, i: Id)
    requires i < |tickets|
    ensures SomeToken(tickets, refunded + {i}, tickets[i].ticketTypeId, tickets[i].tokenId)
    ensures SomeWallet(tickets, refunded + {i}, tickets[i].ticketTypeId, tickets[i].walletId)
  {
    assert i in refunded + {i};
  }

  lemma SomeOfMore(tickets: seq<Ticket>, refunded: set<Id>, i: Id, a: Id, token: int, walletId: Id)
    ensures SomeToken(tickets, refunded, a, token) ==> SomeToken(tickets, refunded + {i}, a, token)
    ensures SomeWallet(tickets, refunded, a, walletId) ==> SomeWallet(tickets, refunded + {i}, a, walletId)
  {
    if SomeToken(tickets, refunded, a, token) {
      var j :| j in refunded && j < |tickets| && tickets[j].ticketTypeId == a && tickets[j].tokenId == token;
      assert j in refunded + {i};
    }
    if SomeWallet(tickets, refunded, a, walletId) {
      var j :| j in refunded && j < |tickets| && tickets[j].ticketTypeId == a && tickets[j].walletId == walletId;
      assert j in refunded + {i};
    }
  }

  /** Collects the tokens to move. The asset of a ticket is the one of its ticket type. */
  method CollectTransfers(conn: Connection, ticketIds: set<Id>) returns (r: Result<Transfers>)
    ensures
      var refunded := RefundedTickets(conn.tickets, conn.refundedTickets, ticketIds);
      r.Ok? ==> GroupsOnly(r.value, conn.tickets, refunded) && GroupsAll(r.value, conn.tickets, refunded)
    ensures r.Err? <==> exists record :: record in conn.refundedTickets && InRequest(record, ticketIds) && record.ticketInstanceId >= |conn.tickets|
  {
    var t := Transfers(map[], map[], map[]);
    ghost var refunded: set<Id> := {};
    for i := 0 to |conn.refundedTickets|
      invariant refunded == RefundedTickets(conn.tickets, conn.refundedTickets[..i], ticketIds)
      invariant forall record :: record in conn.refundedTickets[..i] && InRequest(record, ticketIds) ==> record.ticketInstanceId < |conn.tickets|
      invariant GroupsOnly(t, conn.tickets, refunded) && GroupsAll(t, conn.tickets, refunded)
    {
      var record := conn.refundedTickets[i];
      RefundedOneMore(conn.tickets, conn.refundedTickets, ticketIds, i);
      if InRequest(record, ticketIds) {
        if record.ticketInstanceId >= |conn.tickets| {
          return Err(QueryError);
        }
        var ticket := conn.tickets[record.ticketInstanceId];
        GroupingOneMore(t, conn.tickets, refunded, record.ticketInstanceId);
        t := GroupTicket(t, ticket.ticketTypeId, ticket.tokenId, ticket.walletId, record.ticketInstanceId);
        refunded := refunded + {record.ticketInstanceId};
      }
    }
    assert conn.refundedTickets[..|conn.refundedTickets|] == conn.refundedTickets;
    return Ok(t);
  }

  lemma RefundedOneMore(tickets: seq<Ticket>, records: seq<RefundedTicket>, ticketIds: set<Id>, i: nat)
    requires i < |records|
    ensures RefundedTickets(tickets, records[..i + 1], ticketIds) == RefundedTickets(tickets, records[..i], ticketIds)
      + (if InRequest(records[i], ticketIds) && records[i].ticketInstanceId < |tickets| then {records[i].ticketInstanceId} else {})
  {
    assert records[..i + 1] == records[..i] + [records[i]];
    var before, after := RefundedTickets(tickets, records[..i], ticketIds), RefundedTickets(tickets, records[..i + 1], ticketIds);
    forall x | x in before ensures x in after {
      var record :| record in records[..i] && InRequest(record, ticketIds) && record.ticketInstanceId == x && x < |tickets|;
      assert record in records[..i + 1];
    }
  }

  lemma AgreeingWalletsAreOnePerAsset(t: Transfers, tickets: seq<Ticket>, refunded: set<Id>, owner: map<Token, Id>)
    requires GroupsOnly(t, tickets, refunded) && WalletsAgree(tickets, refunded, owner)
    ensures OneWalletPerAsset(t, owner)
  {
    forall a, token | a in t.tokens && token in t.tokens[a]
      ensures (a, token) in owner && owner[(a, token)] == t.walletOf[a]
    {
      var i :| i in refunded && i < |tickets| && tickets[i].ticketTypeId == a && tickets[i].tokenId == token;
      var j :| j in refunded && j < |tickets| && tickets[j].ticketTypeId == a && tickets[j].walletId == t.walletOf[a];
    }
  }

  // ------------------------------------------------------------ there and back

  /** `set_wallet` on a list of tickets. */
  method SetWallets(conn: Connection, ticketIds: seq<Id>, walletId: Id)
    modifies conn`tickets
    ensures |conn.tickets| == |old(conn.tickets)|
    ensures forall i: Id :: i < |conn.tickets| ==>
      conn.tickets[i] == if i in ticketIds then old(conn.tickets)[i].(walletId := walletId, updatedAt := conn.now)
                         else old(conn.tickets)[i]
  {
    ghost var before := conn.tickets;
    for k := 0 to |ticketIds|
      invariant |conn.tickets| == |before|
      invariant forall i: Id :: i < |conn.tickets| ==>
        conn.tickets[i] == if i in ticketIds[..k] then before[i].(walletId := walletId, updatedAt := conn.now) else before[i]
    {
      var i := ticketIds[k];
      if i < |conn.tickets| {
        conn.tickets := conn.tickets[i := conn.tickets[i].(walletId := walletId, updatedAt := conn.now)];
      }
      assert ticketIds[..k + 1] == ticketIds[..k] + [i];
    }
    assert ticketIds[..|ticketIds|] == ticketIds;
  }

  /** Which call was made for which asset: at most one each, of all of its tokens to `at[asset]`; those in `accepted` went through. */
  ghost predicate AreCalls(calls: seq<Call>, tokens: map<Id, seq<int>>, at: map<Id, Id>, accepted: set<Id>) {
    && (forall i :: 0 <= i < |calls| ==>
          && calls[i].asset in tokens && calls[i].tokens == tokens[calls[i].asset]
          && calls[i].asset in at && calls[i].to == at[calls[i].asset]
          && (calls[i].accepted <==> calls[i].asset in accepted))
    && (forall i, j :: 0 <= i < j < |calls| ==> calls[i].asset != calls[j].asset)
    && (forall a :: a in accepted ==> exists i :: 0 <= i < |calls| && calls[i].asset == a)
  }

  ghost predicate AnyRefused(calls: seq<Call>) {
    exists i :: 0 <= i < |calls| && !calls[i].accepted
  }

  lemma OneMoreCall(calls: seq<Call>, tokens: map<Id, seq<int>>, at: map<Id, Id>, accepted: set<Id>, a: Id, went: bool)
    requires AreCalls(calls, tokens, at, accepted) && !AnyRefused(calls) && a in tokens && a in at && a !in accepted
    ensures
      var more := calls + [Call(a, tokens[a], at[a], went)];
      && AreCalls(more, tokens, at, if went then accepted + {a} else accepted)
      && (AnyRefused(more) <==> !went)
  {
    var more := calls + [Call(a, tokens[a], at[a], went)];
    forall b | b in accepted + {a} ensures exists i :: 0 <= i < |more| && more[i].asset == b {
      if b == a {
        assert more[|calls|].asset == a;
      } else {
        var i :| 0 <= i < |calls| && calls[i].asset == b;
        assert more[i].asset == b;
      }
    }
    if !went {
      assert !more[|calls|].accepted;
    }
    forall i | 0 <= i < |calls| ensures more[i] == calls[i] && calls[i].accepted {
    }
  }

  lemma NoCallsYet(tokens: map<Id, seq<int>>, at: map<Id, Id>)
    ensures AreCalls([], tokens, at, {}) && !AnyRefused([])
  {
  }

  /** The tickets of the assets in `done` have the wallet their tokens went to, and all others are as they were. */
  ghost predicate Rehoused(before: seq<Ticket>, after: seq<Ticket>, t: Transfers, done: set<Id>, at: map<Id, Id>, now: Time)
    requires Consistent(t) && done <= t.ticketsOf.Keys && done <= at.Keys
  {
    && |after| == |before|
    && forall i: Id {:trigger after[i]} {:trigger before[i]} :: i < |after| ==>
       after[i] == if before[i].ticketTypeId in done && i in t.ticketsOf[before[i].ticketTypeId]
                   then before[i].(walletId := at[before[i].ticketTypeId], updatedAt := now) else before[i]
  }

  /**
    Sends the tokens of every asset to its organization's wallet, asset by asset in no particular order.
    `modified` lists the assets that went through, also when a later one fails.
   */
  method TransferToOrganizations(conn: Connection, ledger: TokenLedger, t: Transfers, orgWallets: map<Id, Id>, onChain: set<Id>)
    returns (r: Result<()>, modified: set<Id>, ghost sent: seq<Call>)
    requires Consistent(t) && ListedByAsset(t, conn.tickets)
    modifies conn`tickets, ledger
    ensures modified <= t.tokens.Keys && modified <= orgWallets.Keys && modified <= onChain
    ensures Relocated(old(ledger.owner), ledger.owner, t.tokens, modified, orgWallets)
    ensures r.Ok? <==> modified == t.tokens.Keys
    ensures Rehoused(old(conn.tickets), conn.tickets, t, modified, orgWallets, conn.now)
    ensures ledger.calls == old(ledger.calls) + sent && AreCalls(sent, t.tokens, orgWallets, modified)
    ensures r.Err? ==> AnyRefused(sent) || !(t.tokens.Keys <= orgWallets.Keys) || !(t.tokens.Keys <= onChain)
  {
    hide AreCalls, AnyRefused;
    modified, sent := {}, [];
    var left := t.tokens.Keys;
    NoCallsYet(t.tokens, orgWallets);
    while left != {}
      invariant left <= t.tokens.Keys && modified == t.tokens.Keys - left
      invariant modified <= orgWallets.Keys && modified <= onChain
      invariant Relocated(old(ledger.owner), ledger.owner, t.tokens, modified, orgWallets)
      invariant Rehoused(old(conn.tickets), conn.tickets, t, modified, orgWallets, conn.now)
      invariant ledger.calls == old(ledger.calls) + sent && AreCalls(sent, t.tokens, orgWallets, modified) && !AnyRefused(sent)
      decreases left
    {
      var asset :| asset in left;
      if asset !in orgWallets {
        return Err(QueryError), modified, sent;
      }
      if asset !in onChain {
        return Err(InternalError), modified, sent;
      }
      ghost var owner := ledger.owner;
      var moved := ledger.TransferTokens(asset, t.tokens[asset], orgWallets[asset]);
      OneMoreCall(sent, t.tokens, orgWallets, modified, asset, moved.Ok?);
      sent := sent + [Call(asset, t.tokens[asset], orgWallets[asset], moved.Ok?)];
      if moved.Err? {
        return moved, modified, sent;
      }
      TransferRelocates(old(ledger.owner), owner, t.tokens, modified, orgWallets, asset);
      ghost var before := conn.tickets;
      SetWallets(conn, t.ticketsOf[asset], orgWallets[asset]);
      RehousedOneMore(old(conn.tickets), before, conn.tickets, t, modified, orgWallets, asset, conn.now);
      modified, left := modified + {asset}, left - {asset};
    }
    return Ok(()), modified, sent;
  }

  lemma RehousedOneMore(start: seq<Ticket>, before: seq<Ticket>, after: seq<Ticket>, t: Transfers, done: set<Id>, at: map<Id, Id>, a: Id,
                        now: Time)
    requires Consistent(t) && ListedByAsset(t, start) && done <= t.ticketsOf.Keys && done <= at.Keys
    requires a in t.ticketsOf && a in at && a !in done && Rehoused(start, before, t, done, at, now) && |after| == |before|
    requires forall i: Id :: i < |after| ==>
      after[i] == if i in t.ticketsOf[a] then before[i].(walletId := at[a], updatedAt := now) else before[i]
    ensures Rehoused(start, after, t, done + {a}, at, now)
  {
    forall i: Id | i < |after| ensures after[i] ==
      if start[i].ticketTypeId in done + {a} && i in t.ticketsOf[start[i].ticketTypeId]
      then start[i].(walletId := at[start[i].ticketTypeId], updatedAt := now) else start[i]
    {
      assert before[i] == if start[i].ticketTypeId in done && i in t.ticketsOf[start[i].ticketTypeId]
                          then start[i].(walletId := at[start[i].ticketTypeId], updatedAt := now) else start[i];
    }
  }

  lemma RehousingOnlyRehomes(before: seq<Ticket>, after: seq<Ticket>, t: Transfers, done: set<Id>, at: map<Id, Id>, now: Time)
    requires Consistent(t) && done <= t.ticketsOf.Keys && done <= at.Keys && Rehoused(before, after, t, done, at, now)
    ensures OnlyRehomed(before, after)
  {
  }

  /** Sends the tokens of the modified assets back. The first refused transfer ends it. */
  method Compensate(ledger: TokenLedger, t: Transfers, modified: set<Id>, onChain: set<Id>)
    returns (r: Result<()>, ghost back: set<Id>, ghost sent: seq<Call>)
    requires Consistent(t) && modified <= t.tokens.Keys
    modifies ledger
    ensures back <= modified && back <= onChain && Relocated(old(ledger.owner), ledger.owner, t.tokens, back, t.walletOf)
    ensures ledger.calls == old(ledger.calls) + sent && AreCalls(sent, t.tokens, t.walletOf, back)
    ensures forall i :: 0 <= i < |sent| ==> sent[i].asset in modified
    ensures r.Ok? <==> back == modified
    ensures r.Err? ==> AnyRefused(sent) || !(modified <= onChain)
  {
    hide AreCalls, AnyRefused;
    back, sent := {}, [];
    var left := modified;
    NoCallsYet(t.tokens, t.walletOf);
    while left != {}
      invariant left <= modified && back == modified - left && back <= onChain
      invariant Relocated(old(ledger.owner), ledger.owner, t.tokens, back, t.walletOf)
      invariant ledger.calls == old(ledger.calls) + sent && AreCalls(sent, t.tokens, t.walletOf, back) && !AnyRefused(sent)
      invariant forall i :: 0 <= i < |sent| ==> sent[i].asset in modified
      decreases left
    {
      var asset :| asset in left;
      if asset !in onChain {
        return Err(InternalError), back, sent;
      }
      ghost var owner := ledger.owner;
      var moved := ledger.TransferTokens(asset, t.tokens[asset], t.walletOf[asset]);
      OneMoreCall(sent, t.tokens, t.walletOf, back, asset, moved.Ok?);
      sent := sent + [Call(asset, t.tokens[asset], t.walletOf[asset], moved.Ok?)];
      if moved.Err? {
        return moved, back, sent;
      }
      TransferRelocates(old(ledger.owner), owner, t.tokens, back, t.walletOf, asset);
      back, left := back + {asset}, left - {asset};
    }
    return Ok(()), back, sent;
  }

  /** There and back again is nowhere, when each asset's tokens came from the one wallet they are returned to. */
  lemma CompensationRestores(t: Transfers, before: map<Token, Id>, between: map<Token, Id>, after: map<Token, Id>,
                             modified: set<Id>, orgWallets: map<Id, Id>)
    requires Consistent(t) && modified <= t.tokens.Keys && modified <= orgWallets.Keys
    requires Relocated(before, between, t.tokens, modified, orgWallets)
    requires Relocated(between, after, t.tokens, modified, t.walletOf)
    ensures after == before <==>
      forall a, token :: a in modified && token in t.tokens[a] ==> (a, token) in before && before[(a, token)] == t.walletOf[a]
  {
    if forall a, token :: a in modified && token in t.tokens[a] ==> (a, token) in before && before[(a, token)] == t.walletOf[a] {
      forall key: Token ensures key in after <==> key in before
        ensures key in after ==> after[key] == before[key]
      {
        var (a, token) := key;
        if a in modified && token in t.tokens[a] {
          assert (a, token) in after && after[(a, token)] == t.walletOf[a];
          assert (a, token) in before && before[(a, token)] == t.walletOf[a];
        } else {
          assert key in between <==> key in before;
        }
      }
      assert after.Keys == before.Keys;
    }
  }
}
