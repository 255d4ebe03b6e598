/**
  Issuing and nullifying tickets (api/src/controllers/ticket_types.rs:199-260, db/src/models/ticket_instances.rs:259-291,
  796-810, db/src/models/ticket_types.rs:227-270, nullify_tickets.sql). A ticket type has one asset, which shares its id.
 */
module Capacity {
  import opened Schema
  import opened Inventory
  import opened OrderItems
  import opened OrderRows
  import opened Sets
  import opened TicketInstances

  const BATCH_SIZE: nat := 1000

  // ------------------------------------------------------------ tokens

  ghost function Issued(tickets: seq<Ticket>, t: Id): (rows: set<Id>) {
    set i: Id | i < |tickets| && tickets[i].ticketTypeId == t
  }

  ghost function Valid(tickets: seq<Ticket>, t: Id): (rows: set<Id>) {
    set i: Id | i < |tickets| && tickets[i].ticketTypeId == t && tickets[i].status != Nullified
  }

  /** The rows of a type have different tokens, numbered below their count. */
  ghost predicate Numbered(tickets: seq<Ticket>, t: Id) {
    && (forall i :: i in Issued(tickets, t) ==> 0 <= tickets[i].tokenId < |Issued(tickets, t)|)
    && (forall i, j :: i in Issued(tickets, t) && j in Issued(tickets, t) && i != j ==> tickets[i].tokenId != tickets[j].tokenId)
  }

  ghost function Tokens(tickets: seq<Ticket>, rows: set<Id>): (tokens: set<int>)
    requires forall i :: i in rows ==> i < |tickets|
  {
    set i | i in rows :: tickets[i].tokenId
  }

  lemma {:induction false} DistinctTokens(tickets: seq<Ticket>, rows: set<Id>)
    requires forall i :: i in rows ==> i < |tickets|
    requires forall i, j :: i in rows && j in rows && i != j ==> tickets[i].tokenId != tickets[j].tokenId
    ensures |Tokens(tickets, rows)| == |rows|
    decreases |rows|
  {
    if i :| i in rows {
      DistinctTokens(tickets, rows - {i});
      assert Tokens(tickets, rows) == Tokens(tickets, rows - {i}) + {tickets[i].tokenId};
      assert tickets[i].tokenId !in Tokens(tickets, rows - {i});
    }
  }

  /** So the tokens of a type are exactly 0 up to the number of its rows. */
  lemma TokensAreContiguous(tickets: seq<Ticket>, t: Id, token: int)
    requires Numbered(tickets, t)
    ensures token in Tokens(tickets, Issued(tickets, t)) <==> 0 <= token < |Issued(tickets, t)|
  {
    var n := |Issued(tickets, t)|;
    DistinctTokens(tickets, Issued(tickets, t));
    SubsetSize<int>(Tokens(tickets, Issued(tickets, t)), RowIds(n));
  }

  // ------------------------------------------------------------ create_multiple

  /** Rust's `as i32` on an unsigned number. */
  function ToI32(x: int): (r: int)
    ensures -(U32_SIZE / 2) <= r < U32_SIZE / 2
    ensures (x - r) % U32_SIZE == 0
  {
    var low := x % U32_SIZE;
    if low < U32_SIZE / 2 then low else low - U32_SIZE
  }

  function NewTicket(assetId: Id, tokenId: int, walletId: Id, now: Time): (t: Ticket) {
    Ticket(assetId, tokenId, None, None, walletId, None, None, None, Available, now)
  }

  function NewTickets(assetId: Id, start: u32, quantity: nat, walletId: Id, now: Time): (rows: seq<Ticket>)
    ensures |rows| == quantity
    ensures forall x: Id :: x < quantity ==> rows[x] == NewTicket(assetId, ToI32(start + x), walletId, now)
  {
    seq(quantity, x => NewTicket(assetId, ToI32(start + x), walletId, now))
  }

  lemma NoTickets(assetId: Id, start: u32, walletId: Id, now: Time)
    ensures NewTickets(assetId, start, 0, walletId, now) == []
  {
  }

  lemma OneMoreTicket(assetId: Id, start: u32, quantity: nat, walletId: Id, now: Time)
    ensures NewTickets(assetId, start, quantity + 1, walletId, now)
         == NewTickets(assetId, start, quantity, walletId, now) + [NewTicket(assetId, ToI32(start + quantity), walletId, now)]
  {
  }

  ghost function Total(batches: seq<nat>): (n: nat) {
    if batches == [] then 0 else Total(batches[..|batches| - 1]) + batches[|batches| - 1]
  }

  lemma TotalOfOneMore(batches: seq<nat>, n: nat)
    ensures Total(batches + [n]) == Total(batches) + n
  {
    assert (batches + [n])[..|batches|] == batches;
  }

  /**
    `create_multiple`: rows are inserted in batches, the first of one row. `batches` reports their sizes: none is
    empty, and none exceeds a thousand rows.
   */
  method CreateMultiple(conn: Connection, assetId: Id, startingTariId: u32, quantity: u32, walletId: Id)
    returns (ghost batches: seq<nat>)
    modifies conn`tickets
    ensures conn.tickets == old(conn.tickets) + NewTickets(assetId, startingTariId, quantity, walletId, conn.now)
    ensures forall n :: n in batches ==> 0 < n <= 1000
    ensures Total(batches) == quantity
  {
    hide NewTickets, NewTicket, ToI32;
    var before := conn.tickets;
    NoTickets(assetId, startingTariId, walletId, conn.now);
    var newRows: seq<Ticket> := [];
    batches := [];
    for x := 0 to quantity
      invariant conn.tickets + newRows == before + NewTickets(assetId, startingTariId, x, walletId, conn.now)
      invariant |newRows| == if x == 0 then 0 else (x - 1) % BATCH_SIZE
      invariant forall n :: n in batches ==> 0 < n <= BATCH_SIZE
      invariant Total(batches) + |newRows| == x
    {
      OneMoreTicket(assetId, startingTariId, x, walletId, conn.now);
      var ticket := NewTicket(assetId, ToI32(startingTariId + x), walletId, conn.now);
      assert conn.tickets + (newRows + [ticket]) == (conn.tickets + newRows) + [ticket];
      newRows := newRows + [ticket];
      if x % BATCH_SIZE == 0 {
        conn.tickets := conn.tickets + newRows;
        TotalOfOneMore(batches, |newRows|);
        batches := batches + [|newRows|];
        newRows := [];
      }
    }
    if newRows != [] {
      conn.tickets := conn.tickets + newRows;
      TotalOfOneMore(batches, |newRows|);
      batches := batches + [|newRows|];
    }
  }

  /** New rows of one type. */
  ghost predicate AreNew(rows: seq<Ticket>, assetId: Id) {
    forall i: Id :: i < |rows| ==>
      rows[i].ticketTypeId == assetId && rows[i].status == Available && rows[i].orderItemId.None? && rows[i].holdId.None?
  }

  lemma NewTicketsAreNew(assetId: Id, start: u32, quantity: nat, walletId: Id, now: Time)
    ensures AreNew(NewTickets(assetId, start, quantity, walletId, now), assetId)
  {
  }

  lemma IssuedAfterAppending(before: seq<Ticket>, rows: seq<Ticket>, assetId: Id, t: Id)
    requires AreNew(rows, assetId)
    ensures Issued(before + rows, t) == Issued(before, t) + (if t == assetId then RowRange(|before|, |rows|) else {})
    ensures |Issued(before + rows, t)| == |Issued(before, t)| + (if t == assetId then |rows| else 0)
  {
    var after, added := before + rows, if t == assetId then RowRange(|before|, |rows|) else {};
    assert forall i: Id :: |before| <= i < |after| ==> after[i] == rows[i - |before|];
    assert Issued(after, t) == Issued(before, t) + added;
    DisjointUnionSize(Issued(before, t), added);
  }

  lemma ValidAfterAppending(before: seq<Ticket>, rows: seq<Ticket>, assetId: Id, t: Id)
    requires AreNew(rows, assetId)
    ensures |Valid(before + rows, t)| == |Valid(before, t)| + (if t == assetId then |rows| else 0)
  {
    var after, added := before + rows, if t == assetId then RowRange(|before|, |rows|) else {};
    assert forall i: Id :: |before| <= i < |after| ==> after[i] == rows[i - |before|];
    assert Valid(after, t) == Valid(before, t) + added;
    DisjointUnionSize(Valid(before, t), added);
  }

  function RowRange(start: nat, n: nat): (rows: set<Id>)
    ensures forall i: Id :: i in rows <==> start <= i < start + n
    ensures |rows| == n
  {
    if n == 0 then {} else RowRange(start, n - 1) + {start + n - 1}
  }

  /** `rows` are numbered upwards from `start`. */
  ghost predicate CountsFrom(rows: seq<Ticket>, start: int) {
    forall i: Id :: i < |rows| ==> rows[i].tokenId == start + i
  }

  lemma NewTicketsCount(assetId: Id, start: u32, quantity: nat, walletId: Id, now: Time)
    requires start + quantity <= U32_SIZE / 2
    ensures CountsFrom(NewTickets(assetId, start, quantity, walletId, now), start)
  {
    var rows := NewTickets(assetId, start, quantity, walletId, now);
    forall i: Id | i < |rows| ensures rows[i].tokenId == start + i {
      assert rows[i] == NewTicket(assetId, ToI32(start + i), walletId, now);
    }
  }

  lemma TokenAfterAppending(before: seq<Ticket>, rows: seq<Ticket>, assetId: Id, t: Id, i: Id)
    requires AreNew(rows, assetId) && CountsFrom(rows, |Issued(before, assetId)|) && i in Issued(before + rows, t)
    ensures i < |before| + |rows|
    ensures i < |before| ==> i in Issued(before, t) && (before + rows)[i].tokenId == before[i].tokenId
    ensures i >= |before| ==> t == assetId && (before + rows)[i].tokenId == |Issued(before, t)| + (i - |before|)
  {
    if i >= |before| {
      assert (before + rows)[i] == rows[i - |before|];
    }
  }

  lemma AppendedTokensDiffer(before: seq<Ticket>, rows: seq<Ticket>, assetId: Id, t: Id, i: Id, j: Id)
    requires Numbered(before, t) && AreNew(rows, assetId) && CountsFrom(rows, |Issued(before, assetId)|)
    requires i in Issued(before + rows, t) && j in Issued(before + rows, t) && i < j
    ensures i < |before + rows| && j < |before + rows|
    ensures (before + rows)[i].tokenId != (before + rows)[j].tokenId
  {
    TokenAfterAppending(before, rows, assetId, t, i);
    TokenAfterAppending(before, rows, assetId, t, j);
    hide AreNew, CountsFrom, Issued;
  }

  /** Numbering on from the count keeps the numbering. */
  lemma AppendingKeepsNumbered(before: seq<Ticket>, rows: seq<Ticket>, assetId: Id, t: Id)
    requires Numbered(before, t) && AreNew(rows, assetId) && CountsFrom(rows, |Issued(before, assetId)|)
    ensures Numbered(before + rows, t)
  {
    var after := before + rows;
    IssuedAfterAppending(before, rows, assetId, t);
    forall i | i in Issued(after, t) ensures 0 <= after[i].tokenId < |Issued(after, t)| {
      TokenAfterAppending(before, rows, assetId, t, i);
    }
    forall i, j | i in Issued(after, t) && j in Issued(after, t) && i != j ensures after[i].tokenId != after[j].tokenId {
      AppendedTokensDiffer(before, rows, assetId, t, if i < j then i else j, if i < j then j else i);
    }
    hide AreNew, CountsFrom, Issued;
  }

  // ------------------------------------------------------------ nullify_tickets

  function NullifiableWhere(assetId: Id): Where {
    (_, t: Ticket) => t.ticketTypeId == assetId && t.status == Available && t.holdId.None?
  }

  /** The row's `updated_at` is left alone. */
  function NullifyRow(): Ticket -> Ticket {
    (t: Ticket) => t.(status := Nullified)
  }

  method NullifyTickets(conn: Connection, assetId: Id, quantity: u32) returns (picked: set<Id>)
    modifies conn`tickets
    ensures IsSelection(old(conn.tickets), NullifiableWhere(assetId), quantity, conn.lockedRows, picked)
    ensures RowsWhere(old(conn.tickets), NullifiableWhere(assetId)) ==
      (set i: Id | i < |old(conn.tickets)| && old(conn.tickets)[i].ticketTypeId == assetId && old(conn.tickets)[i].status == Available
                   && old(conn.tickets)[i].holdId == None)
    ensures Rewritten(old(conn.tickets), conn.tickets, picked, NullifyRow())
    ensures forall i :: i in picked ==> conn.tickets[i] == old(conn.tickets)[i].(status := Nullified)
  {
    picked := SelectForUpdate(conn.tickets, NullifiableWhere(assetId), quantity, conn.lockedRows);
    conn.tickets := Update(conn.tickets, picked, NullifyRow());
  }

  lemma IssuedAfterNullifying(before: seq<Ticket>, after: seq<Ticket>, picked: set<Id>, t: Id)
    requires Rewritten(before, after, picked, NullifyRow())
    ensures Issued(after, t) == Issued(before, t)
    ensures Numbered(before, t) ==> Numbered(after, t)
  {
    assert Issued(after, t) == Issued(before, t);
    assert forall i :: i in Issued(after, t) ==> after[i].tokenId == before[i].tokenId;
  }

  lemma ValidAfterNullifying(before: seq<Ticket>, after: seq<Ticket>, picked: set<Id>, assetId: Id, t: Id)
    requires picked <= RowsWhere(before, NullifiableWhere(assetId)) && Rewritten(before, after, picked, NullifyRow())
    ensures |Valid(after, t)| == |Valid(before, t)| - (if t == assetId then |picked| else 0)
  {
    var gone := if t == assetId then picked else {};
    assert Valid(after, t) == Valid(before, t) - gone;
    SubsetSize(gone, Valid(before, t));
  }

  // ------------------------------------------------------------ the controller

  /** The assets on the chain. A call may fail, and then nothing has changed there. */
  class AssetRegistry {
    var supply: map<Id, int>
    var nullified: set<(Id, int)>
    // How many calls have failed.
    ghost var refused: nat

    constructor (supply: map<Id, int>)
      ensures this.supply == supply && nullified == {} && refused == 0
    {
      this.supply, this.nullified, this.refused := supply, {}, 0;
    }

    method IncreaseSupply(asset: Id, total: int) returns (r: Result<()>)
      modifies this
      ensures nullified == old(nullified)
      ensures supply == if r.Ok? then old(supply)[asset := total] else old(supply)
      ensures refused == old(refused) + (if r.Ok? then 0 else 1)
    {
      if * {
        supply := supply[asset := total];
        return Ok(());
      }
      refused := refused + 1;
      return Err(InternalError);
    }

    method NullifyTokens(asset: Id, tokens: set<int>) returns (r: Result<()>)
      modifies this
      ensures supply == old(supply)
      ensures nullified == if r.Ok? then old(nullified) + TokensOf(asset, tokens) else old(nullified)
      ensures refused == old(refused) + (if r.Ok? then 0 else 1)
    {
      if * {
        nullified := nullified + TokensOf(asset, tokens);
        return Ok(());
      }
      refused := refused + 1;
      return Err(InternalError);
    }
  }

  function TokensOf(asset: Id, tokens: set<int>): (r: set<(Id, int)>) {
    set token | token in tokens :: (asset, token)
  }

  /** `count(*)` over the rows of a type, as a u32; with `validOnly`, over those not nullified. */
  method CountTickets(conn: Connection, t: Id, validOnly: bool) returns (count: u32)
    ensures count == ToU32(if validOnly then |Valid(conn.tickets, t)| else |Issued(conn.tickets, t)|)
  {
    var rows: set<Id> := {};
    for i := 0 to |conn.tickets|
      invariant forall j: Id :: j in rows <==>
        j < i && conn.tickets[j].ticketTypeId == t && (validOnly ==> conn.tickets[j].status != Nullified)
    {
      if conn.tickets[i].ticketTypeId == t && (!validOnly || conn.tickets[i].status != Nullified) {
        rows := rows + {i};
      }
    }
    assert rows == if validOnly then Valid(conn.tickets, t) else Issued(conn.tickets, t);
    return ToU32(|rows|);
  }

  /** What a capacity update did to the rows: issue `rows`, or nullify `picked`. */
  datatype CapacityStep = Issue(rows: seq<Ticket>) | Nullify(picked: set<Id>)

  ghost predicate Stepped(before: seq<Ticket>, after: seq<Ticket>, t: Id, step: CapacityStep) {
    match step
    case Issue(rows) => AreNew(rows, t) && after == before + rows
    case Nullify(picked) => picked <= RowsWhere(before, NullifiableWhere(t)) && Rewritten(before, after, picked, NullifyRow())
  }

  lemma StepCounts(before: seq<Ticket>, after: seq<Ticket>, t: Id, step: CapacityStep, other: Id)
    requires Stepped(before, after, t, step)
    ensures |Valid(after, other)| == |Valid(before, other)| +
      (if other != t then 0 else match step case Issue(rows) => |rows| case Nullify(picked) => -|picked|)
    ensures |Issued(after, other)| == |Issued(before, other)| + (if other == t && step.Issue? then |step.rows| else 0)
  {
    match step
    case Issue(rows) =>
      ValidAfterAppending(before, rows, t, other);
      IssuedAfterAppending(before, rows, t, other);
    case Nullify(picked) =>
      ValidAfterNullifying(before, after, picked, t, other);
      IssuedAfterNullifying(before, after, picked, other);
  }

  lemma StepKeepsNumbered(before: seq<Ticket>, after: seq<Ticket>, t: Id, step: CapacityStep, other: Id)
    requires Stepped(before, after, t, step) && Numbered(before, other)
    requires step.Issue? ==> CountsFrom(step.rows, |Issued(before, t)|)
    ensures Numbered(after, other)
  {
    match step
    case Issue(rows) => AppendingKeepsNumbered(before, rows, t, other);
    case Nullify(picked) => IssuedAfterNullifying(before, after, picked, other);
  }

  /** Token ids fit their column. */
  ghost predicate TokensFit(tickets: seq<Ticket>, t: Id, more: int) {
    |Issued(tickets, t)| + more <= U32_SIZE / 2
  }

  /** More tickets, here and then on the chain, where the supply is set to the number of valid tickets. */
  method IncreaseCapacity(conn: Connection, chain: AssetRegistry, t: Id, requested: u32, valid: u32, walletId: Id, onChain: set<Id>)
    returns (r: Result<()>, ghost step: CapacityStep)
    requires valid < requested
    modifies conn`tickets, chain
    ensures chain.nullified == old(chain.nullified)
    ensures r.Ok? <==> t in onChain && chain.refused == old(chain.refused)
    ensures chain.refused == old(chain.refused) + (if r.Err? && t in onChain then 1 else 0)
    ensures r.Ok? ==>
      && chain.supply == old(chain.supply)[t := requested]
      && step.Issue? && |step.rows| == requested - valid
      && Stepped(old(conn.tickets), conn.tickets, t, step)
      && (TokensFit(old(conn.tickets), t, requested - valid) ==> CountsFrom(step.rows, |Issued(old(conn.tickets), t)|))
    ensures r.Err? ==> chain.supply == old(chain.supply)
  {
    ghost var before := conn.tickets;
    var startingTariId := CountTickets(conn, t, false);
    var additional := requested - valid;
    var _ := CreateMultiple(conn, t, startingTariId, additional, walletId);
    step := Issue(NewTickets(t, startingTariId, additional, walletId, conn.now));
    NewTicketsAreNew(t, startingTariId, additional, walletId, conn.now);
    if TokensFit(before, t, additional) {
      NewTicketsCount(t, startingTariId, additional, walletId, conn.now);
    }
    if t !in onChain {
      return Err(InternalError), step;
    }
    r := chain.IncreaseSupply(t, requested);
  }

  /** Fewer tickets: only Available ones in the main pool can go. */
  method DecreaseCapacity(conn: Connection, chain: AssetRegistry, t: Id, requested: u32, valid: u32, onChain: set<Id>)
    returns (r: Result<()>, ghost step: CapacityStep)
    requires requested < valid
    modifies conn`tickets, chain
    ensures chain.supply == old(chain.supply)
    ensures r.Ok? <==>
      && t in onChain && chain.refused == old(chain.refused)
      && valid - requested <= |RowsWhere(old(conn.tickets), NullifiableWhere(t)) - conn.lockedRows|
    ensures r.Ok? ==>
      && step.Nullify? && |step.picked| == valid - requested
      && Stepped(old(conn.tickets), conn.tickets, t, step)
      && chain.nullified == old(chain.nullified) + TokensOf(t, Tokens(old(conn.tickets), step.picked))
    ensures r.Err? ==> chain.nullified == old(chain.nullified)
  {
    ghost var before := conn.tickets;
    var picked := NullifyTickets(conn, t, valid - requested);
    step := Nullify(picked);
    SelectionIsFull(before, NullifiableWhere(t), valid - requested, conn.lockedRows, picked);
    if |picked| != valid - requested {
      return Err(InternalError), step;
    }
    if t !in onChain {
      return Err(InternalError), step;
    }
    assert Tokens(conn.tickets, picked) == Tokens(before, picked);
    r := chain.NullifyTokens(t, set i | i in picked :: conn.tickets[i].tokenId);
  }

  /**
    An update has what it needs: nothing if the number is right already, or else an asset on the chain, and to go
    down, as many unlocked tickets as have to go that are Available in the main pool.
   */
  ghost predicate CanUpdate(tickets: seq<Ticket>, lockedRows: set<Id>, t: Id, requested: u32, onChain: set<Id>) {
    var valid := ToU32(|Valid(tickets, t)|);
    || requested == valid
    || (t in onChain && (requested < valid ==> valid - requested <= |RowsWhere(tickets, NullifiableWhere(t)) - lockedRows|))
  }

  /**
    The capacity part of `update`: it goes through when it can be done and the chain does not refuse, and then exactly the
    requested number of valid tickets exists, whatever their number was, the other types are as before, and tokens stay
    numbered.
   */
  method UpdateCapacity(conn: Connection, chain: AssetRegistry, t: Id, requested: u32, walletId: Id, onChain: set<Id>)
    returns (r: Result<()>, ghost step: CapacityStep)
    modifies conn`tickets, chain
    ensures r.Ok? <==>
      CanUpdate(old(conn.tickets), conn.lockedRows, t, requested, onChain) && chain.refused == old(chain.refused)
    ensures r.Ok? && requested == ToU32(|Valid(old(conn.tickets), t)|) ==> conn.tickets == old(conn.tickets)
    ensures r.Ok? ==> Stepped(old(conn.tickets), conn.tickets, t, step)
    ensures r.Ok? && |Valid(old(conn.tickets), t)| < U32_SIZE ==> |Valid(conn.tickets, t)| == requested
    ensures r.Ok? && TokensFit(old(conn.tickets), t, requested) ==>
      forall other :: Numbered(old(conn.tickets), other) ==> Numbered(conn.tickets, other)
    ensures r.Ok? && requested > ToU32(|Valid(old(conn.tickets), t)|) ==> chain.supply == old(chain.supply)[t := requested]
    ensures r.Ok? && requested <= ToU32(|Valid(old(conn.tickets), t)|) ==> chain.supply == old(chain.supply)
    ensures r.Ok? && requested < ToU32(|Valid(old(conn.tickets), t)|) ==>
      step.Nullify? && chain.nullified == old(chain.nullified) + TokensOf(t, Tokens(old(conn.tickets), step.picked))
    ensures r.Ok? && requested >= ToU32(|Valid(old(conn.tickets), t)|) ==> chain.nullified == old(chain.nullified)
  {
    ghost var before := conn.tickets;
    NoStep(before, t);
    hide Stepped, Issued, Valid, Numbered, RowsWhere, Tokens, TokensOf;
    var valid := CountTickets(conn, t, true);
    if valid < requested {
      r, step := IncreaseCapacity(conn, chain, t, requested, valid, walletId, onChain);
    } else if valid > requested {
      r, step := DecreaseCapacity(conn, chain, t, requested, valid, onChain);
    } else {
      r, step := Ok(()), Nullify({});
    }
    if r.Ok? {
      StepCounts(before, conn.tickets, t, step, t);
      if TokensFit(before, t, requested) {
        forall other | Numbered(before, other) ensures Numbered(conn.tickets, other) {
          StepKeepsNumbered(before, conn.tickets, t, step, other);
        }
      }
    }
  }

  lemma NoStep(tickets: seq<Ticket>, t: Id)
    ensures Stepped(tickets, tickets, t, Nullify({}))
  {
  }

  /**
    The supply set on the chain counts valid tickets, but tokens are numbered by all tickets ever issued: after an
    increase the supply covers every token exactly when nothing had been nullified before.
   */
  lemma SupplyCoversTokensIffNothingWasNullified(before: seq<Ticket>, after: seq<Ticket>, t: Id, rows: seq<Ticket>, requested: int)
    requires Stepped(before, after, t, Issue(rows)) && |rows| == requested - |Valid(before, t)|
    ensures |Issued(after, t)| <= requested <==> Issued(before, t) == Valid(before, t)
  {
    StepCounts(before, after, t, Issue(rows), t);
    SubsetSize(Valid(before, t), Issued(before, t));
  }

  /** A nullified ticket in the pool can be reserved like any other, and then counts as valid again. */
  lemma ReservingRevivesNullifiedTickets(before: seq<Ticket>, after: seq<Ticket>, picked: set<Id>, k: Id, expiresAt: Time, t: Id,
                                         holdId: Option<Id>, now: Time)
    requires picked <= RowsWhere(before, TakeableWhere(t, holdId, now))
    requires Rewritten(before, after, picked, ReserveRow(k, expiresAt, now))
    ensures |Valid(after, t)| == |Valid(before, t)| + |set i | i in picked && before[i].status == Nullified|
  {
    var revived := set i | i in picked && before[i].status == Nullified;
    assert Valid(after, t) == Valid(before, t) + revived;
    DisjointUnionSize(Valid(before, t), revived);
  }

  // ------------------------------------------------------------ capacity and carts

  lemma CapacityKeepsItem(w: World, after: World, t: Id, step: CapacityStep, k: Id)
    requires Frame(w) && after == w.(tickets := after.tickets) && Stepped(w.tickets, after.tickets, t, step)
    requires k in w.items && w.items[k].itemType == Tickets && ItemOk(w, k)
    ensures ItemOk(after, k)
    ensures IsLiveItem(w, k) ==> KeepsItem(w, after, k) && IsLiveItem(after, k)
  {
    FrameKeys(w, k);
    if step.Issue? {
      assert forall i: Id :: |w.tickets| <= i < |after.tickets| ==> after.tickets[i] == step.rows[i - |w.tickets|];
    }
    assert Linked(after.tickets, k) == Linked(w.tickets, k);
    assert forall i :: i in Linked(w.tickets, k) ==> after.tickets[i] == w.tickets[i];
    hide Frame, Stepped;
  }

  /** New tickets are nobody's, and only tickets that are nobody's are nullified. */
  lemma CapacityStepIsSafe(w: World, after: World, t: Id, step: CapacityStep)
    requires Inv(w) && after == w.(tickets := after.tickets) && Stepped(w.tickets, after.tickets, t, step)
    ensures Inv(after)
    ensures forall k :: IsLiveItem(w, k) ==> KeepsItem(w, after, k) && IsLiveItem(after, k)
  {
    assert Frame(after) by {
      hide ItemOk, Structured, OneFeeEach;
      if step.Issue? {
        assert forall i: Id :: |w.tickets| <= i < |after.tickets| ==> after.tickets[i] == step.rows[i - |w.tickets|];
      }
    }
    forall k | k in w.items && w.items[k].itemType == Tickets
      ensures ItemOk(after, k)
      ensures IsLiveItem(w, k) ==> KeepsItem(w, after, k) && IsLiveItem(after, k)
    {
      CapacityKeepsItem(w, after, t, step, k);
    }
    hide Frame, ItemOk, KeepsItem, Stepped;
  }
}
