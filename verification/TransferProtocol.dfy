/**
  Authorizing and receiving tickets while other transactions commit in between (db/src/models/ticket_instances.rs:616-793).
  A transaction reads when it begins. The rows it writes are locked from then until it commits, so that checking them and
  writing them at the moment of commit comes to the same as doing so one row after the other.
 */
module TransferProtocol {
  import opened Schema
  import opened Sets
  import opened TicketInstances
  import opened Transfers

  /** A transaction that has read and not yet committed. */
  datatype Pending =
    | Authorizing(auth: Authorization, expiry: Time, walletId: Id, loaded: seq<Read>)
    | Receiving(auth: Authorization, senderWalletId: Id, receiverWalletId: Id, loaded: seq<Read>)

  /**
    The table, the open transactions by the instant they started, all such instants and all keys there have been, the
    authorizations given out, and the keys of those received, in order.
   */
  datatype State = State(
    tickets: seq<Ticket>,
    pending: map<Time, Pending>,
    stamps: set<Time>,
    keys: set<Id>,
    issued: map<Id, Authorization>,
    receipts: seq<Id>)

  datatype Label =
    | BeginAuthorize(now: Time, auth: Authorization, expiry: Time, walletId: Id, loaded: seq<Read>)
    | CommitAuthorize(now: Time)
    | BeginReceive(now: Time, auth: Authorization, senderWalletId: Id, receiverWalletId: Id, loaded: seq<Read>)
    | CommitReceive(now: Time)
    | Abort(now: Time)
    | Write(now: Time)
    | ChangeStatus(ticketId: Id, status: TicketStatus)

  // ------------------------------------------------------------ steps

  ghost predicate BeginsAuthorize(s: State, l: Label, s': State)
    requires l.BeginAuthorize?
  {
    && l.now !in s.stamps && l.auth.transferKey !in s.keys
    && l.auth.numTickets == |l.loaded|
    && AreReads(l.loaded, s.tickets) && (forall read :: read in l.loaded ==> read.row.status == Purchased)
    && s' == s.(pending := s.pending[l.now := Authorizing(l.auth, l.expiry, l.walletId, l.loaded)],
                stamps := s.stamps + {l.now}, keys := s.keys + {l.auth.transferKey})
  }

  /** As `WriteAuthorization` has it. */
  ghost predicate CommitsAuthorize(s: State, l: Label, s': State)
    requires l.CommitAuthorize?
  {
    && l.now in s.pending && s.pending[l.now].Authorizing?
    && var p := s.pending[l.now];
    && DistinctReads(p.loaded) && (forall read :: read in p.loaded ==> CanAuthorize(s.tickets, read, p.walletId))
    && Rewritten(s.tickets, s'.tickets, ReadIds(p.loaded), AuthorizeRow(p.auth.transferKey, p.expiry, l.now))
    && s' == s.(tickets := s'.tickets, pending := s.pending - {l.now}, issued := s.issued[p.auth.transferKey := p.auth])
  }

  /** As `FindTransfer` has it; only authorizations that were given out are signed. */
  ghost predicate BeginsReceive(s: State, l: Label, s': State)
    requires l.BeginReceive?
  {
    && l.now !in s.stamps
    && l.auth.transferKey in s.issued && s.issued[l.auth.transferKey] == l.auth
    && AreReads(l.loaded, s.tickets) && DistinctReads(l.loaded) && |l.loaded| == l.auth.numTickets
    && ReadIds(l.loaded) == Claimable(s.tickets, l.auth.transferKey, l.now)
    && (forall read :: read in l.loaded ==> read.row.walletId == l.senderWalletId)
    && s' == s.(pending := s.pending[l.now := Receiving(l.auth, l.senderWalletId, l.receiverWalletId, l.loaded)],
                stamps := s.stamps + {l.now})
  }

  /** As `WriteReceipt` has it. */
  ghost predicate CommitsReceive(s: State, l: Label, s': State)
    requires l.CommitReceive?
  {
    && l.now in s.pending && s.pending[l.now].Receiving?
    && var p := s.pending[l.now];
    && (forall read :: read in p.loaded ==> StillAsRead(s.tickets, read))
    && Rewritten(s.tickets, s'.tickets, ReadIds(p.loaded), ReceiveRow(p.receiverWalletId, l.now))
    && s' == s.(tickets := s'.tickets, pending := s.pending - {l.now}, receipts := s.receipts + [p.auth.transferKey])
  }

  /** Any other transaction: what it writes gets its stamp, and no row gains a key. */
  ghost predicate Writes(s: State, l: Label, s': State)
    requires l.Write?
  {
    && l.now !in s.stamps && |s.tickets| <= |s'.tickets|
    && (forall i: Id {:trigger s'.tickets[i]} :: i < |s'.tickets| ==>
          || (i < |s.tickets| && s'.tickets[i] == s.tickets[i])
          || (&& s'.tickets[i].updatedAt == l.now
              && (s'.tickets[i].transferKey.Some? ==> i < |s.tickets| && s'.tickets[i].transferKey == s.tickets[i].transferKey)))
    && s' == s.(tickets := s'.tickets, stamps := s.stamps + {l.now})
  }

  /** Redeeming and nullifying do not touch `updated_at`. */
  ghost predicate ChangesStatus(s: State, l: Label, s': State)
    requires l.ChangeStatus?
  {
    && l.ticketId < |s.tickets|
    && var t := s.tickets[l.ticketId];
    && ((t.status == Purchased && l.status == Redeemed) || (t.status == Available && l.status == Nullified))
    && s' == s.(tickets := s.tickets[l.ticketId := t.(status := l.status)])
  }

  ghost predicate Step(s: State, l: Label, s': State) {
    match l
    case BeginAuthorize(_, _, _, _, _) => BeginsAuthorize(s, l, s')
    case CommitAuthorize(_) => CommitsAuthorize(s, l, s')
    case BeginReceive(_, _, _, _, _) => BeginsReceive(s, l, s')
    case CommitReceive(_) => CommitsReceive(s, l, s')
    case Abort(now) => now in s.pending && s' == s.(pending := s.pending - {now})
    case Write(_) => Writes(s, l, s')
    case ChangeStatus(_, _) => ChangesStatus(s, l, s')
  }

  // ------------------------------------------------------------ the invariant

  /** No row carries the stamp of an open transaction, neither now nor as it was read. */
  ghost predicate StampsOk(s: State) {
    && (forall i: Id :: i < |s.tickets| ==> s.tickets[i].updatedAt in s.stamps && s.tickets[i].updatedAt !in s.pending)
    && (forall now :: now in s.pending ==> now in s.stamps)
    && (forall now, read :: now in s.pending && read in s.pending[now].loaded ==>
          read.row.updatedAt in s.stamps && read.row.updatedAt !in s.pending)
  }

  /** A row whose stamp is as read is as read, but perhaps for its status. */
  ghost predicate LoadedOk(s: State) {
    forall now, read :: now in s.pending && read in s.pending[now].loaded ==>
      && read.id < |s.tickets|
      && (StillAsRead(s.tickets, read) ==> s.tickets[read.id] == read.row.(status := s.tickets[read.id].status))
  }

  /** Two open authorizations with one key. */
  ghost predicate SameKeyPending(s: State, now: Time, now': Time) {
    && now in s.pending && now' in s.pending && s.pending[now].Authorizing? && s.pending[now'].Authorizing?
    && s.pending[now].auth.transferKey == s.pending[now'].auth.transferKey
  }

  ghost predicate KeysOk(s: State) {
    && (forall i: Id :: i < |s.tickets| && s.tickets[i].transferKey.Some? ==> s.tickets[i].transferKey.value in s.issued)
    && (forall k :: k in s.issued ==> k in s.keys && s.issued[k].transferKey == k)
    && (forall now :: now in s.pending && s.pending[now].Authorizing? ==>
          && s.pending[now].auth.transferKey in s.keys && s.pending[now].auth.transferKey !in s.issued
          && s.pending[now].auth.numTickets == |s.pending[now].loaded|)
    && (forall now, now' :: SameKeyPending(s, now, now') ==> now == now')
  }

  /** No key is on more rows than were authorized. */
  ghost predicate CountsOk(s: State) {
    forall k :: k in s.issued ==> |Keyed(s.tickets, k)| <= s.issued[k].numTickets
  }

  ghost predicate ReceivingOk(s: State) {
    forall now :: now in s.pending && s.pending[now].Receiving? ==>
      && var p := s.pending[now];
      && p.auth.transferKey in s.issued && s.issued[p.auth.transferKey] == p.auth
      && DistinctReads(p.loaded) && |p.loaded| == p.auth.numTickets
      && forall read :: read in p.loaded ==>
           read.row.transferKey == Some(p.auth.transferKey) && read.row.walletId == p.senderWalletId
  }

  /** A key that has been received is on no row any more, and is not received again. */
  ghost predicate ReceiptsOk(s: State) {
    && (forall k :: k in s.receipts ==> k in s.issued && (s.issued[k].numTickets > 0 ==> Keyed(s.tickets, k) == {}))
    && (forall i, j :: 0 <= i < j < |s.receipts| && s.receipts[i] == s.receipts[j] ==>
          s.receipts[i] in s.issued && s.issued[s.receipts[i]].numTickets == 0)
  }

  ghost predicate Inv(s: State) {
    StampsOk(s) && LoadedOk(s) && KeysOk(s) && CountsOk(s) && ReceivingOk(s) && ReceiptsOk(s)
  }

  /** No key has gained a row. */
  ghost predicate KeysShrink(before: seq<Ticket>, after: seq<Ticket>, k: Id) {
    Keyed(after, k) <= Keyed(before, k)
  }

  lemma {:induction false} DistinctReadsCount(loaded: seq<Read>)
    requires DistinctReads(loaded)
    ensures |ReadIds(loaded)| == |loaded|
  {
    if loaded != [] {
      var front, last := loaded[..|loaded| - 1], loaded[|loaded| - 1];
      DistinctReadsCount(front);
      assert loaded == front + [last];
      assert ReadIds(loaded) == ReadIds(front) + {last.id};
      assert last.id !in ReadIds(front);
    }
  }

  // ------------------------------------------------------------ what each step keeps

  lemma StepKeepsStamps(s: State, l: Label, s': State)
    requires Inv(s) && Step(s, l, s')
    ensures StampsOk(s')
  {
    hide KeysOk, CountsOk, ReceivingOk, ReceiptsOk, LoadedOk;
  }

  lemma StepKeepsLoaded(s: State, l: Label, s': State)
    requires Inv(s) && Step(s, l, s')
    ensures LoadedOk(s')
  {
    hide KeysOk, CountsOk, ReceivingOk, ReceiptsOk;
  }

  lemma StepKeepsKeys(s: State, l: Label, s': State)
    requires Inv(s) && Step(s, l, s')
    ensures KeysOk(s')
  {
    forall now, now' | SameKeyPending(s', now, now') ensures now == now' {
      assert now in s.pending && now' in s.pending ==> SameKeyPending(s, now, now');
    }
    if l.CommitAuthorize? {
      forall now | now in s'.pending && s.pending[now].Authorizing?
        ensures s.pending[now].auth.transferKey != s.pending[l.now].auth.transferKey
      {
        assert !SameKeyPending(s, now, l.now);
      }
    }
    hide CountsOk, ReceivingOk, ReceiptsOk, LoadedOk, StampsOk;
  }

  /** The only step that puts a key on rows is the one that gives it out. */
  lemma KeysOnlyShrink(s: State, l: Label, s': State, k: Id)
    requires Inv(s) && Step(s, l, s') && k in s.issued
    ensures KeysShrink(s.tickets, s'.tickets, k)
    ensures k in s'.issued && s'.issued[k] == s.issued[k]
  {
    hide CountsOk, ReceivingOk, ReceiptsOk, LoadedOk, StampsOk;
  }

  lemma NewKeyCounts(s: State, l: Label, s': State)
    requires Inv(s) && l.CommitAuthorize? && CommitsAuthorize(s, l, s')
    ensures
      var p := s.pending[l.now];
      Keyed(s'.tickets, p.auth.transferKey) == ReadIds(p.loaded) && |ReadIds(p.loaded)| == p.auth.numTickets
  {
    var p := s.pending[l.now];
    DistinctReadsCount(p.loaded);
    hide CountsOk, ReceivingOk, ReceiptsOk, StampsOk;
  }

  lemma StepKeepsCounts(s: State, l: Label, s': State)
    requires Inv(s) && Step(s, l, s')
    ensures CountsOk(s')
  {
    forall k | k in s'.issued ensures |Keyed(s'.tickets, k)| <= s'.issued[k].numTickets {
      if k in s.issued {
        KeysOnlyShrink(s, l, s', k);
        SubsetSize(Keyed(s'.tickets, k), Keyed(s.tickets, k));
      } else {
        assert l.CommitAuthorize?;
        NewKeyCounts(s, l, s');
      }
    }
    hide Inv;
  }

  lemma StepKeepsReceiving(s: State, l: Label, s': State)
    requires Inv(s) && Step(s, l, s')
    ensures ReceivingOk(s')
  {
    if l.BeginReceive? {
      forall read | read in l.loaded ensures read.row.transferKey == Some(l.auth.transferKey) {
        assert read.id in ReadIds(l.loaded);
      }
    }
    hide CountsOk, ReceiptsOk, LoadedOk, StampsOk;
  }

  /** The rows of a receipt are all the rows that carry its key. */
  lemma ReceiptTakesAll(s: State, l: Label, s': State)
    requires Inv(s) && l.CommitReceive? && CommitsReceive(s, l, s')
    ensures
      var p := s.pending[l.now];
      && ReadIds(p.loaded) == Keyed(s.tickets, p.auth.transferKey) && |ReadIds(p.loaded)| == p.auth.numTickets
      && Keyed(s'.tickets, p.auth.transferKey) == {}
  {
    var p := s.pending[l.now];
    DistinctReadsCount(p.loaded);
    forall read | read in p.loaded ensures read.id in Keyed(s.tickets, p.auth.transferKey) {
      assert StillAsRead(s.tickets, read);
    }
    assert ReadIds(p.loaded) <= Keyed(s.tickets, p.auth.transferKey);
    SubsetSize(ReadIds(p.loaded), Keyed(s.tickets, p.auth.transferKey));
    hide StampsOk, KeysOk, ReceiptsOk;
  }

  lemma StepKeepsReceipts(s: State, l: Label, s': State)
    requires Inv(s) && Step(s, l, s')
    ensures ReceiptsOk(s')
  {
    assert ReceiptsOk(s);
    forall k | k in s.receipts ensures k in s'.issued && (s'.issued[k].numTickets > 0 ==> Keyed(s'.tickets, k) == {}) {
      KeysOnlyShrink(s, l, s', k);
    }
    if l.CommitReceive? {
      ReceiptTakesAll(s, l, s');
      assert ReceivingOk(s);
    }
    hide Inv, Keyed, ReadIds, Rewritten;
  }

  lemma StepKeepsInv(s: State, l: Label, s': State)
    requires Inv(s) && Step(s, l, s')
    ensures Inv(s')
  {
    StepKeepsStamps(s, l, s');
    StepKeepsLoaded(s, l, s');
    StepKeepsKeys(s, l, s');
    StepKeepsCounts(s, l, s');
    StepKeepsReceiving(s, l, s');
    StepKeepsReceipts(s, l, s');
    hide StampsOk, LoadedOk, KeysOk, CountsOk, ReceivingOk, ReceiptsOk, Step;
  }

  // ------------------------------------------------------------ over whole runs

  /** Nothing authorized, nothing open. */
  ghost predicate Init(s: State) {
    && s.pending == map[] && s.issued == map[] && s.receipts == []
    && (forall i: Id :: i < |s.tickets| ==> s.tickets[i].updatedAt in s.stamps && s.tickets[i].transferKey.None?)
  }

  ghost predicate IsRun(trace: seq<State>, labels: seq<Label>) {
    && |trace| == |labels| + 1 && Init(trace[0])
    && forall i: nat {:trigger labels[i]} :: i < |labels| ==> Step(trace[i], labels[i], trace[i + 1])
  }

  lemma {:induction false} RunsKeepInv(trace: seq<State>, labels: seq<Label>, n: nat)
    requires IsRun(trace, labels) && n <= |labels|
    ensures Inv(trace[n])
  {
    if n > 0 {
      RunsKeepInv(trace, labels, n - 1);
      hide Inv, Step;
      assert Step(trace[n - 1], labels[n - 1], trace[n]);
      StepKeepsInv(trace[n - 1], labels[n - 1], trace[n]);
    }
  }

  /** In any run, however interleaved, an authorization of at least one ticket is received at most once. */
  lemma AtMostOneReceipt(trace: seq<State>, labels: seq<Label>, n: nat, i: nat, j: nat)
    requires IsRun(trace, labels) && n <= |labels|
    requires i < j < |trace[n].receipts| && trace[n].receipts[i] == trace[n].receipts[j]
    ensures trace[n].receipts[i] in trace[n].issued && trace[n].issued[trace[n].receipts[i]].numTickets == 0
  {
    RunsKeepInv(trace, labels, n);
  }

  /**
    A receipt moves exactly the tickets authorized, out of the sender's wallet and into the receiver's. Each is as it was
    when it was read, but for its status.
   */
  lemma ReceiptMovesExactly(s: State, l: Label, s': State)
    requires Inv(s) && l.CommitReceive? && CommitsReceive(s, l, s')
    ensures
      var p := s.pending[l.now];
      && |ReadIds(p.loaded)| == p.auth.numTickets
      && |s'.tickets| == |s.tickets|
      && (forall read :: read in p.loaded ==>
            && read.id < |s.tickets|
            && s.tickets[read.id] == read.row.(status := s.tickets[read.id].status)
            && s.tickets[read.id].walletId == p.senderWalletId
            && s'.tickets[read.id] == ReceiveRow(p.receiverWalletId, l.now)(s.tickets[read.id]))
      && forall i: Id :: i < |s.tickets| && i !in ReadIds(p.loaded) ==> s'.tickets[i] == s.tickets[i]
  {
    ReceiptTakesAll(s, l, s');
    var p := s.pending[l.now];
    assert ReceivingOk(s) && LoadedOk(s);
    forall read | read in p.loaded
      ensures read.id < |s.tickets| && s.tickets[read.id] == read.row.(status := s.tickets[read.id].status)
      ensures s.tickets[read.id].walletId == p.senderWalletId && read.id in ReadIds(p.loaded)
    {
      assert StillAsRead(s.tickets, read);
    }
    hide Inv;
  }

  /** Fewer rows carry the key than were authorized. */
  ghost predicate Dead(s: State, k: Id) {
    k in s.issued && |Keyed(s.tickets, k)| < s.issued[k].numTickets
  }

  lemma DeadStaysDead(s: State, l: Label, s': State, k: Id)
    requires Inv(s) && Step(s, l, s') && Dead(s, k)
    ensures Dead(s', k)
  {
    KeysOnlyShrink(s, l, s', k);
    SubsetSize(Keyed(s'.tickets, k), Keyed(s.tickets, k));
  }

  /** A dead authorization can neither be taken up nor, if it was taken up already, be completed. */
  lemma DeadIsNotReceived(s: State, l: Label, s': State, k: Id)
    requires Inv(s) && Step(s, l, s') && Dead(s, k)
    ensures l.BeginReceive? ==> l.auth.transferKey != k
    ensures l.CommitReceive? ==> s.pending[l.now].auth.transferKey != k
  {
    if l.BeginReceive? && l.auth.transferKey == k {
      DistinctReadsCount(l.loaded);
      SubsetSize(Claimable(s.tickets, k, l.now), Keyed(s.tickets, k));
    }
    if l.CommitReceive? {
      ReceiptTakesAll(s, l, s');
      assert ReceivingOk(s);
    }
  }

  /** Authorizing any of its tickets again kills an authorization. */
  lemma ReauthorizingKills(s: State, l: Label, s': State, k: Id, i: Id)
    requires Inv(s) && l.CommitAuthorize? && CommitsAuthorize(s, l, s') && k in s.issued
    requires i in ReadIds(s.pending[l.now].loaded) && i in Keyed(s.tickets, k)
    ensures Dead(s', k)
  {
    KeysOnlyShrink(s, l, s', k);
    assert KeysOk(s);
    assert i !in Keyed(s'.tickets, k);
    SubsetSize(Keyed(s'.tickets, k), Keyed(s.tickets, k) - {i});
    assert CountsOk(s);
    hide StampsOk, LoadedOk, ReceivingOk, ReceiptsOk;
  }

  // ------------------------------------------------------------ what the stamps do not see

  /** A ticket may be redeemed after its transfer was read, and is moved all the same. */
  lemma RedemptionGoesUnnoticed(s: State, now: Time, i: Id, s1: State)
    requires now in s.pending && s.pending[now].Receiving?
    requires Step(s, ChangeStatus(i, Redeemed), s1)
    ensures now in s1.pending && s1.pending[now] == s.pending[now]
    ensures forall read :: read in s.pending[now].loaded && StillAsRead(s.tickets, read) ==> StillAsRead(s1.tickets, read)
  {
  }

  /** An authorization of no tickets can be received over and over: nothing moves and nothing stops it. */
  lemma EmptyAuthorizationReplays(s: State, k: Id, now: Time, sender: Id, receiver: Id) returns (s1: State, s2: State)
    requires Inv(s) && k in s.issued && s.issued[k].numTickets == 0 && now !in s.stamps
    ensures Step(s, BeginReceive(now, s.issued[k], sender, receiver, []), s1) && Step(s1, CommitReceive(now), s2)
    ensures s2.tickets == s.tickets && s2.issued == s.issued && s2.receipts == s.receipts + [k]
    ensures Inv(s2)
  {
    s1 := s.(pending := s.pending[now := Receiving(s.issued[k], sender, receiver, [])], stamps := s.stamps + {now});
    assert StampsOk(s) && KeysOk(s) && CountsOk(s);
    assert now !in s.pending;
    SubsetSize(Claimable(s.tickets, k, now), Keyed(s.tickets, k));
    assert ReadIds([]) == Claimable(s.tickets, k, now);
    s2 := s1.(pending := s1.pending - {now}, receipts := s1.receipts + [k]);
    assert Step(s, BeginReceive(now, s.issued[k], sender, receiver, []), s1);
    StepKeepsInv(s, BeginReceive(now, s.issued[k], sender, receiver, []), s1);
    assert Step(s1, CommitReceive(now), s2);
    StepKeepsInv(s1, CommitReceive(now), s2);
  }
}
