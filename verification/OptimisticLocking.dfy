/**
  Concurrent requests on one row (db/src/models/orders.rs:270-321, 444, 1159-1178, db/src/models/users.rs:563-601). A
  request reads the row, works out what it should become, and commits only if the row's stamp is still the one it read:
  the version of an order, or the `updated_at` of a user, which is set to the instant the transaction started.
 */
module OptimisticLocking {
  import opened Schema

  /** A row with its stamp, and the requests that have read it and not committed yet. */
  datatype Stamped<C> = Stamped(stamp: int, content: C)

  datatype Open<C, Q> = Open(request: Q, seen: Stamped<C>)

  /**
    `stamps` are all the stamps the row has had; `committed` lists the requests that went through, in order, and
    `contents` what the row held before the first of them and after each.
   */
  datatype State<C, Q> = State(row: Stamped<C>, open_: map<Id, Open<C, Q>>, stamps: set<int>, committed: seq<Q>, contents: seq<C>)

  datatype Label<Q> = Begin(id: Id, request: Q) | Commit(id: Id, stamp: int) | GiveUp(id: Id)

  /** What a request may make of what it read. */
  type Effect<!C, !Q> = (Q, C, C) -> bool

  ghost predicate Begins<C, Q>(s: State<C, Q>, s': State<C, Q>, id: Id, request: Q) {
    id !in s.open_ && s' == s.(open_ := s.open_[id := Open(request, s.row)])
  }

  /** The compare-and-set: the row becomes what the request makes of the row it saw. */
  ghost predicate Commits<C, Q>(s: State<C, Q>, s': State<C, Q>, id: Id, stamp: int, effect: Effect<C, Q>) {
    && id in s.open_ && stamp !in s.stamps
    && var open_ := s.open_[id];
    && open_.seen.stamp == s.row.stamp
    && effect(open_.request, open_.seen.content, s'.row.content)
    && s' == State(Stamped(stamp, s'.row.content), s.open_ - {id}, s.stamps + {stamp}, s.committed + [open_.request],
                   s.contents + [s'.row.content])
  }

  ghost predicate Step<C, Q>(s: State<C, Q>, l: Label<Q>, s': State<C, Q>, effect: Effect<C, Q>) {
    match l
    case Begin(id, request) => Begins(s, s', id, request)
    case Commit(id, stamp) => Commits(s, s', id, stamp, effect)
    case GiveUp(id) => id in s.open_ && s' == s.(open_ := s.open_ - {id})
  }

  /** The requests one after the other, with nothing in between: each works on what the one before it has left. */
  ghost predicate IsSerial<C, Q>(contents: seq<C>, requests: seq<Q>, effect: Effect<C, Q>) {
    && |contents| == |requests| + 1
    && forall i: nat {:trigger requests[i]} :: i < |requests| ==> effect(requests[i], contents[i], contents[i + 1])
  }

  /** A stamp stands for one content, and the row has what the committed requests make of the start. */
  ghost predicate Inv<C(!new), Q(!new)>(s: State<C, Q>, effect: Effect<C, Q>) {
    && s.row.stamp in s.stamps
    && (forall id :: id in s.open_ ==> s.open_[id].seen.stamp in s.stamps)
    && (forall id :: id in s.open_ && s.open_[id].seen.stamp == s.row.stamp ==> s.open_[id].seen == s.row)
    && |s.stamps| == |s.committed| + 1
    && IsSerial(s.contents, s.committed, effect) && s.row.content == s.contents[|s.committed|]
  }

  lemma StepKeepsInv<C(!new), Q(!new)>(s: State<C, Q>, l: Label<Q>, s': State<C, Q>, effect: Effect<C, Q>)
    requires Inv(s, effect) && Step(s, l, s', effect)
    ensures Inv(s', effect) && s.contents <= s'.contents && s.committed <= s'.committed
  {
    if l.Commit? {
      assert s.open_[l.id].seen == s.row;
      forall i: nat | i < |s'.committed| ensures effect(s'.committed[i], s'.contents[i], s'.contents[i + 1]) {
        if i < |s.committed| {
          assert s'.committed[i] == s.committed[i];
        }
      }
    }
  }

  ghost predicate IsRun<C, Q>(trace: seq<State<C, Q>>, labels: seq<Label<Q>>, effect: Effect<C, Q>) {
    && |trace| == |labels| + 1
    && trace[0].open_ == map[] && trace[0].committed == [] && trace[0].stamps == {trace[0].row.stamp}
    && trace[0].contents == [trace[0].row.content]
    && forall i: nat {:trigger labels[i]} :: i < |labels| ==> Step(trace[i], labels[i], trace[i + 1], effect)
  }

  /**
    No update is lost: however requests interleave, the row is what the committed ones make of it when they run one after
    the other, in the order in which they committed. And each has a stamp of its own: no version is built on twice.
   */
  lemma {:induction false} CommitsAreSerial<C(!new), Q(!new)>(trace: seq<State<C, Q>>, labels: seq<Label<Q>>, effect: Effect<C, Q>, n: nat)
    requires IsRun(trace, labels, effect) && n <= |labels|
    ensures IsSerial(trace[n].contents, trace[n].committed, effect)
    ensures trace[n].contents[0] == trace[0].row.content && trace[n].row.content == trace[n].contents[|trace[n].committed|]
    ensures |trace[n].stamps| == |trace[n].committed| + 1
    ensures Inv(trace[n], effect)
  {
    if n > 0 {
      CommitsAreSerial(trace, labels, effect, n - 1);
      assert Step(trace[n - 1], labels[n - 1], trace[n], effect);
      StepKeepsInv(trace[n - 1], labels[n - 1], trace[n], effect);
    }
  }

  // ------------------------------------------------------------ orders

  /** Versions so far: one more for each request that has committed. */
  ghost predicate Versions<C, Q>(s: State<C, Q>, first: int) {
    && s.row.stamp == first + |s.committed|
    && forall v :: v in s.stamps <==> first <= v <= s.row.stamp
  }

  // ------------------------------------------------------------ users

  predicate SameUser(row: User, self: User) {
    row.updatedAt == self.updatedAt && row.lastCartId == self.lastCartId
  }

  /** `update_last_cart`: `self` is the user as read when the request came in. */
  method UpdateLastCart(conn: Connection, userId: Id, self: User, newCartId: Option<Id>) returns (r: Result<()>)
    modifies conn`users
    ensures r.Ok? <==>
      && userId in old(conn.users)
      && old(conn.users)[userId].updatedAt == self.updatedAt && old(conn.users)[userId].lastCartId == self.lastCartId
    ensures r.Ok? ==> conn.users == old(conn.users)[userId := User(newCartId, conn.now)]
    ensures r.Err? ==> r == Err(ConcurrencyError) && unchanged(conn)
  {
    if userId !in conn.users || !SameUser(conn.users[userId], self) {
      return Err(ConcurrencyError);
    }
    conn.users := conn.users[userId := User(newCartId, conn.now)];
    return Ok(());
  }
}
