/**
  The retry queue (db/src/models/domain_actions.rs:69-200, api/src/domain_events/domain_action_monitor.rs:140-221,
  api/src/domain_events/executor_future.rs:39-77). A pass of the monitor checks actions out for a minute and starts them;
  an attempt that has not finished after 55 seconds is dropped and leaves no trace.
 */
module DomainActions {
  import opened Schema

  const LEASE: Time := 60
  const TIMEOUT: Time := 55

  datatype ActionStatus = Pending | RetriesExceeded | Errored | Success

  datatype DomainAction = DomainAction(
    id: Id,
    actionType: Id,
    scheduledAt: Time,
    expiresAt: Time,
    attemptCount: int,
    maxAttemptCount: int,
    status: ActionStatus,
    blockedUntil: Time)

  /** A check-out that succeeded. */
  datatype CheckOut = CheckOut(id: Id, at: Time)

  /** A future that is being polled: the action as `find_pending` returned it, and when it was checked out. */
  datatype Attempt = Attempt(action: DomainAction, startedAt: Time)

  // ------------------------------------------------------------ rows

  predicate IsDue(action: DomainAction, now: Time) {
    && action.scheduledAt <= now < action.expiresAt
    && action.blockedUntil <= now
    && action.attemptCount < action.maxAttemptCount
    && action.status == Pending
  }

  predicate CanCheckOut(row: DomainAction, now: Time) {
    row.blockedUntil <= now
  }

  /** `set_failed`, on the row as it was when the action was found. */
  function Failed(row: DomainAction, found: DomainAction, now: Time): (r: DomainAction) {
    if found.maxAttemptCount <= found.attemptCount + 1 then
      row.(status := RetriesExceeded, attemptCount := found.attemptCount + 1, blockedUntil := now)
    else
      row.(attemptCount := found.attemptCount + 1)
  }

  /**
    Checking out asks for the lease only, not for the status. A last failure ends the lease at once, a success does not:
    whoever found the action before its last failure can still check it out and run it again.
   */
  lemma FinishedActionsCanBeCheckedOut(row: DomainAction, now: Time)
    requires row.status == Pending && now < row.blockedUntil
    ensures Failed(row, row, now).status != Pending <==> CanCheckOut(Failed(row, row, now), now)
    ensures !CanCheckOut(row.(status := Success), now)
  {
  }

  // ------------------------------------------------------------ the queue

  /** What the queue is at some point. */
  datatype State = State(actions: map<Id, DomainAction>, running: seq<Attempt>, failures: map<Id, nat>, now: Time)

  class Queue {
    var actions: map<Id, DomainAction>
    var running: seq<Attempt>
    var now: Time
    // The failures recorded for each action.
    ghost var failures: map<Id, nat>
    // Every check-out there has been, oldest first.
    ghost var checkouts: seq<CheckOut>
    const executors: set<Id>

    constructor (executors: set<Id>, now: Time)
      ensures Valid() && actions == map[] && running == [] && checkouts == [] && this.executors == executors && this.now == now
    {
      this.actions, this.running, this.now, this.executors := map[], [], now, executors;
      this.failures, this.checkouts := map[], [];
    }

    /** An action that can still run has attempts left, and one that has none left has failed each time. */
    static ghost predicate ActionOk(action: DomainAction, failures: nat) {
      && action.attemptCount == failures
      && (action.status == Pending ==> failures < action.maxAttemptCount)
      && (action.status == RetriesExceeded ==> failures == action.maxAttemptCount)
    }

    /** A running action is pending, as it was found, and leased for longer than the attempt may take. */
    static ghost predicate AttemptOk(actions: map<Id, DomainAction>, attempt: Attempt, now: Time) {
      && var id := attempt.action.id;
      && id in actions && actions[id] == attempt.action.(blockedUntil := attempt.startedAt + LEASE)
      && actions[id].status == Pending
      && attempt.startedAt <= now <= attempt.startedAt + TIMEOUT
    }

    /** A lease runs out a minute after its check-out, unless the action has failed for the last time. */
    static ghost predicate LeasesOk(actions: map<Id, DomainAction>, checkouts: seq<CheckOut>, now: Time) {
      && (forall i :: 0 <= i < |checkouts| ==>
            && checkouts[i].id in actions && checkouts[i].at <= now
            && (actions[checkouts[i].id].status in {Pending, Success} ==> checkouts[i].at + LEASE <= actions[checkouts[i].id].blockedUntil))
      && Apart(checkouts)
    }

    /** No action has been checked out twice within a minute. */
    static ghost predicate Apart(checkouts: seq<CheckOut>) {
      forall i, j :: 0 <= i < j < |checkouts| && checkouts[i].id == checkouts[j].id ==> checkouts[i].at + LEASE <= checkouts[j].at
    }

    static ghost predicate Ok(actions: map<Id, DomainAction>, running: seq<Attempt>, failures: map<Id, nat>, now: Time) {
      && (forall id :: id in actions ==> actions[id].id == id && id in failures && ActionOk(actions[id], failures[id]))
      && (forall i :: 0 <= i < |running| ==> AttemptOk(actions, running[i], now))
      && (forall i, j :: 0 <= i < j < |running| ==> running[i].action.id != running[j].action.id)
    }

    ghost predicate Valid()
      reads this
    {
      Ok(actions, running, failures, now) && LeasesOk(actions, checkouts, now)
    }

    ghost function Current(): (s: State)
      reads this
    {
      State(actions, running, failures, now)
    }

    /** Finished actions are never written again. */
    static ghost predicate FinishedStay(before: map<Id, DomainAction>, after: map<Id, DomainAction>) {
      forall id :: id in before && before[id].status != Pending ==> id in after && after[id] == before[id]
    }

    method Create(action: DomainAction) returns (r: Result<()>)
      requires Valid() && action.attemptCount == 0 && action.status == Pending && 0 < action.maxAttemptCount
      modifies this`actions, this`failures
      ensures Valid() && FinishedStay(old(actions), actions)
      ensures r.Ok? <==> action.id !in old(actions)
      ensures actions == if r.Ok? then old(actions)[action.id := action] else old(actions)
      ensures failures == if r.Ok? then old(failures)[action.id := 0] else old(failures)
    {
      if action.id in actions {
        return Err(InsertError);
      }
      actions, failures := actions[action.id := action], failures[action.id := 0];
      return Result.Ok(());
    }

    /** Time passes, and attempts that have taken too long are dropped. */
    method Tick(to: Time)
      requires Valid() && now <= to
      modifies this`now, this`running
      ensures Valid() && now == to
      ensures forall attempt :: attempt in running <==> attempt in old(running) && to <= attempt.startedAt + TIMEOUT
    {
      var kept: seq<Attempt> := [];
      for i := 0 to |running|
        invariant forall j :: 0 <= j < |kept| ==> kept[j] in running[..i] && to <= kept[j].startedAt + TIMEOUT
        invariant forall j :: 0 <= j < i && to <= running[j].startedAt + TIMEOUT ==> running[j] in kept
        invariant forall j, k :: 0 <= j < k < |kept| ==> kept[j].action.id != kept[k].action.id
      {
        assert running[..i + 1] == running[..i] + [running[i]];
        if to <= running[i].startedAt + TIMEOUT {
          kept := kept + [running[i]];
        }
      }
      assert running[..|running|] == running;
      running, now := kept, to;
    }

    /** `find_pending`, in no particular order. */
    method FindPending() returns (found: seq<DomainAction>)
      requires Valid()
      ensures forall i :: 0 <= i < |found| ==>
        found[i].id in actions && actions[found[i].id] == found[i] && IsDue(found[i], now)
      ensures forall i, j :: 0 <= i < j < |found| ==> found[i].id != found[j].id
      ensures forall id :: id in actions && IsDue(actions[id], now) ==> actions[id] in found
      ensures forall action :: action in found <==>
        && action.id in actions && actions[action.id] == action && action.status == Pending
        && action.scheduledAt <= now && now < action.expiresAt && action.blockedUntil <= now
        && action.attemptCount < action.maxAttemptCount
    {
      found := [];
      var left := actions.Keys;
      while left != {}
        invariant left <= actions.Keys
        invariant forall i :: 0 <= i < |found| ==>
          && found[i].id in actions && actions[found[i].id] == found[i] && IsDue(found[i], now)
          && found[i].id !in left
        invariant forall i, j :: 0 <= i < j < |found| ==> found[i].id != found[j].id
        invariant forall id :: id in actions && id !in left && IsDue(actions[id], now) ==> actions[id] in found
        decreases left
      {
        var id :| id in left;
        left := left - {id};
        if IsDue(actions[id], now) {
          found := found + [actions[id]];
        }
      }
    }

    /** `set_busy`, its read and its write taken together. */
    method SetBusy(action: DomainAction, timeout: Time) returns (r: Result<()>)
      modifies this`actions, this`checkouts
      ensures r.Ok? <==> action.id in old(actions) && CanCheckOut(old(actions)[action.id], now)
      ensures actions == if r.Ok? then old(actions)[action.id := old(actions)[action.id].(blockedUntil := now + timeout)]
                         else old(actions)
      ensures r.Err? && action.id in old(actions) ==> r == Err(ConcurrencyError)
      ensures checkouts == if r.Ok? then old(checkouts) + [CheckOut(action.id, now)] else old(checkouts)
    {
      if action.id !in actions {
        return Err(QueryError);
      }
      if !CanCheckOut(actions[action.id], now) {
        return Err(ConcurrencyError);
      }
      actions := actions[action.id := actions[action.id].(blockedUntil := now + timeout)];
      checkouts := checkouts + [CheckOut(action.id, now)];
      return Result.Ok(());
    }

    /** An action that is due can be checked out, and it is a minute since it last was. */
    static lemma LeasingIsSafe(actions: map<Id, DomainAction>, checkouts: seq<CheckOut>, id: Id, now: Time)
      requires LeasesOk(actions, checkouts, now) && id in actions && actions[id].status == Pending && CanCheckOut(actions[id], now)
      ensures LeasesOk(actions[id := actions[id].(blockedUntil := now + LEASE)], checkouts + [CheckOut(id, now)], now)
    {
      var more := checkouts + [CheckOut(id, now)];
      forall i | 0 <= i < |checkouts| ensures more[i] == checkouts[i] {
      }
    }

    /** What a pass has done once it has started `started`. */
    static ghost predicate CheckedOut(before: map<Id, DomainAction>, after: map<Id, DomainAction>, started: seq<Attempt>, now: Time) {
      && after.Keys == before.Keys
      && (forall i :: 0 <= i < |started| ==>
            && started[i].startedAt == now && started[i].action.id in before && before[started[i].action.id] == started[i].action
            && IsDue(started[i].action, now) && after[started[i].action.id] == started[i].action.(blockedUntil := now + LEASE))
      && (forall i, j :: 0 <= i < j < |started| ==> started[i].action.id != started[j].action.id)
      && (forall id :: id in before && (forall i :: 0 <= i < |started| ==> started[i].action.id != id) ==> after[id] == before[id])
    }

    /** Starting due actions keeps everything in order: none of them was running. */
    static lemma StartingIsSafe(actions: map<Id, DomainAction>, running: seq<Attempt>, failures: map<Id, nat>, after: map<Id, DomainAction>,
                                started: seq<Attempt>, now: Time)
      requires Ok(actions, running, failures, now) && CheckedOut(actions, after, started, now)
      ensures Ok(after, running + started, failures, now) && FinishedStay(actions, after)
      ensures Ok(after, running, failures, now)
      ensures forall i, j :: 0 <= i < |running| && 0 <= j < |started| ==> running[i].action.id != started[j].action.id
    {
      forall i, j | 0 <= i < |running| && 0 <= j < |started| ensures running[i].action.id != started[j].action.id {
        assert AttemptOk(actions, running[i], now);
      }
      forall id | id in after ensures after[id].id == id && ActionOk(after[id], failures[id]) {
        assert ActionOk(actions[id], failures[id]);
      }
      forall i | 0 <= i < |running| ensures AttemptOk(after, running[i], now) {
        assert AttemptOk(actions, running[i], now);
      }
    }

    static lemma CheckedOutNext(before: map<Id, DomainAction>, cur: map<Id, DomainAction>, started: seq<Attempt>, action: DomainAction, now: Time)
      requires CheckedOut(before, cur, started, now)
      requires action.id in before && before[action.id] == action && IsDue(action, now)
      requires forall i :: 0 <= i < |started| ==> started[i].action.id != action.id
      ensures action.id in cur && cur[action.id] == action
      ensures CheckedOut(before, cur[action.id := action.(blockedUntil := now + LEASE)], started + [Attempt(action, now)], now)
    {
      var more := started + [Attempt(action, now)];
      assert more[|started|].action == action;
      assert forall i :: 0 <= i < |started| ==> more[i] == started[i];
    }

    /** The pass came upon an action no executor is known for. That one has errored; what was started before it is leased. */
    static ghost predicate Aborted(before: map<Id, DomainAction>, after: map<Id, DomainAction>, now: Time, executors: set<Id>,
                                   started: seq<Attempt>, id: Id) {
      && id in before && IsDue(before[id], now) && before[id].actionType !in executors
      && (forall i :: 0 <= i < |started| ==> started[i].action.id != id)
      && CheckedOut(before, after[id := before[id]], started, now)
      && id in after && after[id] == before[id].(status := Errored, blockedUntil := now)
    }

    /** The pass started `started`, as many as it could up to one more than `limit`. */
    static ghost predicate Passed(before: map<Id, DomainAction>, after: map<Id, DomainAction>, now: Time, executors: set<Id>, limit: nat,
                                  connections: nat, started: seq<Attempt>) {
      && |started| <= limit + 1 && |started| <= connections
      && CheckedOut(before, after, started, now)
      && (forall i :: 0 <= i < |started| ==> started[i].action.actionType in executors)
      && (|started| < limit + 1 && |started| < connections ==>
            forall id :: id in before && IsDue(before[id], now) ==> IsStarted(started, id))
    }

    /**
      One pass of `find_actions`, with `connections` to be had. It starts at most one action more than `limit`, and no fewer
      unless all that are due have been started. An action no executor is known for is marked as errored and ends the
      pass; what the pass had started is dropped with it, and stays leased.
     */
    method FindActions(limit: nat, connections: nat) returns (r: Result<seq<Attempt>>, ghost dropped: seq<Attempt>, ghost errored: Id)
      requires Valid()
      modifies this`actions, this`running, this`checkouts
      ensures Valid() && FinishedStay(old(actions), actions) && old(checkouts) <= checkouts
      ensures r.Ok? ==> running == old(running) + r.value && Passed(old(actions), actions, now, executors, limit, connections, r.value)
      ensures r.Err? ==> running == old(running) && Aborted(old(actions), actions, now, executors, dropped, errored)
    {
      hide CheckedOut, Ok, FinishedStay, LeasesOk, Aborted, IsStarted, Passed, IsDue;
      var pending := FindPending();
      ghost var before := actions;
      var result: seq<Attempt> := [];
      var index := 0;
      dropped, errored := [], 0;
      NothingCheckedOut(actions, now);
      RowsAreKeyed(actions, running, failures, now);
      while index < |pending| && index <= limit && index < connections
        invariant 0 <= index <= |pending| && |result| == index <= limit + 1 && (index == 0 || index <= connections)
        invariant forall i :: 0 <= i < index ==> result[i] == Attempt(pending[i], now) && pending[i].actionType in executors
        invariant CheckedOut(before, actions, result, now) && LeasesOk(actions, checkouts, now)
        invariant running == old(running) && old(checkouts) <= checkouts
      {
        var action := pending[index];
        CheckedOutNext(before, actions, result, action, now);
        LeasingIsSafe(actions, checkouts, action.id, now);
        var busy := SetBusy(action, LEASE);
        assert busy.Ok?;
        if action.actionType !in executors {
          ghost var started := result + [Attempt(action, now)];
          StartingIsSafe(before, running, failures, actions, started, now);
          assert started[|result|].action.id == action.id;
          ghost var between := actions;
          SetErrored(action);
          FinishedStayTwice(before, between, actions);
          dropped, errored := result, action.id;
          DroppedAreLeased(before, between, actions, result, action, now, executors);
          return Err(InternalError), dropped, errored;
        }
        result := result + [Attempt(action, now)];
        index := index + 1;
      }
      StartingIsSafe(before, running, failures, actions, result, now);
      running := running + result;
      if |result| < limit + 1 && |result| < connections {
        AllAreStarted(before, pending, result, now);
      }
      PassIsDone(before, actions, now, executors, limit, connections, result);
      return Result.Ok(result), dropped, errored;
    }

    static lemma PassIsDone(before: map<Id, DomainAction>, after: map<Id, DomainAction>, now: Time, executors: set<Id>, limit: nat,
                            connections: nat, started: seq<Attempt>)
      requires |started| <= limit + 1 && |started| <= connections && CheckedOut(before, after, started, now)
      requires forall i :: 0 <= i < |started| ==> started[i].action.actionType in executors
      requires |started| < limit + 1 && |started| < connections ==>
        forall id :: id in before && IsDue(before[id], now) ==> IsStarted(started, id)
      ensures Passed(before, after, now, executors, limit, connections, started)
    {
    }

    static predicate IsStarted(started: seq<Attempt>, id: Id) {
      exists i :: 0 <= i < |started| && started[i].action.id == id
    }

    static lemma AllAreStarted(actions: map<Id, DomainAction>, pending: seq<DomainAction>, started: seq<Attempt>, now: Time)
      requires forall id :: id in actions && IsDue(actions[id], now) ==> actions[id] in pending
      requires forall id :: id in actions ==> actions[id].id == id
      requires |started| == |pending| && forall i :: 0 <= i < |pending| ==> started[i].action == pending[i]
      ensures forall id :: id in actions && IsDue(actions[id], now) ==> IsStarted(started, id)
    {
      forall id | id in actions && IsDue(actions[id], now) ensures IsStarted(started, id) {
        var i :| 0 <= i < |pending| && pending[i] == actions[id];
        assert started[i].action.id == id;
      }
    }

    static lemma DroppedAreLeased(before: map<Id, DomainAction>, between: map<Id, DomainAction>, after: map<Id, DomainAction>,
                                  started: seq<Attempt>, action: DomainAction, now: Time, executors: set<Id>)
      requires CheckedOut(before, between, started + [Attempt(action, now)], now)
      requires action.id in between && after == between[action.id := between[action.id].(status := Errored, blockedUntil := now)]
      requires action.id in before && before[action.id] == action && action.actionType !in executors
      ensures Aborted(before, after, now, executors, started, action.id)
    {
      var more := started + [Attempt(action, now)];
      assert more[|started|] == Attempt(action, now);
      assert forall i :: 0 <= i < |started| ==> more[i] == started[i];
      forall id | id in before && id != action.id && (forall i :: 0 <= i < |started| ==> started[i].action.id != id)
        ensures id in after && after[id] == before[id]
      {
        assert forall i :: 0 <= i < |more| ==> more[i].action.id != id;
      }
    }

    /** Every row is filed under its own id. */
    static lemma RowsAreKeyed(actions: map<Id, DomainAction>, running: seq<Attempt>, failures: map<Id, nat>, now: Time)
      requires Ok(actions, running, failures, now)
      ensures forall id :: id in actions ==> actions[id].id == id
    {
    }

    static lemma NothingCheckedOut(actions: map<Id, DomainAction>, now: Time)
      ensures CheckedOut(actions, actions, [], now)
    {
    }

    static lemma FinishedStayTwice(a: map<Id, DomainAction>, b: map<Id, DomainAction>, c: map<Id, DomainAction>)
      requires FinishedStay(a, b) && FinishedStay(b, c)
      ensures FinishedStay(a, c)
    {
    }

    /** `set_errored`, on an action nobody is running. */
    method SetErrored(action: DomainAction)
      requires Valid() && action.id in actions && actions[action.id].status == Pending
      requires forall i :: 0 <= i < |running| ==> running[i].action.id != action.id
      modifies this`actions
      ensures Valid() && FinishedStay(old(actions), actions)
      ensures actions == old(actions)[action.id := old(actions)[action.id].(status := Errored, blockedUntil := now)]
    {
      actions := actions[action.id := actions[action.id].(status := Errored, blockedUntil := now)];
      forall i | 0 <= i < |running| ensures AttemptOk(actions, running[i], now) {
        assert AttemptOk(old(actions), running[i], now);
      }
    }

    /** The `i`-th attempt is over. A failure counts, and the last one ends the lease. */
    static ghost predicate Finished(s: State, s': State, i: nat, succeeded: bool)
      requires i < |s.running|
    {
      var id := s.running[i].action.id;
      && id in s.actions && id in s.failures
      && s' == s.(actions := s'.actions, failures := s'.failures, running := s.running[..i] + s.running[i + 1..])
      && var row := s.actions[id];
      if succeeded then s'.failures == s.failures && s'.actions == s.actions[id := row.(status := Success)]
      else
        && s'.failures == s.failures[id := s.failures[id] + 1]
        && s'.actions == s.actions[id :=
             if s.failures[id] + 1 < row.maxAttemptCount then row.(attemptCount := row.attemptCount + 1)
             else row.(attemptCount := row.maxAttemptCount, status := RetriesExceeded, blockedUntil := s.now)]
    }

    /** An attempt is over: `poll` records a success, or a failure, after which the lease goes on unless it was the last. */
    method Finish(i: nat, succeeded: bool)
      requires Valid() && i < |running|
      modifies this`actions, this`running, this`failures
      ensures Valid() && FinishedStay(old(actions), actions)
      ensures now == old(now) && Finished(old(Current()), Current(), i, succeeded)
    {
      ghost var before := Current();
      AttemptIsKnown(before, i);
      hide Ok, LeasesOk, FinishedStay;
      var attempt := running[i];
      var id := attempt.action.id;
      if succeeded {
        actions := actions[id := actions[id].(status := Success)];
      } else {
        actions := actions[id := Failed(actions[id], attempt.action, now)];
        failures := failures[id := failures[id] + 1];
      }
      running := running[..i] + running[i + 1..];
      AttemptEnds(before, Current(), checkouts, i, succeeded);
    }

    /** The action of an attempt is there, as it was found but for its lease, and its failures are counted. */
    static lemma AttemptIsKnown(s: State, i: nat)
      requires Ok(s.actions, s.running, s.failures, s.now) && i < |s.running|
      ensures
        var found := s.running[i].action;
        && found.id in s.actions && found.id in s.failures
        && s.actions[found.id] == found.(blockedUntil := s.actions[found.id].blockedUntil)
        && found.attemptCount == s.failures[found.id] < found.maxAttemptCount && found.status == Pending
    {
      assert AttemptOk(s.actions, s.running[i], s.now);
    }

    /** The end of one attempt leaves the others running as they were. */
    static lemma AttemptEnds(s: State, s': State, checkouts: seq<CheckOut>, i: nat, succeeded: bool)
      requires Ok(s.actions, s.running, s.failures, s.now) && LeasesOk(s.actions, checkouts, s.now) && i < |s.running|
      requires Finished(s, s', i, succeeded)
      ensures Ok(s'.actions, s'.running, s'.failures, s'.now) && LeasesOk(s'.actions, checkouts, s'.now)
      ensures FinishedStay(s.actions, s'.actions)
    {
      AttemptIsKnown(s, i);
      var id := s.running[i].action.id;
      forall j | 0 <= j < |s.running| && j != i ensures AttemptOk(s'.actions, s.running[j], s'.now) {
        assert AttemptOk(s.actions, s.running[j], s.now);
        assert s.running[j].action.id != id;
      }
    }
  }

  // ------------------------------------------------------------ runs

  datatype Event =
    | Submit(action: DomainAction)
    | Wait(to: Time)
    | Pass(limit: nat, connections: nat)
    | Complete(i: nat, succeeded: bool)

  predicate IsNew(action: DomainAction) {
    action.attemptCount == 0 && action.status == Pending && 0 < action.maxAttemptCount
  }

  /** What an event makes of the queue. Clocks do not go back, and only new actions are submitted. */
  ghost predicate Happens(s: State, s': State, event: Event, executors: set<Id>) {
    match event
    case Submit(action) =>
      s' == if IsNew(action) && action.id !in s.actions
            then s.(actions := s.actions[action.id := action], failures := s.failures[action.id := 0]) else s
    case Wait(to) =>
      if s.now <= to
      then
        && s' == s.(now := to, running := s'.running)
        && forall attempt :: attempt in s'.running <==> attempt in s.running && to <= attempt.startedAt + TIMEOUT
      else s' == s
    case Pass(limit, connections) =>
      && s' == s.(actions := s'.actions, running := s'.running)
      && ((exists started ::
             && s'.running == s.running + started
             && Queue.Passed(s.actions, s'.actions, s.now, executors, limit, connections, started))
          || (s'.running == s.running
              && exists dropped, id :: Queue.Aborted(s.actions, s'.actions, s.now, executors, dropped, id)))
    case Complete(i, succeeded) => if i < |s.running| then Queue.Finished(s, s', i, succeeded) else s' == s
  }

  /** The queue before the first event, and after each of them. */
  ghost predicate IsHistory(trace: seq<State>, events: seq<Event>, executors: set<Id>) {
    && |trace| == |events| + 1
    && forall n :: 0 <= n < |events| ==> Happens(trace[n], trace[n + 1], events[n], executors)
  }

  lemma HistoryGoesOn(trace: seq<State>, events: seq<Event>, n: nat, s: State, executors: set<Id>)
    requires n < |events| && IsHistory(trace, events[..n], executors) && Happens(trace[n], s, events[n], executors)
    ensures IsHistory(trace + [s], events[..n + 1], executors)
  {
    hide Happens;
    forall m | 0 <= m < n + 1 ensures Happens((trace + [s])[m], (trace + [s])[m + 1], events[..n + 1][m], executors) {
      if m < n {
        assert events[..n][m] == events[m];
      }
    }
  }

  /** One event. */
  method Handle(queue: Queue, event: Event)
    requires queue.Valid()
    modifies queue
    ensures queue.Valid() && Queue.FinishedStay(old(queue.actions), queue.actions) && old(queue.checkouts) <= queue.checkouts
    ensures Happens(old(queue.Current()), queue.Current(), event, queue.executors)
  {
    hide Queue.Ok, Queue.LeasesOk, Queue.Passed, Queue.Aborted, Queue.Finished;
    match event {
      case Submit(action) =>
        if IsNew(action) {
          var _ := queue.Create(action);
        }
      case Wait(to) =>
        if queue.now <= to {
          queue.Tick(to);
        }
      case Pass(limit, connections) =>
        var _, _, _ := queue.FindActions(limit, connections);
      case Complete(i, succeeded) =>
        if i < |queue.running| {
          queue.Finish(i, succeeded);
        }
    }
  }

  /**
    Any run of the queue, with what happened. A pending action always has attempts left; one whose retries are exceeded has
    failed exactly as often as it may; no action runs twice at once, or is checked out twice within a minute; and a finished
    action is never touched, let alone run, again.
   */
  method Run(queue: Queue, events: seq<Event>) returns (ghost trace: seq<State>)
    requires queue.Valid()
    modifies queue
    ensures queue.Valid() && old(queue.checkouts) <= queue.checkouts && Queue.Apart(queue.checkouts)
    ensures Queue.FinishedStay(old(queue.actions), queue.actions)
    ensures forall id :: id in queue.actions && queue.actions[id].status == Pending ==>
      queue.actions[id].attemptCount < queue.actions[id].maxAttemptCount
    ensures forall id :: id in queue.actions && queue.actions[id].status == RetriesExceeded ==>
      id in queue.failures && queue.failures[id] == queue.actions[id].maxAttemptCount
    ensures forall i, j :: 0 <= i < j < |queue.running| ==> queue.running[i].action.id != queue.running[j].action.id
    ensures IsHistory(trace, events, queue.executors)
    ensures trace[0] == old(queue.Current()) && trace[|events|] == queue.Current()
  {
    hide IsHistory, Happens;
    trace := [queue.Current()];
    HistoryStarts(queue.Current(), queue.executors);
    for n := 0 to |events|
      invariant queue.Valid() && Queue.FinishedStay(old(queue.actions), queue.actions)
      invariant old(queue.checkouts) <= queue.checkouts
      invariant |trace| == n + 1 && IsHistory(trace, events[..n], queue.executors)
      invariant trace[0] == old(queue.Current()) && trace[n] == queue.Current()
    {
      Handle(queue, events[n]);
      HistoryGoesOn(trace, events, n, queue.Current(), queue.executors);
      trace := trace + [queue.Current()];
    }
    assert events[..|events|] == events;
  }

  lemma HistoryStarts(s: State, executors: set<Id>)
    ensures IsHistory([s], [], executors)
  {
  }

  // ------------------------------------------------------------ several monitors

  /** What processes do to the rows of the queue, each going by the action as it found it, however long ago. */
  datatype Act = CheckOutOf(id: Id) | FailOf(found: DomainAction) | SucceedOf(id: Id) | ErrorOf(id: Id) | Insert(action: DomainAction) | Pause

  /** One act at `now`. */
  ghost predicate Acts(rows: map<Id, DomainAction>, act: Act, now: Time, after: map<Id, DomainAction>) {
    match act
    case CheckOutOf(id) => id in rows && CanCheckOut(rows[id], now) && after == rows[id := rows[id].(blockedUntil := now + LEASE)]
    case FailOf(found) => found.id in rows && after == rows[found.id := Failed(rows[found.id], found, now)]
    case SucceedOf(id) => id in rows && after == rows[id := rows[id].(status := Success)]
    case ErrorOf(id) => id in rows && after == rows[id := rows[id].(status := Errored, blockedUntil := now)]
    case Insert(action) => action.id !in rows && after == rows[action.id := action]
    case Pause => after == rows
  }

  /** The act ends the lease of the action at once: a last failure, or an error. */
  predicate EndsLease(act: Act, id: Id) {
    || act == ErrorOf(id)
    || (act.FailOf? && act.found.id == id && act.found.maxAttemptCount <= act.found.attemptCount + 1)
  }

  ghost predicate AreActs(trace: seq<map<Id, DomainAction>>, acts: seq<Act>, times: seq<Time>) {
    && |trace| == |acts| + 1 && |times| == |acts|
    && (forall i: nat {:trigger acts[i]} :: i < |acts| ==> Acts(trace[i], acts[i], times[i], trace[i + 1]))
    && forall i, j :: 0 <= i < j < |times| ==> times[i] <= times[j]
  }

  /** A lease holds until its action has failed for the last time or errored. */
  lemma {:induction false} LeaseHolds(trace: seq<map<Id, DomainAction>>, acts: seq<Act>, times: seq<Time>, i: nat, j: nat, id: Id)
    requires AreActs(trace, acts, times) && i < j < |trace| && acts[i] == CheckOutOf(id)
    requires forall k :: i < k < j ==> !EndsLease(acts[k], id)
    ensures id in trace[j] && times[i] + LEASE <= trace[j][id].blockedUntil
  {
    assert Acts(trace[j - 1], acts[j - 1], times[j - 1], trace[j]);
    if i + 1 < j {
      LeaseHolds(trace, acts, times, i, j - 1, id);
    }
  }

  /**
    However many processes check actions out, and however outdated what they have found: an action that is checked out
    twice within a minute has failed for the last time or errored in between.
   */
  lemma CheckOutsAreApart(trace: seq<map<Id, DomainAction>>, acts: seq<Act>, times: seq<Time>, i: nat, j: nat, id: Id)
    requires AreActs(trace, acts, times) && i < j < |acts| && acts[i] == acts[j] == CheckOutOf(id)
    ensures times[j] < times[i] + LEASE ==> exists k :: i < k < j && EndsLease(acts[k], id)
  {
    if forall k :: i < k < j ==> !EndsLease(acts[k], id) {
      LeaseHolds(trace, acts, times, i, j, id);
      assert Acts(trace[j], acts[j], times[j], trace[j + 1]);
    }
  }
}
