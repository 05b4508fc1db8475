/**
 The store in the form of the code: the two tables as fields that each transaction updates in place,
 proved equal to the transaction functions the protocol is reasoned about with.
 */
module DeliveryStore {
  import opened Common
  import opened DeliveryRows
  import opened DeliveryClaims

  /** The batch that the selection from position `k` on completes. */
  ghost predicate Completes(all: Batch, claimed: seq<Item>, db: Db, selected: map<nat, Row>, reserved: set<nat>,
                            ids: seq<nat>, k: nat,
                            limit: nat, board: Board, now: nat, uuids: map<nat, nat>)
  {
    k <= |ids| && (forall j :: 0 <= j < |ids| ==> ids[j] in selected && ids[j] in uuids) &&
    var rest := ClaimLoop(db, selected, reserved, ids[k..], |claimed|, limit, board, now, uuids);
    all == Batch(rest.db, claimed + rest.items)
  }

  lemma CompletesNext(all: Batch, claimed: seq<Item>, db: Db, selected: map<nat, Row>, reserved: set<nat>,
                      ids: seq<nat>, k: nat,
                      limit: nat, board: Board, now: nat, uuids: map<nat, nat>)
    requires Completes(all, claimed, db, selected, reserved, ids, k, limit, board, now, uuids) && k < |ids|
    ensures var c := ClaimOne(db, reserved, ids[k], selected[ids[k]], board, now, uuids[ids[k]]);
      if c.item == None then Completes(all, claimed, c.db, selected, reserved, ids, k + 1, limit, board, now, uuids)
      else if |claimed| + 1 >= limit then all == Batch(c.db, claimed + [c.item.value])
      else Completes(all, claimed + [c.item.value], c.db, selected, reserved + {selected[ids[k]].session}, ids, k + 1,
        limit, board, now, uuids)
  {
    assert ids[k..][0] == ids[k] && ids[k..][1..] == ids[k + 1..];
    var c := ClaimOne(db, reserved, ids[k], selected[ids[k]], board, now, uuids[ids[k]]);
    if c.item.Some? && |claimed| + 1 < limit {
      var rest := ClaimLoop(c.db, selected, reserved + {selected[ids[k]].session}, ids[k + 1..], |claimed| + 1, limit,
        board, now, uuids);
      assert claimed + ([c.item.value] + rest.items) == (claimed + [c.item.value]) + rest.items;
    }
  }

  predicate Untraced(r: Row) {
    r.status == Processing && r.turn == None && r.message == None
  }

  predicate Traced(r: Row) {
    r.status == Processing && (r.turn.Some? || r.message.Some?)
  }

  class Store {
    var rows: map<nat, Row>
    var executions: map<nat, Execution>

    ghost function View(): Db
      reads this
    {
      Db(rows, executions)
    }

    constructor ()
      ensures View() == Db(map[], map[])
    {
      rows, executions := map[], map[];
    }

    // -------------------------------------------------------------- executions

    method OwnedBy(id: nat, turn: nat) returns (owned: bool)
      ensures owned <==> id in rows && OwnsExecution(View(), rows[id], turn)
    {
      if id !in rows || rows[id].record !in executions { return false; }
      var e := executions[rows[id].record];
      owned := e.active && e.agent == rows[id].agent && e.session == rows[id].session && e.turn == Some(turn);
    }

    /** rebind_active_delivery_execution; false stands for the exception. */
    method RebindActiveExecution(id: nat, previous: nat, turn: nat, now: nat) returns (ok: bool)
      modifies this`executions
      ensures ok <==> Rebind(old(View()), id, previous, turn, now).Committed?
      ensures View() == if ok then Rebind(old(View()), id, previous, turn, now).db else old(View())
    {
      ok := OwnedBy(id, previous);
      if ok {
        var record := rows[id].record;
        executions := executions[record := executions[record].(turn := Some(turn), updatedAt := now)];
      }
    }

    method StopActiveExecution(id: nat, turn: nat, now: nat) returns (stopped: bool)
      modifies this`executions
      ensures View() == StopActive(old(View()), id, turn, now)
      ensures stopped <==> id in old(rows) && OwnsExecution(old(View()), old(rows)[id], turn)
    {
      stopped := OwnedBy(id, turn);
      if stopped {
        var record := rows[id].record;
        executions := executions[record := executions[record].(active := false, updatedAt := now)];
      }
    }

    // -------------------------------------------------------------- restart

    /** Two UPDATEs: a claimed row without any trace goes back, every other one becomes due. */
    method RecoverTaskDeliveries(now: nat)
      modifies this`rows
      ensures View() == Recover(old(View()), now)
    {
      rows := Update(rows, Untraced, (r: Row) => r.(status := Pending, startedAt := None, nextAttempt := None));
      rows := Update(rows, Traced,
        (r: Row) => r.(nextAttempt := if r.nextAttempt == None then Some(now) else r.nextAttempt));
      forall id | id in rows ensures rows[id] == Recover(old(View()), now).rows[id] { }
    }

    method RecoverRetryableFailed(ids: seq<nat>, current: set<nat>, tasks: map<nat, TaskView>, now: nat)
      modifies this
      ensures View() == RecoverFailed(old(View()), ids, current, tasks, now)
    {
      var k := 0;
      assert ids[0..] == ids;
      while k < |ids|
        invariant k <= |ids|
        invariant RecoverFailed(View(), ids[k..], current, tasks, now)
          == RecoverFailed(old(View()), ids, current, tasks, now)
      {
        assert ids[k..][1..] == ids[k + 1..];
        RecoverOne(ids[k], ids[k] in current, tasks, now);
        k := k + 1;
      }
    }

    method RecoverOne(id: nat, current: bool, tasks: map<nat, TaskView>, now: nat)
      modifies this
      ensures View() == RecoverFailedOne(old(View()), id, current, tasks, now)
    {
      if id !in rows || rows[id].status != Failed || !RecoverableEnd(rows[id].turnStatus) { return; }
      var r := rows[id];
      if !current {
        if r.turn.Some? { var _ := StopActiveExecution(id, r.turn.value, now); }
        rows := rows[id := r.(status := Canceled, nextAttempt := None)];
        return;
      }
      if |r.turns| >= MAX_ACCEPTED_TURNS { return; }
      if ActiveExecution(Db(rows, executions), tasks, id, r.turn) { return; }
      rows := rows[id := r.(status := Retry, nextAttempt := None)];
    }

    // -------------------------------------------------------------- claim

    /** The claim loop; `ids` is the selection in its order, `uuids` the fresh message ids. */
    method ClaimTaskDeliveries(exclude: set<nat>, ids: seq<nat>, limit: nat, board: Board, now: nat,
                               uuids: map<nat, nat>)
      returns (claimed: seq<Item>)
      requires forall k :: 0 <= k < |ids| ==> ids[k] in rows && ids[k] in uuids
      modifies this`rows
      ensures Batch(View(), claimed) == ClaimBatch(old(View()), exclude, ids, limit, board, now, uuids)
    {
      var selected := rows;
      var reserved := exclude + ProcessingSessions(rows);
      claimed := [];
      ghost var all := ClaimBatch(View(), exclude, ids, limit, board, now, uuids);
      var k := 0;
      assert ids[0..] == ids;
      while k < |ids|
        invariant Completes(all, claimed, View(), selected, reserved, ids, k, limit, board, now, uuids)
      {
        var id := ids[k];
        CompletesNext(all, claimed, View(), selected, reserved, ids, k, limit, board, now, uuids);
        var item := ClaimNext(reserved, id, selected[id], board, now, uuids[id]);
        if item.Some? {
          claimed := claimed + [item.value];
          if |claimed| >= limit { return; }
          reserved := reserved + {selected[id].session};
        }
        k := k + 1;
      }
    }

    /** One iteration of the claim loop. */
    method ClaimNext(reserved: set<nat>, id: nat, seen: Row, board: Board, now: nat, uuid: nat)
      returns (item: Option<Item>)
      modifies this`rows
      ensures Claim(View(), item) == ClaimOne(old(View()), reserved, id, seen, board, now, uuid)
    {
      var continuation := Continuation(Db(rows, executions), board, id, seen);
      item := None;
      if Unneeded(board, id, continuation) {
        CancelByKey(seen);
      } else if seen.session !in reserved {
        var message := MessageFor(seen, uuid);
        var count := ClaimByKey(seen, message, continuation.Some?, now);
        if count == 1 { item := Some(Item(id, seen, message, continuation)); }
      }
    }

    method CancelByKey(seen: Row)
      modifies this`rows
      ensures View() == CancelKey(old(View()), seen)
    {
      rows := Update(rows,
        (r: Row) => SameKey(r, seen) && Claimable(r.status),
        (r: Row) => r.(status := Canceled));
    }

    /** The claim UPDATE and its row count. */
    method ClaimByKey(seen: Row, message: nat, continuation: bool, now: nat) returns (count: nat)
      modifies this`rows
      ensures View() == ClaimKey(old(View()), seen, message, continuation, now)
      ensures count == |Hits(old(rows), seen, now)|
    {
      count := |Hits(rows, seen, now)|;
      rows := Update(rows,
        (r: Row) => SameKey(r, seen) && Claimable(r.status) && Due(r, now),
        (r: Row) => ClaimedRow(r, message, continuation, now));
    }

    // -------------------------------------------------------------- the end of an execution

    method FinishTaskDelivery(id: nat, result: Option<TurnStatus>, ok: bool, retry: bool, reset: bool, now: nat)
      modifies this`rows
      ensures View() == Finish(old(View()), id, result, ok, retry, reset, now)
    {
      if id !in rows { return; }
      var r := rows[id];
      var status, next := Completed, None;
      if retry {
        status, next := Retry, Some(now + RetryDelay(r.attempts));
      } else if !ok {
        status := Failed;
      }
      rows := rows[id := r.(status := status, nextAttempt := next,
                            turnStatus := if result.Some? then result else r.turnStatus,
                            message := if reset then None else r.message)];
    }

    method FailClaimedTaskDelivery(id: nat, turn: nat, turnStatus: TurnStatus, now: nat) returns (failed: bool)
      modifies this
      ensures View() == FailClaimed(old(View()), id, turn, turnStatus, now)
      ensures failed <==> id in old(rows) && old(rows)[id].status == Processing && old(rows)[id].turn == Some(turn)
                          && OwnsExecution(old(View()), old(rows)[id], turn)
    {
      var owned := OwnedBy(id, turn);
      if !owned || rows[id].status != Processing || rows[id].turn != Some(turn) { return false; }
      rows := rows[id := rows[id].(status := Failed, turnStatus := Some(turnStatus), nextAttempt := None)];
      failed := StopActiveExecution(id, turn, now);
    }

    method MarkWaiting(id: nat, waiting: Status, continuation: bool)
      modifies this`rows
      ensures View() == Wait(old(View()), id, waiting, continuation)
    {
      if id in rows && rows[id].status == Processing && (rows[id].turn == None || continuation) {
        rows := rows[id := rows[id].(status := waiting, nextAttempt := None, startedAt := None)];
      }
    }

    method ResumeWaitingForSession(session: nat)
      modifies this`rows
      ensures View() == ResumeSession(old(View()), session)
    {
      rows := Update(rows, (r: Row) => r.status == WaitingSession && r.session == session, Resume);
    }

    method ResumeWaitingForPermission()
      modifies this`rows
      ensures View() == ResumePermission(old(View()))
    {
      rows := Update(rows, (r: Row) => r.status == WaitingPermission, Resume);
    }

    // -------------------------------------------------------------- turns

    /** The rebind comes first; a row that does not match afterwards rolls it back. */
    method MarkTurnStarted(id: nat, turn: nat, previous: Option<nat>, rebind: bool, now: nat) returns (ok: bool)
      modifies this
      ensures ok <==> MarkStarted(old(View()), id, turn, previous, rebind, now).Committed?
      ensures View() == if ok then MarkStarted(old(View()), id, turn, previous, rebind, now).db else old(View())
    {
      var begun := executions;
      if rebind {
        if previous == None { return false; }
        var bound := RebindActiveExecution(id, previous.value, turn, now);
        if !bound { return false; }
      }
      if id !in rows || rows[id].status != Processing || (previous.Some? && rows[id].turn != previous) {
        executions := begun;
        return false;
      }
      var r := rows[id];
      var ledger := if turn in r.turns then r.turns else r.turns[turn := false];
      rows := rows[id := r.(turn := Some(turn), turnStatus := Some(InProgress), startedAt := Some(now),
                            nextAttempt := Some(now + RECHECK_DELAY), turns := ledger)];
      ok := true;
    }

    method MarkQueueState(id: nat, state: TurnStatus, previous: Option<nat>, now: nat) returns (ok: bool)
      modifies this`rows
      ensures ok <==> MarkQueue(old(View()), id, state, previous, now).Committed?
      ensures View() == if ok then MarkQueue(old(View()), id, state, previous, now).db else old(View())
    {
      ok := id in rows && rows[id].status == Processing && rows[id].turn == previous;
      if ok {
        rows := rows[id := rows[id].(turnStatus := Some(state), nextAttempt := Some(now + RECHECK_DELAY))];
      }
    }

    method ClearTaskDeliveryQueueing(id: nat, previous: Option<nat>)
      modifies this`rows
      ensures View() == ClearQueueing(old(View()), id, previous)
    {
      if id in rows && rows[id].status == Processing && rows[id].turnStatus == Some(Queueing) &&
        rows[id].turn == previous {
        rows := rows[id := rows[id].(turnStatus := None)];
      }
    }

    method AcknowledgeTurn(id: nat, turn: nat)
      modifies this`rows
      ensures View() == Acknowledge(old(View()), id, turn)
    {
      if id in rows && rows[id].status == Processing && rows[id].turn == Some(turn) && turn in rows[id].turns {
        rows := rows[id := rows[id].(turns := rows[id].turns[turn := true])];
      }
    }

    // -------------------------------------------------------------- reconciliation

    method DeferReconciliation(id: nat, now: nat)
      modifies this`rows
      ensures View() == Defer(old(View()), id, now)
    {
      if id in rows && rows[id].status == Processing {
        rows := rows[id := rows[id].(nextAttempt := Some(now + RECHECK_DELAY))];
      }
    }

    method CancelTaskDelivery(id: nat)
      modifies this`rows
      ensures View() == CancelStale(old(View()), id)
    {
      if id in rows && rows[id].status == Processing && rows[id].turn == None {
        rows := rows[id := rows[id].(status := Canceled)];
      }
    }

    /** Compare and set on the caller's copy; a hit that may stop also stops the copied turn's execution. */
    method CancelReconciledDelivery(id: nat, seen: Row, turnStatus: TurnStatus, allowStop: bool, now: nat)
      returns (hit: bool)
      modifies this
      ensures hit <==> CancelHits(old(View()), id, seen, allowStop)
      ensures View() == CancelReconciled(old(View()), id, seen, turnStatus, allowStop, now)
    {
      if id !in rows { return false; }
      var r := rows[id];
      hit := r.status == seen.status && r.turn == seen.turn && r.turnStatus == seen.turnStatus
             && (allowStop || !ExecutionBlocks(Db(rows, executions), r));
      if !hit { return; }
      rows := rows[id := r.(status := Canceled, turnStatus := Some(turnStatus), nextAttempt := None)];
      if allowStop && seen.turn.Some? { var _ := StopActiveExecution(id, seen.turn.value, now); }
    }

    /** The driver's _cancel_reconciled: a miss only defers. */
    method CancelReconciledOrDefer(id: nat, seen: Row, turnStatus: TurnStatus, allowStop: bool, now: nat)
      returns (canceled: bool)
      modifies this
      ensures canceled <==> CancelHits(old(View()), id, seen, allowStop)
      ensures View() == CancelOrDefer(old(View()), id, seen, turnStatus, allowStop, now)
    {
      canceled := CancelReconciledDelivery(id, seen, turnStatus, allowStop, now);
      if !canceled { DeferReconciliation(id, now); }
    }
  }
}
