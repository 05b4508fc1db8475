/** Where the two hypotheses of the safety theorems are needed, and exactly when they fail. */
module DeliveryLimits {
  import opened Common
  import opened DeliveryRows
  import opened DeliveryClaims
  import opened DeliverySystem
  import opened DeliveryInvariant

  // ---------------------------------------------------------------- the key of the claim UPDATE

  predicate Alone(rows: map<nat, Row>, id: nat, now: nat)
    requires id in rows
  {
    forall j :: j in rows && j != id && Claimable(rows[j].status) && Due(rows[j], now) ==> !SameKey(rows[j], rows[id])
  }

  /** A selected, needed and free delivery is returned exactly when no other due row has its event and agent. */
  lemma ReturnedIffAlone(db: Db, reserved: set<nat>, id: nat, board: Board, now: nat, uuid: nat)
    requires id in db.rows && Claimable(db.rows[id].status) && Due(db.rows[id], now)
    requires db.rows[id].session !in reserved && !Unneeded(board, id, Continuation(db, board, id, db.rows[id]))
    ensures ClaimOne(db, reserved, id, db.rows[id], board, now, uuid).item.Some? <==> Alone(db.rows, id, now)
  {
    var hits := Hits(db.rows, db.rows[id], now);
    assert id in hits;
    if Alone(db.rows, id, now) {
      assert hits == {id};
    } else {
      var j :| j in db.rows && j != id && Claimable(db.rows[j].status) && Due(db.rows[j], now) &&
        SameKey(db.rows[j], db.rows[id]);
      assert {id, j} <= hits && |{id, j}| == 2;
      SubsetSize({id, j}, hits);
    }
  }

  lemma {:induction false} SubsetSize<T>(a: set<T>, b: set<T>)
    requires a <= b
    ensures |a| <= |b|
  {
    if a != {} {
      var x :| x in a;
      SubsetSize(a - {x}, b - {x});
    }
  }

  /** Otherwise every one of those rows is claimed under one message id, and none gets a worker. */
  lemma TwinsAreClaimedTogether(db: Db, reserved: set<nat>, id: nat, j: nat, board: Board, now: nat, uuid: nat)
    requires id in db.rows && Claimable(db.rows[id].status) && Due(db.rows[id], now)
    requires db.rows[id].session !in reserved && !Unneeded(board, id, Continuation(db, board, id, db.rows[id]))
    requires j in db.rows && j != id && Claimable(db.rows[j].status) && Due(db.rows[j], now)
    requires SameKey(db.rows[j], db.rows[id])
    ensures var c := ClaimOne(db, reserved, id, db.rows[id], board, now, uuid);
      c.item == None && c.db.rows[id].status == Processing && c.db.rows[j].status == Processing &&
      c.db.rows[id].message == c.db.rows[j].message == Some(MessageFor(db.rows[id], uuid))
  {
    ReturnedIffAlone(db, reserved, id, board, now, uuid);
    assert !Alone(db.rows, id, now);
  }

  // ---------------------------------------------------------------- a raced rebind

  /** Recording a started turn raises exactly when the continuation no longer owns its execution. */
  lemma StartRaisesIffRaced(s: System, session: nat, now: nat)
    requires Inv(s) && WorkerEnabled(s, session, NoteStarted(now))
    ensures StartOutcome(s, s.workers[session], now).Committed? <==> RebindGranted(s, session)
  {
    assert WorkerOk(s, session);
  }

  /** A continuation's turn is running, but its execution was handed over before the start was recorded. */
  ghost predicate Raced(s: System, session: nat, now: nat) {
    WorkerEnabled(s, session, NoteStarted(now)) && !RebindGranted(s, session) &&
    LiveMail(s.mail, s.workers[session].item.message)
  }

  lemma RacedIsClassified(s: System, session: nat, now: nat)
    requires Inv(s) && WorkerEnabled(s, session, NoteStarted(now)) && !RebindGranted(s, session)
    ensures ApplyWorker(s, session, NoteStarted(now)) == Advance(s, session, Closing(ToFinish(None, false, true), true))
  {
    StartRaisesIffRaced(s, session, now);
  }

  /** A raced start is taken for a failure before the start: the worker's remaining writes leave the delivery to be
      retried while its turn runs, and the retry will be submitted under another message id. */
  lemma RacedStartIsRetried(s: System, session: nat, now: nat, uuid: nat)
    requires Inv(s) && Raced(s, session, now)
    ensures var failed := ApplyWorker(s, session, NoteStarted(now));
      WorkerEnabled(failed, session, Clear) &&
      var cleared := ApplyWorker(failed, session, Clear);
      WorkerEnabled(cleared, session, Close(now)) &&
      RetriedWhileRunning(ApplyWorker(cleared, session, Close(now)), s.workers[session].item, uuid)
  {
    hide Inv, MarkStarted, RowOk, RetryDelay;
    RacedWorker(s, session, now);
    RacedIsClassified(s, session, now);
  }

  /** The delivery waits for a retry under a fresh id while the turn of its message is running. */
  predicate RetriedWhileRunning(s: System, item: Item, uuid: nat) {
    item.id in s.db.rows && s.db.rows[item.id].status == Retry && s.db.rows[item.id].message == Some(item.message) &&
    LiveMail(s.mail, item.message) && MessageFor(s.db.rows[item.id], uuid) == uuid
  }

  predicate HoldsContinuation(s: System, session: nat)
    requires session in s.workers
  {
    var item := s.workers[session].item;
    item.id in s.db.rows && s.db.rows[item.id].turn.Some? && s.db.rows[item.id].message == Some(item.message)
  }

  lemma RacedWorker(s: System, session: nat, now: nat)
    requires Inv(s) && Raced(s, session, now)
    ensures HoldsContinuation(s, session)
  {
    assert WorkerOk(s, session);
  }

  /** Such a state satisfies the invariant: the card was handed over while its continuation was starting. */
  lemma RacedStateExists()
    ensures exists s: System, session: nat, now: nat :: Inv(s) && Raced(s, session, now)
  {
    var seen := Row(0, 0, 0, 0, 0, Retry, 1, Some(5), Some(TurnCompleted), Some(0), None, None, map[5 := false]);
    var row := seen.(status := Processing, attempts := 2, turnStatus := Some(Queueing), message := Some(1));
    var s := System(Db(map[0 := row], map[]), map[0 := Turned(5, false), 1 := Turned(7, true)], {5, 7},
      map[0 := 0, 1 := 0],
      map[0 := Worker(Item(0, seen, 1, Some(5)), Called)], Idle, {});
    assert RowOk(s, 0);
    assert WorkerOk(s, 0);
    assert Inv(s) && Raced(s, 0, 0);
  }
}
