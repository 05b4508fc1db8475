/**
 What one step may change: deliveries keep their identity and their ledger, an execution moves only
 together with the delivery that owns it, and a message id is replaced only for two reasons.
 */
module DeliveryActions {
  import opened Common
  import opened DeliveryRows
  import opened DeliveryClaims
  import opened DeliverySystem
  import opened DeliveryInvariant
  import opened DeliverySafety
  import DeliveryBatch
  import DeliveryWorkerSteps
  import DeliveryReconcileSteps

  // ---------------------------------------------------------------- identity and ledger

  /** The turn a claimed delivery has just recorded. */
  function RunningTurn(r: Row): set<nat> {
    if r.status == Processing && r.turnStatus == Some(InProgress) && r.turn.Some? then {r.turn.value} else {}
  }

  /** The same delivery; its ledger forgets no turn and gains at most the one it now runs. */
  predicate Same(r: Row, r': Row) {
    r'.event == r.event && r'.agent == r.agent && r'.revision == r.revision && r'.session == r.session &&
    r'.record == r.record && r.turns.Keys <= r'.turns.Keys <= r.turns.Keys + RunningTurn(r')
  }

  /** Deliveries are only added, without turns. */
  ghost predicate Grows(rows: map<nat, Row>, rows': map<nat, Row>) {
    rows.Keys <= rows'.Keys && (forall i :: i in rows ==> Same(rows[i], rows'[i])) &&
    (forall i :: i in rows' && i !in rows ==> rows'[i].turns == map[])
  }

  // ---------------------------------------------------------------- executions

  /** The delivery's recorded turn is the one that owns the record's active execution. */
  predicate Owns(db: Db, i: nat, k: nat) {
    i in db.rows && k in db.executions && db.rows[i].record == k && db.rows[i].turn.Some? &&
    OwnsExecution(db, db.rows[i], db.rows[i].turn.value)
  }

  /** Delivery `i` ended and took its execution with it. */
  predicate Stopped(db: Db, db': Db, i: nat, k: nat) {
    i in db'.rows && k in db'.executions && k in db.executions &&
    (db'.rows[i].status == Canceled || db'.rows[i].status == Failed) &&
    db'.executions[k] == db.executions[k].(active := false, updatedAt := db'.executions[k].updatedAt)
  }

  /** Delivery `i` and its execution went to the same new turn. */
  predicate Rebound(db: Db, db': Db, i: nat, k: nat) {
    i in db'.rows && k in db'.executions && k in db.executions && RunningTurn(db'.rows[i]) != {} &&
    db'.executions[k] == db.executions[k].(turn := db'.rows[i].turn, updatedAt := db'.executions[k].updatedAt)
  }

  predicate MovedBy(db: Db, db': Db, i: nat, k: nat) {
    Owns(db, i, k) && (Stopped(db, db', i, k) || Rebound(db, db', i, k))
  }

  /** Every execution that changed was moved by the one delivery that owned it. */
  ghost predicate Follows(db: Db, db': Db) {
    db'.executions.Keys == db.executions.Keys &&
    forall k :: k in db.executions && db'.executions[k] != db.executions[k] ==> exists i :: MovedBy(db, db', i, k)
  }

  ghost predicate MessagesKept(rows: map<nat, Row>, rows': map<nat, Row>) {
    forall i :: i in rows ==> i in rows' && rows'[i].message == rows[i].message
  }

  ghost predicate Orderly(db: Db, db': Db) {
    Grows(db.rows, db'.rows) && Follows(db, db') && MessagesKept(db.rows, db'.rows)
  }

  // ---------------------------------------------------------------- transactions

  /** Only one row changes, and it stays the same delivery. */
  ghost predicate RowWrite(db: Db, db': Db, i: nat) {
    db' == db || (i in db.rows && i in db'.rows && db' == Put(db, i, db'.rows[i]) && Same(db.rows[i], db'.rows[i])
                  && db'.rows[i].message == db.rows[i].message)
  }

  lemma RowWriteOrderly(db: Db, db': Db, i: nat)
    requires RowWrite(db, db', i)
    ensures Orderly(db, db')
  {
  }

  lemma FinishOrderly(db: Db, i: nat, result: Option<TurnStatus>, ok: bool, retry: bool, now: nat)
    ensures Orderly(db, Finish(db, i, result, ok, retry, false, now))
  {
    RowWriteOrderly(db, Finish(db, i, result, ok, retry, false, now), i);
  }

  /** The reset of an unconfirmed message is the one write of a claimed row that drops its message id. */
  lemma ResetGrows(db: Db, i: nat, now: nat)
    ensures var db' := Finish(db, i, Some(Unconfirmed), false, true, true, now);
      Grows(db.rows, db'.rows) && Follows(db, db')
  {
  }

  lemma DeferOrderly(db: Db, i: nat, now: nat)
    ensures Orderly(db, Defer(db, i, now))
  {
    RowWriteOrderly(db, Defer(db, i, now), i);
  }

  lemma WaitOrderly(db: Db, i: nat, waiting: Status, continuation: bool)
    ensures Orderly(db, Wait(db, i, waiting, continuation))
  {
    RowWriteOrderly(db, Wait(db, i, waiting, continuation), i);
  }

  lemma CancelStaleOrderly(db: Db, i: nat)
    ensures Orderly(db, CancelStale(db, i))
  {
    RowWriteOrderly(db, CancelStale(db, i), i);
  }

  lemma ClearOrderly(db: Db, i: nat, previous: Option<nat>)
    ensures Orderly(db, ClearQueueing(db, i, previous))
  {
    RowWriteOrderly(db, ClearQueueing(db, i, previous), i);
  }

  lemma QueueOrderly(db: Db, i: nat, state: TurnStatus, previous: Option<nat>, now: nat)
    requires MarkQueue(db, i, state, previous, now).Committed?
    ensures Orderly(db, MarkQueue(db, i, state, previous, now).db)
  {
    RowWriteOrderly(db, MarkQueue(db, i, state, previous, now).db, i);
  }

  lemma AcknowledgeOrderly(db: Db, i: nat, turn: nat)
    ensures Orderly(db, Acknowledge(db, i, turn))
  {
    RowWriteOrderly(db, Acknowledge(db, i, turn), i);
  }

  lemma RecoverOrderly(db: Db, now: nat)
    ensures Orderly(db, Recover(db, now))
  {
  }

  /** The same delivery with the same ledger. */
  predicate Unchanged(r: Row, r': Row) {
    r'.event == r.event && r'.agent == r.agent && r'.revision == r.revision && r'.session == r.session &&
    r'.record == r.record && r'.turns == r.turns
  }

  ghost predicate LedgersKept(rows: map<nat, Row>, rows': map<nat, Row>) {
    rows'.Keys == rows.Keys && forall i :: i in rows ==> Unchanged(rows[i], rows'[i])
  }

  lemma KeptGrows(rows: map<nat, Row>, rows': map<nat, Row>)
    requires LedgersKept(rows, rows')
    ensures Grows(rows, rows')
  {
    forall i | i in rows ensures Same(rows[i], rows'[i]) { assert Unchanged(rows[i], rows'[i]); }
  }

  lemma KeptTwice(rows: map<nat, Row>, rows1: map<nat, Row>, rows2: map<nat, Row>)
    requires LedgersKept(rows, rows1) && LedgersKept(rows1, rows2)
    ensures LedgersKept(rows, rows2)
  {
    forall i | i in rows ensures Unchanged(rows[i], rows2[i]) {
      assert Unchanged(rows[i], rows1[i]) && Unchanged(rows1[i], rows2[i]);
    }
  }

  lemma UpdateKeepsLedgers(rows: map<nat, Row>, hit: Row -> bool, set_: Row -> Row)
    requires forall r: Row :: Unchanged(r, set_(r))
    ensures LedgersKept(rows, Update(rows, hit, set_))
  {
  }

  lemma UpdateOrderly(db: Db, hit: Row -> bool, set_: Row -> Row)
    requires forall r: Row :: Unchanged(r, set_(r)) && set_(r).message == r.message
    ensures Orderly(db, db.(rows := Update(db.rows, hit, set_)))
  {
    hide LedgersKept, Grows;
    UpdateKeepsLedgers(db.rows, hit, set_);
    KeptGrows(db.rows, Update(db.rows, hit, set_));
  }

  lemma UpdatesOrderly(db: Db, agent: nat, revision: nat, record: nat)
    ensures Orderly(db, ReplaceSession(db, agent, revision))
    ensures Orderly(db, RemoveAgent(db, agent))
    ensures Orderly(db, PokeQueued(db, record))
  {
    hide Orderly, Update;
    var cancel := (r: Row) => r.(status := Canceled);
    UpdateOrderly(db,
      (r: Row) => r.agent == agent && r.revision == revision &&
        (Claimable(r.status) || r.status == WaitingSession), cancel);
    UpdateOrderly(db, (r: Row) => r.agent == agent && (Claimable(r.status) || r.status == WaitingSession), cancel);
    UpdateOrderly(db, (r: Row) => r.status == Processing && QueuePending(r) && r.record == record,
      (r: Row) => r.(nextAttempt := None));
  }

  lemma ResumesOrderly(db: Db, session: nat)
    ensures Orderly(db, ResumePermission(db))
    ensures Orderly(db, ResumeSession(db, session))
  {
    hide Orderly, Update;
    UpdateOrderly(db, (r: Row) => r.status == WaitingPermission, Resume);
    UpdateOrderly(db, (r: Row) => r.status == WaitingSession && r.session == session, Resume);
  }

  lemma MarkStartedOrderly(db: Db, i: nat, turn: nat, previous: Option<nat>, rebind: bool, now: nat)
    ensures var t := MarkStarted(db, i, turn, previous, rebind, now);
      t.Committed? ==> Orderly(db, t.db)
  {
    var t := MarkStarted(db, i, turn, previous, rebind, now);
    if t.Committed? && rebind {
      assert MovedBy(db, t.db, i, db.rows[i].record);
    }
  }

  lemma FailClaimedOrderly(db: Db, i: nat, turn: nat, turnStatus: TurnStatus, now: nat)
    ensures Orderly(db, FailClaimed(db, i, turn, turnStatus, now))
  {
    var db' := FailClaimed(db, i, turn, turnStatus, now);
    if db' != db { assert MovedBy(db, db', i, db.rows[i].record); }
  }

  lemma CancelOrderly(db: Db, i: nat, seen: Row, turnStatus: TurnStatus, allowStop: bool, now: nat)
    ensures Orderly(db, CancelOrDefer(db, i, seen, turnStatus, allowStop, now))
  {
    hide RunningTurn;
    var db' := CancelOrDefer(db, i, seen, turnStatus, allowStop, now);
    if db'.executions != db.executions { assert MovedBy(db, db', i, db.rows[i].record); }
  }

  lemma RecoverFailedOneOrderly(db: Db, id: nat, current: bool, tasks: map<nat, TaskView>, now: nat)
    ensures OnlyStops(db, RecoverFailedOne(db, id, current, tasks, now))
  {
    hide ActiveExecution, RunningTurn;
    var db' := RecoverFailedOne(db, id, current, tasks, now);
    if db'.executions != db.executions { assert StoppedBy(db, db', id, db.rows[id].record); }
  }

  predicate StoppedBy(db: Db, db': Db, i: nat, k: nat) {
    Owns(db, i, k) && Stopped(db, db', i, k) && db'.rows[i].status == Canceled && db.rows[i].status == Failed
  }

  predicate Fallen(r: Row, r': Row) {
    Same(r, r') && r'.turns == r.turns && r'.turn == r.turn && r'.message == r.message &&
      (r.status != Failed ==> r' == r)
  }

  /** Rows keep their turns and only fall from failed to canceled or retry; executions only stop. */
  ghost predicate OnlyStops(db: Db, db': Db) {
    db'.rows.Keys == db.rows.Keys && db'.executions.Keys == db.executions.Keys &&
    (forall i :: i in db.rows ==> Fallen(db.rows[i], db'.rows[i])) &&
    (forall k :: k in db.executions && db'.executions[k] != db.executions[k] ==> exists i :: StoppedBy(db, db', i, k))
  }

  lemma StopsTwice(db: Db, db1: Db, db2: Db)
    requires OnlyStops(db, db1) && OnlyStops(db1, db2)
    ensures OnlyStops(db, db2)
  {
    forall i | i in db.rows
      ensures Fallen(db.rows[i], db2.rows[i])
    {
      assert Fallen(db.rows[i], db1.rows[i]) && Fallen(db1.rows[i], db2.rows[i]);
    }
    forall k | k in db.executions && db2.executions[k] != db.executions[k]
      ensures exists i :: StoppedBy(db, db2, i, k)
    {
      if db1.executions[k] != db.executions[k] {
        var i :| StoppedBy(db, db1, i, k);
        StoppedOnce(db, db1, db2, i, k);
      } else {
        var i :| StoppedBy(db1, db2, i, k);
        assert Fallen(db.rows[i], db1.rows[i]);
        assert StoppedBy(db, db2, i, k);
      }
    }
  }

  /** A stopped execution is inactive, so nobody owns it any more. */
  lemma StoppedOnce(db: Db, db1: Db, db2: Db, i: nat, k: nat)
    requires OnlyStops(db, db1) && OnlyStops(db1, db2) && StoppedBy(db, db1, i, k)
    ensures StoppedBy(db, db2, i, k)
  {
    forall j ensures !StoppedBy(db1, db2, j, k) { }
    assert Fallen(db1.rows[i], db2.rows[i]);
  }

  lemma {:induction false} RecoverFailedOrderly(db: Db, ids: seq<nat>, current: set<nat>, tasks: map<nat, TaskView>,
                                                now: nat)
    ensures OnlyStops(db, RecoverFailed(db, ids, current, tasks, now))
    decreases |ids|
  {
    if ids != [] {
      var one := RecoverFailedOne(db, ids[0], ids[0] in current, tasks, now);
      RecoverFailedOneOrderly(db, ids[0], ids[0] in current, tasks, now);
      RecoverFailedOrderly(one, ids[1..], current, tasks, now);
      StopsTwice(db, one, RecoverFailed(db, ids, current, tasks, now));
    }
  }

  lemma StopsAreOrderly(db: Db, db': Db)
    requires OnlyStops(db, db')
    ensures Orderly(db, db')
  {
    forall k | k in db.executions && db'.executions[k] != db.executions[k] ensures exists i :: MovedBy(db, db', i, k) {
      var i :| StoppedBy(db, db', i, k);
      assert MovedBy(db, db', i, k);
    }
  }

  lemma ClaimOneKeeps(db: Db, reserved: set<nat>, id: nat, seen: Row, board: Board, now: nat, uuid: nat)
    ensures var db' := ClaimOne(db, reserved, id, seen, board, now, uuid).db;
      LedgersKept(db.rows, db'.rows) && db'.executions == db.executions
  {
    hide LedgersKept, Update, Hits, Continuation;
    var continuation := Continuation(db, board, id, seen);
    UpdateKeepsLedgers(db.rows, (r: Row) => SameKey(r, seen) &&
      Claimable(r.status), (r: Row) => r.(status := Canceled));
    UpdateKeepsLedgers(db.rows, (r: Row) => SameKey(r, seen) && Claimable(r.status) && Due(r, now),
      (r: Row) => ClaimedRow(r, MessageFor(seen, uuid), continuation.Some?, now));
    NothingKept(db.rows);
  }

  lemma NothingKept(rows: map<nat, Row>)
    ensures LedgersKept(rows, rows)
  {
  }

  /** Also with twins: claiming rewrites only status, turn, message and times. */
  lemma {:induction false} LoopKeeps(db: Db, rows: map<nat, Row>, reserved: set<nat>, ids: seq<nat>, count: nat,
                                     limit: nat,
                                     board: Board, now: nat, uuids: map<nat, nat>)
    requires forall k :: 0 <= k < |ids| ==> ids[k] in rows && ids[k] in uuids
    ensures var db' := ClaimLoop(db, rows, reserved, ids, count, limit, board, now, uuids).db;
      LedgersKept(db.rows, db'.rows) && db'.executions == db.executions
    decreases |ids|
  {
    hide LedgersKept, ClaimOne;
    if ids == [] {
      NothingKept(db.rows);
    } else {
      var c := ClaimOne(db, reserved, ids[0], rows[ids[0]], board, now, uuids[ids[0]]);
      ClaimOneKeeps(db, reserved, ids[0], rows[ids[0]], board, now, uuids[ids[0]]);
      if c.item == None {
        LoopKeeps(c.db, rows, reserved, ids[1..], count, limit, board, now, uuids);
      } else if count + 1 < limit {
        LoopKeeps(c.db, rows, reserved + {rows[ids[0]].session}, ids[1..], count + 1, limit, board, now, uuids);
      }
      KeptAfter(db, c.db, ClaimLoop(db, rows, reserved, ids, count, limit, board, now, uuids).db);
    }
  }

  lemma KeptAfter(db: Db, db1: Db, db2: Db)
    requires LedgersKept(db.rows, db1.rows) && (db2 == db1 || LedgersKept(db1.rows, db2.rows))
    ensures LedgersKept(db.rows, db2.rows)
  {
    if db2 != db1 { KeptTwice(db.rows, db1.rows, db2.rows); }
  }

  // ---------------------------------------------------------------- steps

  lemma WorldOrderly(s: System, event: WorldStep)
    requires WorldEnabled(s, event) && !event.ToolWrites?
    ensures Orderly(s.db, ApplyWorld(s, event).db)
  {
    match event {
      case Insert(id, e, agent, revision, session, record) =>
      case Replace(agent, revision) => UpdatesOrderly(s.db, agent, revision, 0);
      case Remove(agent) => UpdatesOrderly(s.db, agent, 0, 0);
      case Poke(record) => UpdatesOrderly(s.db, 0, 0, record);
      case Ack(id, turn) => AcknowledgeOrderly(s.db, id, turn);
      case Restart(now) => RecoverOrderly(s.db, now);
      case RetryFailed(ids, current, tasks, now) =>
        RecoverFailedOrderly(s.db, ids, current, tasks, now);
        StopsAreOrderly(s.db, RecoverFailed(s.db, ids, current, tasks, now));
      case PermissionGranted => ResumesOrderly(s.db, 0);
      case OwnerFound(session) => ResumesOrderly(s.db, session);
      case _ => Unmoved(s.db);
    }
  }

  lemma Unmoved(db: Db)
    ensures Orderly(db, db)
  {
  }

  lemma CloseOrderly(s: System, item: Item, outcome: Outcome, now: nat)
    ensures Orderly(s.db, ApplyOutcome(s, item, outcome, now).db)
  {
    match outcome {
      case ToDefer => DeferOrderly(s.db, item.id, now);
      case ToWait(waiting) => WaitOrderly(s.db, item.id, waiting, item.continuation.Some?);
      case ToFinish(result, ok, retry) => FinishOrderly(s.db, item.id, result, ok, retry, now);
      case ToClaimed(ended) => FinishOrderly(s.db, item.id, Some(ended), false, true, now);
    }
  }

  lemma WorkOrderly(s: System, session: nat, move: WorkerMove)
    requires WorkerEnabled(s, session, move)
    ensures Orderly(s.db, ApplyWorker(s, session, move).db)
  {
    var w := s.workers[session];
    var i := w.item.id;
    match move {
      case CancelStaleWork => CancelStaleOrderly(s.db, i);
      case LoseContinuation(now) => CancelOrderly(s.db, i, w.item.seen, Missing, false, now);
      case EnterQueueing(now) => QueueOrderly(s.db, i, Queueing, w.item.continuation, now);
      case NoteQueued(now) => QueueOrderly(s.db, i, Queued, w.item.continuation, now);
      case NoteStarted(now) =>
        MarkStartedOrderly(s.db, i, s.mail[w.item.message].turn, w.item.continuation, w.item.continuation.Some?, now);
        Unmoved(s.db);
      case Clear => ClearOrderly(s.db, i, w.item.continuation);
      case Close(now) => CloseOrderly(s, w.item, w.phase.outcome, now);
      case _ => Unmoved(s.db);
    }
  }

  lemma FollowOrderly(s: System, i: nat, seen: Row, rebind: bool, now: nat)
    requires CanFollow(s.mail, seen, rebind)
    ensures var t := Follow(s, i, seen, rebind, now);
      t.Committed? ==> Orderly(s.db, t.db)
  {
    MarkStartedOrderly(s.db, i, s.mail[seen.message.value].turn, if rebind then seen.turn else None, rebind, now);
  }

  lemma KeepQueuedOrderly(db: Db, i: nat, previous: Option<nat>, now: nat)
    requires MarkQueue(db, i, Queued, previous, now).Committed?
    ensures Orderly(db, Defer(MarkQueue(db, i, Queued, previous, now).db, i, now))
  {
    RowWriteOrderly(db, Defer(MarkQueue(db, i, Queued, previous, now).db, i, now), i);
  }

  lemma VisitOrderly(s: System, move: ReconcileMove)
    requires ReconcileEnabled(s, move)
    requires move.Unreachable? || move.StopStale? || move.SeeCompleted? || move.SeeEnded?
    ensures Orderly(s.db, ApplyReconcile(s, move).db)
  {
    var c := s.reconciler;
    var seen := c.visit.seen;
    match move {
      case Unreachable(active, now) =>
        if seen.turn.Some? { FailClaimedOrderly(s.db, c.id, seen.turn.value, Unavailable, now); }
        FinishOrderly(s.db, c.id, None, false, false, now);
      case StopStale(stopped, now) =>
        DeferOrderly(s.db, c.id, now);
        if stopped.Some? { CancelOrderly(s.db, c.id, seen, stopped.value, true, now); }
      case SeeCompleted(ended, active, tools, now) =>
        FinishOrderly(s.db, c.id, Some(ended), false, true, now);
        FinishOrderly(s.db, c.id, Some(ended), true, false, now);
      case SeeEnded(ended, active, current, stillCurrent, now) =>
        FinishOrderly(s.db, c.id, Some(ended), false, true, now);
        FinishOrderly(s.db, c.id, Some(ended), false, false, now);
        CancelOrderly(s.db, c.id, seen, ended, true, now);
    }
  }

  lemma ReconcileOrderly(s: System, move: ReconcileMove)
    requires ReconcileEnabled(s, move) && !move.ResetUnconfirmed?
    ensures Orderly(s.db, ApplyReconcile(s, move).db)
  {
    var c := s.reconciler;
    match move {
      case Materialize(rebind, now) => FollowOrderly(s, c.id, c.visit.seen, rebind, now); Unmoved(s.db);
      case Find(rebind, now) => FollowOrderly(s, c.id, c.visit.seen, rebind, now); Unmoved(s.db);
      case FinishAcknowledged(ended, now) => FinishOrderly(s.db, c.id, Some(ended), true, false, now);
      case Postpone(now) => DeferOrderly(s.db, c.id, now);
      case Unreachable(_, _) => VisitOrderly(s, move);
      case StopStale(_, _) => VisitOrderly(s, move);
      case SeeCompleted(_, _, _, _) => VisitOrderly(s, move);
      case SeeEnded(_, _, _, _, _) => VisitOrderly(s, move);
      case KeepQueued(now) =>
        Unmoved(s.db);
        if MarkQueue(s.db, c.id, Queued, c.visit.seen.turn, now).Committed? {
          KeepQueuedOrderly(s.db, c.id, c.visit.seen.turn, now);
        }
      case EndClaimed(now) => FinishOrderly(s.db, c.id, Some(TurnCompleted), false, true, now);
      case CancelVisit(_, allowStop, now) => CancelOrderly(s.db, c.id, c.visit.seen, Missing, allowStop, now);
      case _ => Unmoved(s.db);
    }
  }

  lemma StepOrderly(s: System, step: Step)
    requires Enabled(s, step) && (step.World? ==> !step.event.ToolWrites?)
    ensures Grows(s.db.rows, Apply(s, step).db.rows) && Follows(s.db, Apply(s, step).db)
  {
    match step {
      case World(event) => WorldOrderly(s, event);
      case Schedule(exclude, ids, limit, board, now, uuids) =>
        var batch := ClaimBatch(s.db, exclude + s.workers.Keys, ids, limit, board, now, uuids);
        LoopKeeps(s.db, s.db.rows, exclude + s.workers.Keys + ProcessingSessions(s.db.rows), ids, 0, limit, board, now,
          uuids);
        KeptGrows(s.db.rows, batch.db.rows);
        DeliveryBatch.AddItemsFrame(s.(db := batch.db), batch.items);
      case Work(session, move) => WorkOrderly(s, session, move);
      case Reconcile(move) =>
        if move.ResetUnconfirmed? { ResetGrows(s.db, s.reconciler.id, move.now); } else { ReconcileOrderly(s, move); }
    }
  }

  /** In every run, with or without twins and raced rebinds, a step forgets no delivery and no turn, records at most
      the turn its delivery now runs, and moves an execution only together with the delivery that owns it. */
  lemma StepIsOrderly(states: seq<System>, steps: seq<Step>, k: nat)
    requires Run(states, steps) && k < |steps|
    requires steps[k].World? ==> !steps[k].event.ToolWrites?
    ensures Grows(states[k].db.rows, states[k + 1].db.rows) && Follows(states[k].db, states[k + 1].db)
  {
    StepOrderly(states[k], steps[k]);
  }

  /** A rebinding start moves the delivery and its execution together, or raises and moves neither. */
  lemma RebindMovesBoth(db: Db, i: nat, previous: nat, turn: nat, now: nat)
    requires i in db.rows && db.rows[i].record in db.executions
    ensures var t := MarkStarted(db, i, turn, Some(previous), true, now);
      var r := db.rows[i];
      (t.Committed? <==> r.status == Processing && r.turn == Some(previous) && OwnsExecution(db, r, previous)) &&
      (t.Committed? ==> t.db.rows[i].turn == Some(turn) && turn in t.db.rows[i].turns) &&
      (t.Committed? ==> OwnsExecution(t.db, t.db.rows[i], turn))
  {
  }

  // ---------------------------------------------------------------- message ids

  /** A claim gave the row a fresh message id because it had none or had recorded a turn under the old one. */
  predicate Reissued(s: System, step: Step, r: Row, r': Row) {
    step.Schedule? && Claimable(r.status) && r'.status == Processing &&
    (r.message == None || r.turn.Some?) && r'.message.Some? && r'.message.value !in s.owner
  }

  /** Reconcile gave up a message id under which nothing was recorded. */
  predicate WasReset(s: System, step: Step, i: nat, r: Row, r': Row) {
    step.Reconcile? && step.step.ResetUnconfirmed? && s.reconciler.Visiting? && s.reconciler.id == i &&
    r.turn == None && s.reconciler.visit.Reread? && LeaseExpired(s.reconciler.visit.seen, step.step.now) &&
    r'.message == None && r'.status == Retry
  }

  lemma ResetRow(s: System, now: nat, i: nat)
    requires Inv(s) && ReconcileEnabled(s, ResetUnconfirmed(now)) && i in s.db.rows
    ensures var rows' := ApplyReconcile(s, ResetUnconfirmed(now)).db.rows;
      i in rows' && (rows'[i].message != s.db.rows[i].message ==>
        i == s.reconciler.id && s.db.rows[i].turn == None && rows'[i].message == None && rows'[i].status == Retry)
  {
    assert RowOk(s, s.reconciler.id);
  }

  lemma ScheduleMessages(s: System, step: Step, i: nat)
    requires step.Schedule? && Enabled(s, step) && NoTwins(s.db.rows) && i in s.db.rows
    ensures var rows' := Apply(s, step).db.rows;
      i in rows' && (rows'[i].message == s.db.rows[i].message || Reissued(s, step, s.db.rows[i], rows'[i]))
  {
    hide ClaimLoop, AddItems, NoTwins;
    var batch := ClaimBatch(s.db, step.exclude + s.workers.Keys, step.ids, step.limit, step.board, step.now,
      step.uuids);
    DeliveryBatch.BatchFates(s, step.exclude + s.workers.Keys, step.ids, step.limit, step.board, step.now, step.uuids);
    DeliveryBatch.AddItemsFrame(s.(db := batch.db), batch.items);
    if i in step.ids { assert DeliveryBatch.Fate(s.db.rows[i], batch.db.rows[i], step.uuids[i], step.now); }
  }

  /** A message id is replaced only by a claim after a recorded turn, or dropped by the explicit reset. */
  lemma MessageReplaced(states: seq<System>, steps: seq<Step>, k: nat, i: nat)
    requires GrantedRun(states, steps) && k < |steps| && i in states[k].db.rows
    ensures i in states[k + 1].db.rows
    ensures var r := states[k].db.rows[i];
      var r' := states[k + 1].db.rows[i];
      r'.message == r.message || Reissued(states[k], steps[k], r, r') || WasReset(states[k], steps[k], i, r, r')
  {
    RunKeepsInv(states, steps, k);
    MessageStep(states[k], steps[k], i);
  }

  lemma MessageStep(s: System, step: Step, i: nat)
    requires Inv(s) && Enabled(s, step) && Granted(s, step) && i in s.db.rows
    ensures var rows' := Apply(s, step).db.rows;
      i in rows' && (rows'[i].message == s.db.rows[i].message || Reissued(s, step, s.db.rows[i], rows'[i])
                     || WasReset(s, step, i, s.db.rows[i], rows'[i]))
  {
    match step {
      case World(event) => if !event.ToolWrites? { WorldOrderly(s, event); }
      case Schedule(_, _, _, _, _, _) => ScheduleMessages(s, step, i);
      case Work(session, move) => WorkOrderly(s, session, move);
      case Reconcile(move) =>
        if move.ResetUnconfirmed? { ResetRow(s, move.now, i); } else { ReconcileOrderly(s, move); }
    }
  }
}
