/** The life of a delivery: which step may take it from which status to which. */
module DeliveryStatuses {
  import opened Common
  import opened DeliveryRows
  import opened DeliveryClaims
  import opened DeliverySystem
  import opened DeliveryInvariant
  import opened DeliverySafety
  import DeliveryBatch
  import DeliverySteps

  predicate Over(status: Status) {
    status == Completed || status == Failed || status == Canceled
  }

  predicate WorldMoves(event: WorldStep, from: Status, to: Status) {
    match event
    case Replace(_, _) => (Claimable(from) || from == WaitingSession) && to == Canceled
    case Remove(_) => (Claimable(from) || from == WaitingSession) && to == Canceled
    case RetryFailed(_, _, _, _) => from == Failed && (to == Retry || to == Canceled)
    case PermissionGranted => from == WaitingPermission && to == Retry
    case OwnerFound(_) => from == WaitingSession && to == Retry
    case _ => false
  }

  /** Only a claim makes a delivery processing, only its own worker ends or parks it, only the reconciliation that
      visits it settles it, and nothing returns it to pending. */
  predicate Moves(s: System, step: Step, i: nat, from: Status, to: Status) {
    from == to ||
    match step
    case World(event) => WorldMoves(event, from, to)
    case Schedule(_, _, _, _, _, _) => Claimable(from) && (to == Processing || to == Canceled)
    case Work(session, _) =>
      session in s.workers && s.workers[session].item.id == i && from == Processing &&
      (to == Retry || Waiting(to) || Over(to))
    case Reconcile(_) => s.reconciler.Visiting? && s.reconciler.id == i && (to == Retry || Over(to))
  }

  ghost predicate RowMoves(s: System, step: Step, rows': map<nat, Row>) {
    forall i :: i in s.db.rows ==> i in rows' && Moves(s, step, i, s.db.rows[i].status, rows'[i].status)
  }

  // ---------------------------------------------------------------- the environment

  lemma {:induction false} RecoverFailedMoves(db: Db, ids: seq<nat>, current: set<nat>, tasks: map<nat, TaskView>,
                                              now: nat)
    ensures FailedMoves(db.rows, RecoverFailed(db, ids, current, tasks, now).rows)
    decreases |ids|
  {
    if ids != [] {
      var one := RecoverFailedOne(db, ids[0], ids[0] in current, tasks, now);
      RecoverFailedMoves(one, ids[1..], current, tasks, now);
      RecoverOneMoves(db, ids[0], ids[0] in current, tasks, now);
      FailedTwice(db.rows, one.rows, RecoverFailed(db, ids, current, tasks, now).rows);
    }
  }

  predicate FailedMove(from: Status, to: Status) {
    from == to || (from == Failed && (to == Retry || to == Canceled))
  }

  ghost predicate FailedMoves(rows: map<nat, Row>, rows': map<nat, Row>) {
    rows'.Keys == rows.Keys && forall i :: i in rows ==> FailedMove(rows[i].status, rows'[i].status)
  }

  lemma FailedTwice(rows: map<nat, Row>, rows1: map<nat, Row>, rows2: map<nat, Row>)
    requires FailedMoves(rows, rows1) && FailedMoves(rows1, rows2)
    ensures FailedMoves(rows, rows2)
  {
    forall i | i in rows ensures FailedMove(rows[i].status, rows2[i].status) {
      assert FailedMove(rows[i].status, rows1[i].status) && FailedMove(rows1[i].status, rows2[i].status);
    }
  }

  lemma RecoverOneMoves(db: Db, id: nat, current: bool, tasks: map<nat, TaskView>, now: nat)
    ensures FailedMoves(db.rows, RecoverFailedOne(db, id, current, tasks, now).rows)
  {
    hide ActiveExecution;
  }

  lemma UpdateMoves(s: System, event: WorldStep, hit: Row -> bool, set_: Row -> Row)
    requires forall r: Row :: hit(r) ==> WorldMoves(event, r.status, set_(r).status)
    ensures RowMoves(s, World(event), Update(s.db.rows, hit, set_))
  {
  }

  lemma RecoveryStatuses(s: System, event: WorldStep)
    requires Inv(s) && WorldEnabled(s, event) && (event.RetryFailed? || event.Restart?)
    ensures RowMoves(s, World(event), ApplyWorld(s, event).db.rows)
  {
    hide RecoverFailed, RowOk, WorkerOk, ReconcilerOk, MailOk;
    if event.Restart? {
      DeliverySteps.RecoverIsCalm(s, event.now);
    } else {
      var rows' := RecoverFailed(s.db, event.ids, event.current, event.tasks, event.now).rows;
      RecoverFailedMoves(s.db, event.ids, event.current, event.tasks, event.now);
      forall i | i in s.db.rows ensures Moves(s, World(event), i, s.db.rows[i].status, rows'[i].status) {
        assert FailedMove(s.db.rows[i].status, rows'[i].status);
      }
    }
  }

  lemma WorldStatuses(s: System, event: WorldStep)
    requires Inv(s) && WorldEnabled(s, event)
    ensures RowMoves(s, World(event), ApplyWorld(s, event).db.rows)
  {
    hide Inv, RecoverFailed, Recover;
    match event {
      case RetryFailed(_, _, _, _) => RecoveryStatuses(s, event);
      case Restart(_) => RecoveryStatuses(s, event);
      case Replace(agent, revision) =>
        UpdateMoves(s, event,
          (r: Row) => r.agent == agent && r.revision == revision && (Claimable(r.status) || r.status == WaitingSession),
          (r: Row) => r.(status := Canceled));
      case Remove(agent) =>
        UpdateMoves(s, event, (r: Row) => r.agent == agent && (Claimable(r.status) || r.status == WaitingSession),
          (r: Row) => r.(status := Canceled));
      case PermissionGranted => UpdateMoves(s, event, (r: Row) => r.status == WaitingPermission, Resume);
      case OwnerFound(session) =>
        UpdateMoves(s, event, (r: Row) => r.status == WaitingSession && r.session == session, Resume);
      case _ =>
    }
  }

  // ---------------------------------------------------------------- transactions on one row

  /** At most one row changed; its status stayed or became retry, over or, if it may be parked, waiting. */
  ghost predicate Settles(db: Db, db': Db, i: nat, parked: bool) {
    db'.rows == db.rows ||
    (i in db.rows && i in db'.rows && db'.rows == db.rows[i := db'.rows[i]] &&
     (db'.rows[i].status == db.rows[i].status || db'.rows[i].status == Retry || Over(db'.rows[i].status)
      || (parked && Waiting(db'.rows[i].status))))
  }

  lemma FinishSettles(db: Db, i: nat, result: Option<TurnStatus>, ok: bool, retry: bool, reset: bool, now: nat)
    ensures Settles(db, Finish(db, i, result, ok, retry, reset, now), i, false)
  {
    hide RetryDelay;
  }

  lemma WaitSettles(db: Db, i: nat, waiting: Status, continuation: bool)
    requires Waiting(waiting)
    ensures Settles(db, Wait(db, i, waiting, continuation), i, true)
  {
  }

  lemma FailSettles(db: Db, i: nat, turn: nat, ended: TurnStatus, now: nat)
    ensures Settles(db, FailClaimed(db, i, turn, ended, now), i, false)
  {
  }

  lemma CancelSettles(db: Db, i: nat, seen: Row, ended: TurnStatus, allowStop: bool, now: nat)
    ensures Settles(db, CancelOrDefer(db, i, seen, ended, allowStop, now), i, false)
    ensures Settles(db, CancelStale(db, i), i, false)
  {
    hide OwnsExecution, ExecutionBlocks;
  }

  lemma MarksSettle(db: Db, i: nat, state: TurnStatus, previous: Option<nat>, now: nat)
    ensures Settles(db, Defer(db, i, now), i, false) && Settles(db, ClearQueueing(db, i, previous), i, false)
    ensures var t := MarkQueue(db, i, state, previous, now);
      t.Committed? ==> Settles(db, t.db, i, false) && Settles(db, Defer(t.db, i, now), i, false)
  {
  }

  lemma StartSettles(db: Db, i: nat, turn: nat, previous: Option<nat>, rebind: bool, now: nat)
    ensures var t := MarkStarted(db, i, turn, previous, rebind, now);
      t.Committed? ==> Settles(db, t.db, i, false)
  {
    hide OwnsExecution;
  }

  lemma NothingSettles(db: Db, i: nat)
    ensures Settles(db, db, i, false)
  {
  }

  lemma SettledWork(s: System, session: nat, move: WorkerMove, db': Db)
    requires session in s.workers && s.workers[session].item.id in s.db.rows
    requires s.db.rows[s.workers[session].item.id].status == Processing
    requires Settles(s.db, db', s.workers[session].item.id, true) ||
      Settles(s.db, db', s.workers[session].item.id, false)
    ensures RowMoves(s, Work(session, move), db'.rows)
  {
  }

  lemma SettledVisit(s: System, move: ReconcileMove, db': Db)
    requires s.reconciler.Visiting? && Settles(s.db, db', s.reconciler.id, false)
    ensures RowMoves(s, Reconcile(move), db'.rows)
  {
  }

  // ---------------------------------------------------------------- workers and reconciliation

  lemma CloseStatus(s: System, session: nat, now: nat)
    requires Inv(s) && WorkerEnabled(s, session, Close(now))
    ensures RowMoves(s, Work(session, Close(now)), ApplyWorker(s, session, Close(now)).db.rows)
  {
    hide RowOk, Settles, RowMoves, Finish, Wait, Defer, SessionsExclusive, ReconcilerOk, MailOk;
    assert WorkerOk(s, session);
    var w := s.workers[session];
    match w.phase.outcome {
      case ToDefer => MarksSettle(s.db, w.item.id, Queued, None, now);
      case ToWait(waiting) => WaitSettles(s.db, w.item.id, waiting, w.item.continuation.Some?);
      case ToFinish(result, ok, retry) => FinishSettles(s.db, w.item.id, result, ok, retry, false, now);
      case ToClaimed(ended) => FinishSettles(s.db, w.item.id, Some(ended), false, true, false, now);
    }
    SettledWork(s, session, Close(now), ApplyWorker(s, session, Close(now)).db);
  }

  /** Until its last write an execution holds its delivery in processing. */
  lemma WorkerHolds(s: System, session: nat)
    requires Inv(s) && session in s.workers
    ensures s.workers[session].item.id in s.db.rows
    ensures s.workers[session].phase != Leaving ==> s.db.rows[s.workers[session].item.id].status == Processing
  {
    assert WorkerOk(s, session);
  }

  lemma WorkSettles(s: System, session: nat, move: WorkerMove)
    requires WorkerEnabled(s, session, move) && !move.Close?
    ensures Settles(s.db, ApplyWorker(s, session, move).db, s.workers[session].item.id, false)
  {
    hide Settles, CancelOrDefer, CancelStale, CancelHits, ClearQueueing, MarkQueue, MarkStarted, TurnOver;
    var w := s.workers[session];
    var i := w.item.id;
    NothingSettles(s.db, i);
    match move {
      case CancelStaleWork => CancelSettles(s.db, i, w.item.seen, Missing, false, 0);
      case LoseContinuation(now) => CancelSettles(s.db, i, w.item.seen, Missing, false, now);
      case EnterQueueing(now) => MarksSettle(s.db, i, Queueing, w.item.continuation, now);
      case NoteQueued(now) => MarksSettle(s.db, i, Queued, w.item.continuation, now);
      case NoteStarted(now) =>
        StartSettles(s.db, i, s.mail[w.item.message].turn, w.item.continuation, w.item.continuation.Some?, now);
      case Clear => MarksSettle(s.db, i, Queueing, w.item.continuation, 0);
      case _ =>
    }
  }

  lemma LeaveStatus(s: System, session: nat)
    requires WorkerEnabled(s, session, Leave)
    ensures RowMoves(s, Work(session, Leave), ApplyWorker(s, session, Leave).db.rows)
  {
  }

  lemma StillHeld(s: System, session: nat, move: WorkerMove)
    requires WorkerEnabled(s, session, move) && !move.Leave?
    ensures session in s.workers && s.workers[session].phase != Leaving
  {
    hide MarkQueue, TurnOver;
  }

  lemma WorkStatuses(s: System, session: nat, move: WorkerMove)
    requires Inv(s) && WorkerEnabled(s, session, move)
    ensures RowMoves(s, Work(session, move), ApplyWorker(s, session, move).db.rows)
  {
    hide Inv, WorkerEnabled, ApplyWorker, Settles, RowMoves;
    if move.Close? {
      CloseStatus(s, session, move.now);
    } else if move.Leave? {
      LeaveStatus(s, session);
    } else {
      StillHeld(s, session, move);
      WorkerHolds(s, session);
      WorkSettles(s, session, move);
      SettledWork(s, session, move, ApplyWorker(s, session, move).db);
    }
  }

  lemma ReconcileSettles(s: System, move: ReconcileMove)
    requires ReconcileEnabled(s, move) && s.reconciler.Visiting?
    ensures Settles(s.db, ApplyReconcile(s, move).db, s.reconciler.id, false)
  {
    hide Settles, CancelOrDefer, CancelHits, MarkQueue, MarkStarted, Finish, FailClaimed, Defer, TurnOver, CanFollow;
    var i, visit := s.reconciler.id, s.reconciler.visit;
    NothingSettles(s.db, i);
    match move {
      case Materialize(rebind, now) => FollowSettles(s, i, visit.seen, rebind, now);
      case Find(rebind, now) => FollowSettles(s, i, visit.seen, rebind, now);
      case FinishAcknowledged(ended, now) => FinishSettles(s.db, i, Some(ended), true, false, false, now);
      case Postpone(now) => MarksSettle(s.db, i, Queued, None, now);
      case Unreachable(active, now) =>
        if visit.seen.turn.Some? { FailSettles(s.db, i, visit.seen.turn.value, Unavailable, now); }
        FinishSettles(s.db, i, None, false, false, false, now);
      case StopStale(stopped, now) =>
        MarksSettle(s.db, i, Queued, None, now);
        if stopped.Some? { CancelSettles(s.db, i, visit.seen, stopped.value, true, now); }
      case SeeCompleted(ended, _, _, now) =>
        FinishSettles(s.db, i, Some(ended), true, false, false, now);
        FinishSettles(s.db, i, Some(ended), false, true, false, now);
      case SeeEnded(ended, _, _, _, now) =>
        FinishSettles(s.db, i, Some(ended), false, true, false, now);
        FinishSettles(s.db, i, Some(ended), false, false, false, now);
        CancelSettles(s.db, i, visit.seen, ended, true, now);
      case KeepQueued(now) => MarksSettle(s.db, i, Queued, visit.seen.turn, now);
      case EndClaimed(now) => FinishSettles(s.db, i, Some(TurnCompleted), false, true, false, now);
      case CancelVisit(_, allowStop, now) => CancelSettles(s.db, i, visit.seen, Missing, allowStop, now);
      case ResetUnconfirmed(now) => FinishSettles(s.db, i, Some(Unconfirmed), false, true, true, now);
      case _ =>
    }
  }

  lemma FollowSettles(s: System, i: nat, seen: Row, rebind: bool, now: nat)
    requires CanFollow(s.mail, seen, rebind)
    ensures var t := Follow(s, i, seen, rebind, now);
      t.Committed? ==> Settles(s.db, t.db, i, false)
  {
    StartSettles(s.db, i, s.mail[seen.message.value].turn, if rebind then seen.turn else None, rebind, now);
  }

  lemma ReconcileStatuses(s: System, move: ReconcileMove)
    requires ReconcileEnabled(s, move)
    ensures RowMoves(s, Reconcile(move), ApplyReconcile(s, move).db.rows)
  {
    if s.reconciler.Visiting? {
      hide ReconcileEnabled, ApplyReconcile, Settles, RowMoves;
      ReconcileSettles(s, move);
      SettledVisit(s, move, ApplyReconcile(s, move).db);
    } else {
      hide TurnOver, CanFollow;
      assert ApplyReconcile(s, move).db == s.db;
    }
  }

  lemma ScheduleStatuses(s: System, step: Step)
    requires step.Schedule? && Enabled(s, step) && Granted(s, step)
    ensures RowMoves(s, step, Apply(s, step).db.rows)
  {
    hide ClaimLoop, NoTwins, AddItems;
    var exclude := step.exclude + s.workers.Keys;
    var batch := ClaimBatch(s.db, exclude, step.ids, step.limit, step.board, step.now, step.uuids);
    DeliveryBatch.BatchFates(s, exclude, step.ids, step.limit, step.board, step.now, step.uuids);
    DeliveryBatch.AddItemsFrame(s.(db := batch.db), batch.items);
    forall i | i in s.db.rows ensures Moves(s, step, i, s.db.rows[i].status, batch.db.rows[i].status) {
      if i in step.ids { assert DeliveryBatch.Fate(s.db.rows[i], batch.db.rows[i], step.uuids[i], step.now); }
    }
  }

  /** Over every run a step changes the status of a delivery only along these moves. */
  lemma StatusMoves(states: seq<System>, steps: seq<Step>, k: nat)
    requires GrantedRun(states, steps) && k < |steps|
    ensures RowMoves(states[k], steps[k], states[k + 1].db.rows)
  {
    RunKeepsInv(states, steps, k);
    var s := states[k];
    hide Inv, RowMoves;
    match steps[k] {
      case World(event) => WorldStatuses(s, event);
      case Schedule(_, _, _, _, _, _) => ScheduleStatuses(s, steps[k]);
      case Work(session, move) => WorkStatuses(s, session, move);
      case Reconcile(move) => ReconcileStatuses(s, move);
    }
  }

  lemma {:induction false} RowStays(states: seq<System>, steps: seq<Step>, j: nat, k: nat, i: nat)
    requires GrantedRun(states, steps) && j <= k < |states| && i in states[j].db.rows
    ensures i in states[k].db.rows
    ensures states[j].db.rows[i].status != Pending ==> states[k].db.rows[i].status != Pending
  {
    hide Enabled, Apply, Granted;
    if j < k {
      RowStays(states, steps, j, k - 1, i);
      StatusMoves(states, steps, k - 1);
      assert Moves(states[k - 1], steps[k - 1], i, states[k - 1].db.rows[i].status, states[k].db.rows[i].status);
    }
  }

  /** Once claimed or canceled a delivery is never pending again, through restarts as well. */
  lemma NeverPendingAgain(states: seq<System>, steps: seq<Step>, j: nat, k: nat, i: nat)
    requires GrantedRun(states, steps) && j <= k < |states| && i in states[j].db.rows
    requires states[j].db.rows[i].status != Pending
    ensures i in states[k].db.rows && states[k].db.rows[i].status != Pending
  {
    RowStays(states, steps, j, k, i);
  }
}
