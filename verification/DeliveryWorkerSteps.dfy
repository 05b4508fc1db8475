/** Every step of an executing worker keeps the invariant. */
module DeliveryWorkerSteps {
  import opened Common
  import opened DeliveryRows
  import opened DeliveryClaims
  import opened DeliverySystem
  import opened DeliveryInvariant

  /** The worker only moves to another phase. */
  lemma PhaseStep(s: System, session: nat, phase: Phase)
    requires Inv(s) && session in s.workers && s.workers[session].phase != Leaving
    requires WorkerOk(s, session) ==> WorkerOk(Advance(s, session, phase), session)
    ensures Inv(Advance(s, session, phase))
  {
    var s' := Advance(s, session, phase);
    var i := s.workers[session].item.id;
    assert WorkerOk(s, session) && RowOk(s, i);
    assert s'.db.rows == s.db.rows[i := s'.db.rows[i]];
    assert RowOk(s', i) by { assert OthersQuiet(s', i, s.db.rows[i].message); }
    WorkerRowStep(s, s', session);
  }

  /** The worker writes its own row, the executions perhaps too, and moves to a phase. */
  lemma WriteStep(s: System, session: nat, db: Db, phase: Phase)
    requires Inv(s) && session in s.workers && s.workers[session].phase != Leaving
    requires var i := s.workers[session].item.id;
      i in s.db.rows && i in db.rows && db.rows == s.db.rows[i := db.rows[i]] &&
      TurnAdvances(s, s.db.rows[i], db.rows[i]) &&
      (forall t :: t in db.rows[i].turns ==> t in s.begun) &&
      (db.rows[i].turn.Some? ==> db.rows[i].turn.value in db.rows[i].turns)
    requires var r := db.rows[s.workers[session].item.id];
      (Claimable(r.status) || Waiting(r.status) ==> Settled(s.mail, r)) &&
      (r.status == Processing ==> ProcessingOk(s.mail, r))
    requires WorkerOk(Advance(s.(db := db), session, phase), session)
    ensures Inv(Advance(s.(db := db), session, phase))
  {
    var s' := Advance(s.(db := db), session, phase);
    var i := s.workers[session].item.id;
    assert WorkerOk(s, session) && RowOk(s, i);
    assert OthersQuiet(s', i, db.rows[i].message);
    assert RowOk(s', i);
    WorkerRowStep(s, s', session);
  }

  // ---------------------------------------------------------------- before the call

  lemma CancelStaleWorkKeeps(s: System, session: nat)
    requires Inv(s) && WorkerEnabled(s, session, CancelStaleWork)
    ensures Inv(ApplyWorker(s, session, CancelStaleWork))
  {
    var i := s.workers[session].item.id;
    assert WorkerOk(s, session) && RowOk(s, i);
    WriteStep(s, session, CancelStale(s.db, i), Leaving);
  }

  lemma LoseContinuationKeeps(s: System, session: nat, now: nat)
    requires Inv(s) && WorkerEnabled(s, session, LoseContinuation(now))
    ensures !CancelHits(s.db, s.workers[session].item.id, s.workers[session].item.seen, false)
    ensures Inv(ApplyWorker(s, session, LoseContinuation(now)))
  {
    var i := s.workers[session].item.id;
    assert WorkerOk(s, session) && RowOk(s, i);
    WriteStep(s, session, Defer(s.db, i, now), Closing(ToDefer, false));
  }

  lemma FailEarlyKeeps(s: System, session: nat, error: Failure)
    requires Inv(s) && WorkerEnabled(s, session, FailEarly(error))
    ensures Inv(ApplyWorker(s, session, FailEarly(error)))
  {
    PhaseStep(s, session, Closing(FailureOutcome(error), true));
  }

  lemma EnterQueueingKeeps(s: System, session: nat, now: nat)
    requires Inv(s) && WorkerEnabled(s, session, EnterQueueing(now))
    ensures Inv(ApplyWorker(s, session, EnterQueueing(now)))
  {
    var w := s.workers[session];
    assert WorkerOk(s, session) && RowOk(s, w.item.id);
    WriteStep(s, session, MarkQueue(s.db, w.item.id, Queueing, w.item.continuation, now).db, Ready);
  }

  // ---------------------------------------------------------------- the call

  /** Submitting or rejecting the worker's own message concerns no other row. */
  lemma OwnMailStep(s: System, s': System, session: nat)
    requires Inv(s) && session in s.workers && s.workers[session].phase != Leaving
    requires var m := s.workers[session].item.message;
      s'.db == s.db && s'.begun == s.begun && s'.owner == s.owner && s'.reconciler == s.reconciler &&
      (s'.mail == s.mail[m := InFlight] || s'.mail == s.mail - {m}) && !HasTurn(s.mail, m)
    requires session in s'.workers && s'.workers == s.workers[session := s'.workers[session]]
    requires s'.workers[session].item == s.workers[session].item && WorkerOk(s', session)
    requires ProcessingOk(s'.mail, s.db.rows[s.workers[session].item.id])
    ensures Inv(s')
  {
    hide RowOk, CopyOk, VisitOk, OutcomeOk, Settled, SessionsExclusive, MailOk;
    var i := s.workers[session].item.id;
    var m := s.workers[session].item.message;
    OwnMessage(s, session);
    forall j | j in s'.db.rows ensures RowOk(s', j) {
      if j == i { OwnRowQuiet(s, s', m, i); } else { assert RowOk(s, j); OtherRowQuiet(s, s', m, j); }
    }
    forall other | other in s'.workers ensures WorkerOk(s', other) {
      if other != session { OtherWorkerQuiet(s, s', m, i, other); }
    }
    OwnMailKeepsMail(s, s', m);
    OwnMailKeepsReconciler(s, s', m);
  }

  /** A message id is the current one of at most one row. */
  lemma OwnMessage(s: System, session: nat)
    requires Inv(s) && session in s.workers && s.workers[session].phase != Leaving
    ensures var i := s.workers[session].item.id;
      var m := s.workers[session].item.message;
      i in s.db.rows && RowOk(s, i) && s.db.rows[i].status == Processing && s.db.rows[i].message == Some(m) &&
      m in s.owner && s.owner[m] == i && (forall j :: j in s.db.rows && s.db.rows[j].message == Some(m) ==> j == i)
    ensures forall other :: other in s.workers && other != session ==>
      WorkerOk(s, other) && s.workers[other].item.id != s.workers[session].item.id
  {
    var i := s.workers[session].item.id;
    assert WorkerOk(s, session) && RowOk(s, i);
    forall j | j in s.db.rows && s.db.rows[j].message == Some(s.workers[session].item.message) ensures j == i {
      assert RowOk(s, j);
    }
    forall other | other in s.workers && other != session ensures WorkerOk(s, other) && s.workers[other].item.id != i {
      assert WorkerOk(s, other);
    }
  }

  lemma OwnRowQuiet(s: System, s': System, m: nat, i: nat)
    requires s'.db == s.db && s'.begun == s.begun && s'.owner == s.owner
    requires s'.mail == s.mail[m := InFlight] || s'.mail == s.mail - {m}
    requires i in s.db.rows && RowOk(s, i) && s.db.rows[i].status == Processing && s.db.rows[i].message == Some(m)
    requires ProcessingOk(s'.mail, s.db.rows[i])
    ensures RowOk(s', i)
  {
    forall n | n in s'.owner && s'.owner[n] == i && n != m ensures Quiet(s'.mail, n) {
      assert Quiet(s.mail, n);
    }
  }

  lemma OtherRowQuiet(s: System, s': System, m: nat, j: nat)
    requires s'.db == s.db && s'.begun == s.begun && s'.owner == s.owner
    requires s'.mail == s.mail[m := InFlight] || s'.mail == s.mail - {m}
    requires j in s.db.rows && RowOk(s, j) && m in s.owner && s.owner[m] != j
    ensures RowOk(s', j)
  {
    forall n | n in s'.owner && s'.owner[n] == j && s.db.rows[j].message != Some(n) ensures Quiet(s'.mail, n) {
      assert Quiet(s.mail, n);
    }
  }

  lemma OtherWorkerQuiet(s: System, s': System, m: nat, i: nat, other: nat)
    requires s'.db == s.db && (s'.mail == s.mail[m := InFlight] || s'.mail == s.mail - {m})
    requires other in s.workers && other in s'.workers && s'.workers[other] == s.workers[other] && WorkerOk(s, other)
    requires s.workers[other].phase != Leaving ==> s.workers[other].item.message != m
    requires forall j :: j in s.db.rows && s.db.rows[j].message == Some(m) ==> j == i
    ensures WorkerOk(s', other)
  {
  }

  lemma OwnMailKeepsMail(s: System, s': System, m: nat)
    requires MailOk(s) && m in s.owner && !HasTurn(s.mail, m)
    requires s'.begun == s.begun && s'.owner == s.owner && (s'.mail == s.mail[m := InFlight] || s'.mail == s.mail - {m})
    ensures MailOk(s')
  {
    forall n | HasTurn(s'.mail, n) ensures n != m && HasTurn(s.mail, n) && s'.mail[n] == s.mail[n] {
    }
  }

  lemma OwnMailKeepsReconciler(s: System, s': System, m: nat)
    requires ReconcilerOk(s) && !HasTurn(s.mail, m)
    requires s'.db == s.db && s'.begun == s.begun && s'.reconciler == s.reconciler
    requires s'.mail == s.mail[m := InFlight] || s'.mail == s.mail - {m}
    requires forall j :: j in s.db.rows && s.db.rows[j].message == Some(m) ==> s.db.rows[j].status == Processing
    requires forall session :: session in s'.workers ==>
      session in s.workers && s'.workers[session].item == s.workers[session].item
    ensures ReconcilerOk(s')
  {
    forall j, seen | CopyOk(s, j, seen) ensures CopyOk(s', j, seen) {
      if HasTurn(s'.mail, seen.message.value) { assert HasTurn(s.mail, seen.message.value); }
    }
  }

  lemma SubmitKeeps(s: System, session: nat)
    requires Inv(s) && WorkerEnabled(s, session, Submit)
    ensures Inv(ApplyWorker(s, session, Submit))
  {
    assert WorkerOk(s, session) && RowOk(s, s.workers[session].item.id);
    OwnMailStep(s, ApplyWorker(s, session, Submit), session);
  }

  lemma RejectKeeps(s: System, session: nat, error: Failure)
    requires Inv(s) && WorkerEnabled(s, session, Reject(error))
    ensures Inv(ApplyWorker(s, session, Reject(error)))
  {
    assert WorkerOk(s, session) && RowOk(s, s.workers[session].item.id);
    OwnMailStep(s, ApplyWorker(s, session, Reject(error)), session);
  }

  lemma LoseContactKeeps(s: System, session: nat)
    requires Inv(s) && WorkerEnabled(s, session, LoseContact)
    ensures Inv(ApplyWorker(s, session, LoseContact))
  {
    PhaseStep(s, session, Closing(ToDefer, false));
  }

  lemma NoteQueuedKeeps(s: System, session: nat, now: nat)
    requires Inv(s) && WorkerEnabled(s, session, NoteQueued(now))
    ensures Inv(ApplyWorker(s, session, NoteQueued(now)))
  {
    var w := s.workers[session];
    assert WorkerOk(s, session) && RowOk(s, w.item.id);
    var db := MarkQueue(s.db, w.item.id, Queued, w.item.continuation, now).db;
    var s' := Advance(s.(db := db), session, Called);
    assert WorkerOk(s', session) by { assert s'.db.rows[w.item.id].turnStatus == Some(Queued); }
    WriteStep(s, session, db, Called);
    assert s'.workers == s.workers;
  }

  lemma NoteStartedKeeps(s: System, session: nat, now: nat)
    requires Inv(s) && WorkerEnabled(s, session, NoteStarted(now)) && RebindGranted(s, session)
    ensures StartOutcome(s, s.workers[session], now).Committed?
    ensures Inv(ApplyWorker(s, session, NoteStarted(now)))
  {
    var w := s.workers[session];
    assert WorkerOk(s, session) && RowOk(s, w.item.id);
    WriteStep(s, session, StartOutcome(s, w, now).db, Started(s.mail[w.item.message].turn));
  }

  // ---------------------------------------------------------------- after the call

  /** A returned turn is retried only on evidence that it is over. */
  lemma DecisionOk(s: System, item: Item, t: nat, status: TurnStatus, ok: bool, completed: bool, active: bool,
                   current: bool, count: nat)
    requires item.id in s.db.rows && HasTurn(s.mail, item.message) && s.mail[item.message].turn == t
    requires s.db.rows[item.id].message == Some(item.message) && s.db.rows[item.id].turn == Some(t)
    requires CodexStatus(status) && (TerminalStatus(status) || completed ==> TurnOver(s.mail, t))
    ensures OutcomeOk(s, item, Decide(status, ok, completed, active, current, count), false)
  {
  }

  lemma ReturnKeeps(s: System, session: nat, move: WorkerMove)
    requires Inv(s) && move.Return? && WorkerEnabled(s, session, move)
    ensures Inv(ApplyWorker(s, session, move))
  {
    var w := s.workers[session];
    var count := |s.db.rows[w.item.id].turns|;
    assert WorkerOk(s, session);
    DecisionOk(s, w.item, w.phase.turn, move.status, move.ok, move.completed, move.active, move.current, count);
    PhaseStep(s, session, Closing(Decide(move.status, move.ok, move.completed, move.active, move.current, count),
      false));
  }

  lemma BreakKeeps(s: System, session: nat)
    requires Inv(s) && WorkerEnabled(s, session, Break)
    ensures Inv(ApplyWorker(s, session, Break))
  {
    PhaseStep(s, session, Closing(ToDefer, false));
  }

  lemma ClearKeeps(s: System, session: nat)
    requires Inv(s) && WorkerEnabled(s, session, Clear)
    ensures Inv(ApplyWorker(s, session, Clear))
  {
    var w := s.workers[session];
    assert WorkerOk(s, session) && RowOk(s, w.item.id);
    WriteStep(s, session, ClearQueueing(s.db, w.item.id, w.item.continuation), Closing(w.phase.outcome, false));
  }

  /** The last write leaves a row that may be claimed again only when its message is settled. */
  lemma ClosedRow(s: System, item: Item, outcome: Outcome, now: nat)
    requires item.id in s.db.rows && OutcomeOk(s, item, outcome, false)
    requires s.db.rows[item.id].status == Processing && s.db.rows[item.id].message == Some(item.message)
    requires ProcessingOk(s.mail, s.db.rows[item.id])
    ensures var db := ApplyOutcome(s, item, outcome, now).db;
      item.id in db.rows && db.rows == s.db.rows[item.id := db.rows[item.id]] &&
      var r := s.db.rows[item.id];
      var r' := db.rows[item.id];
      r'.session == r.session && r'.message == r.message && r'.turn == r.turn && r'.turns == r.turns &&
      (Claimable(r'.status) || Waiting(r'.status) ==> Settled(s.mail, r')) &&
      (r'.status != Processing && RecoverableEnd(r'.turnStatus) ==> Settled(s.mail, r')) &&
      (r'.status == Processing ==> ProcessingOk(s.mail, r'))
  {
  }

  lemma CloseKeeps(s: System, session: nat, now: nat)
    requires Inv(s) && WorkerEnabled(s, session, Close(now))
    ensures Inv(ApplyWorker(s, session, Close(now)))
  {
    var w := s.workers[session];
    assert WorkerOk(s, session) && RowOk(s, w.item.id);
    ClosedRow(s, w.item, w.phase.outcome, now);
    var closed := ApplyOutcome(s, w.item, w.phase.outcome, now);
    WriteStep(s, session, closed.db, Leaving);
    ExemptIsFree(Advance(s.(db := closed.db), session, Leaving), closed.exempt);
  }

  lemma ExemptIsFree(s: System, exempt: set<nat>)
    requires Inv(s)
    ensures Inv(s.(exempt := exempt))
  {
    hide RowOk, WorkerOk, CopyOk, VisitOk, SessionsExclusive, MailOk;
    DataKeepsReconciler(s, s.(exempt := exempt));
    DataKeepsInv(s, s.(exempt := exempt));
  }

  lemma LeaveKeeps(s: System, session: nat)
    requires Inv(s) && WorkerEnabled(s, session, Leave)
    ensures Inv(ApplyWorker(s, session, Leave))
  {
    hide RowOk, WorkerOk, CopyOk, VisitOk, SessionsExclusive, MailOk;
    var s' := s.(workers := s.workers - {session});
    DataKeepsReconciler(s, s');
    DataKeepsInv(s, s');
  }

  lemma WorkKeepsInv(s: System, session: nat, move: WorkerMove)
    requires Inv(s) && WorkerEnabled(s, session, move)
    requires move.NoteStarted? ==> RebindGranted(s, session)
    ensures Inv(ApplyWorker(s, session, move))
  {
    hide Inv;
    match move {
      case CancelStaleWork => CancelStaleWorkKeeps(s, session);
      case LoseContinuation(now) => LoseContinuationKeeps(s, session, now);
      case FailEarly(error) => FailEarlyKeeps(s, session, error);
      case EnterQueueing(now) => EnterQueueingKeeps(s, session, now);
      case Submit => SubmitKeeps(s, session);
      case Reject(error) => RejectKeeps(s, session, error);
      case LoseContact => LoseContactKeeps(s, session);
      case NoteQueued(now) => NoteQueuedKeeps(s, session, now);
      case NoteStarted(now) => NoteStartedKeeps(s, session, now);
      case Return(_, _, _, _, _) => ReturnKeeps(s, session, move);
      case Break => BreakKeeps(s, session);
      case Clear => ClearKeeps(s, session);
      case Close(now) => CloseKeeps(s, session, now);
      case Leave => LeaveKeeps(s, session);
    }
  }
}
