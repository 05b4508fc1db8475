/** Every step of a reconciliation pass keeps the invariant. */
module DeliveryReconcileSteps {
  import opened Common
  import opened DeliveryRows
  import opened DeliveryClaims
  import opened DeliverySystem
  import opened DeliveryInvariant
  import DeliveryWorkerSteps

  /** What a write on the visited row must leave behind. */
  ghost predicate LeavesOk(s: System, r: Row, r': Row) {
    r'.session == r.session &&
    (r'.message == r.message || (r'.message == None && Settled(s.mail, r))) &&
    (r'.status == Processing ==> r.status == Processing && ProcessingOk(s.mail, r')) &&
    (Claimable(r'.status) || Waiting(r'.status) ==> Settled(s.mail, r')) &&
    (r'.status != Processing && r'.status != Canceled && RecoverableEnd(r'.turnStatus) ==> Settled(s.mail, r')) &&
    (r'.turn.Some? ==> r'.turn.value in r'.turns) &&
    (forall t :: t in r'.turns ==> t in s.begun)
  }

  lemma LeavesRowOk(s: System, s': System, i: nat)
    requires OnlyRow(s, s', i) && RowOk(s, i) && LeavesOk(s, s.db.rows[i], s'.db.rows[i])
    ensures RowOk(s', i)
  {
    var r := s.db.rows[i];
    forall n | n in s'.owner && s'.owner[n] == i && s'.db.rows[i].message != Some(n) ensures Quiet(s'.mail, n) {
      if r.message != Some(n) { assert Quiet(s.mail, n); }
    }
  }

  /** Write the visited row and go on to the next delivery. */
  lemma WriteAndNext(s: System, db: Db)
    requires Inv(s) && s.reconciler.Visiting?
    requires var i := s.reconciler.id;
      i in s.db.rows && i in db.rows && db.rows == s.db.rows[i := db.rows[i]] && LeavesOk(s, s.db.rows[i], db.rows[i])
    ensures Inv(Next(s.(db := db)))
  {
    var s' := Next(s.(db := db));
    assert RowOk(s, s.reconciler.id);
    LeavesRowOk(s, s', s.reconciler.id);
    VisitRowStep(s, s');
  }

  lemma ExemptNext(s: System, id: nat, ended: TurnStatus, now: nat)
    requires Inv(s) && s.reconciler.Visiting? && id == s.reconciler.id && id in s.db.rows
    requires LeavesOk(s, s.db.rows[id], FinishRow(s.db.rows[id], Some(ended), false, true, false, now))
    ensures Inv(Next(RetryExempt(s, id, ended, now)))
  {
    WriteAndNext(s, Finish(s.db, id, Some(ended), false, true, false, now));
    DeliveryWorkerSteps.ExemptIsFree(Next(s.(db := Finish(s.db, id, Some(ended), false, true, false, now))),
      s.exempt + {id});
  }

  /** Write the visited row and continue the visit. */
  lemma WriteAndStay(s: System, db: Db, visit: Visit)
    requires Inv(s) && s.reconciler.Visiting?
    requires var i := s.reconciler.id;
      i in s.db.rows && i in db.rows && db.rows == s.db.rows[i := db.rows[i]] && LeavesOk(s, s.db.rows[i], db.rows[i])
    requires VisitOk(Turn(s.(db := db), visit), s.reconciler.id, visit)
    ensures Inv(Turn(s.(db := db), visit))
  {
    var s' := Turn(s.(db := db), visit);
    assert RowOk(s, s.reconciler.id);
    LeavesRowOk(s, s', s.reconciler.id);
    VisitRowStep(s, s');
  }

  lemma Stay(s: System, visit: Visit)
    requires Inv(s) && s.reconciler.Visiting? && VisitOk(s, s.reconciler.id, visit)
    ensures Inv(Turn(s, visit))
  {
    var i := s.reconciler.id;
    assert RowOk(s, i);
    assert s.db.rows[i := s.db.rows[i]] == s.db.rows;
    assert VisitOk(Turn(s, visit), i, visit);
    WriteAndStay(s, s.db, visit);
  }

  /** Only the reconciler's own position changes. */
  lemma MovedOn(s: System, reconciler: Reconciler)
    requires Inv(s) && ReconcilerOk(s.(reconciler := reconciler))
    ensures Inv(s.(reconciler := reconciler))
  {
    hide RowOk, WorkerOk, ReconcilerOk, SessionsExclusive, MailOk;
    DataKeepsInv(s, s.(reconciler := reconciler));
  }

  lemma SameCopies(s: System, reconciler: Reconciler, j: nat, seen: Row)
    requires CopyOk(s, j, seen)
    ensures CopyOk(s.(reconciler := reconciler), j, seen)
  {
  }

  // ---------------------------------------------------------------- the pass

  lemma BeginKeeps(s: System, ids: seq<nat>, now: nat)
    requires Inv(s) && ReconcileEnabled(s, ReconcileMove.Begin(ids, now))
    ensures Inv(ApplyReconcile(s, ReconcileMove.Begin(ids, now)))
  {
    var queue := ApplyReconcile(s, ReconcileMove.Begin(ids, now)).reconciler.queue;
    var s' := s.(reconciler := Between(queue));
    forall k | 0 <= k < |queue| ensures CopyOk(s', queue[k].id, queue[k].seen) {
      assert IsDue(s.db.rows[ids[k]], now) && RowOk(s, ids[k]);
    }
    MovedOn(s, Between(queue));
  }

  lemma SkipKeeps(s: System)
    requires Inv(s) && ReconcileEnabled(s, Skip)
    ensures Inv(ApplyReconcile(s, Skip))
  {
    var s' := ApplyReconcile(s, Skip);
    forall j, seen | CopyOk(s, j, seen) ensures CopyOk(s', j, seen) { SameCopies(s, s'.reconciler, j, seen); }
    MovedOn(s, s'.reconciler);
  }

  /** The session test before a visit: a worker on the row would hold its session. */
  lemma OpenKeeps(s: System)
    requires Inv(s) && ReconcileEnabled(s, Open)
    ensures Inv(ApplyReconcile(s, Open))
  {
    var s' := ApplyReconcile(s, Open);
    forall j, seen | CopyOk(s, j, seen) ensures CopyOk(s', j, seen) { SameCopies(s, s'.reconciler, j, seen); }
    forall session | session in s.workers ensures s.workers[session].item.id != s'.reconciler.id {
      assert WorkerOk(s, session);
    }
    MovedOn(s, s'.reconciler);
  }

  // ---------------------------------------------------------------- binding a turn

  /** Binding the message's turn to a processing row, with or without the rebind. */
  lemma FollowedOk(s: System, i: nat, seen: Row, rebind: bool, now: nat)
    requires Inv(s) && CopyOk(s, i, seen) && CanFollow(s.mail, seen, rebind)
    requires Follow(s, i, seen, rebind, now).Committed?
    ensures var db := Follow(s, i, seen, rebind, now).db;
      i in db.rows && db.rows == s.db.rows[i := db.rows[i]] && LeavesOk(s, s.db.rows[i], db.rows[i]) &&
      db.rows[i].status == Processing && db.rows[i].turn == Some(s.mail[seen.message.value].turn) &&
      db.rows[i].message == seen.message && db.rows[i].session == seen.session
  {
    assert RowOk(s, i);
    assert s.mail[seen.message.value].turn in s.begun;
  }

  lemma MaterializeKeeps(s: System, rebind: bool, now: nat)
    requires Inv(s) && ReconcileEnabled(s, Materialize(rebind, now))
    ensures Inv(ApplyReconcile(s, Materialize(rebind, now)))
  {
    var c := s.reconciler;
    var t := Follow(s, c.id, c.visit.seen, rebind, now);
    if t.RolledBack? {
      Stay(s, Unsure);
    } else {
      FollowedOk(s, c.id, c.visit.seen, rebind, now);
      WriteAndStay(s, t.db,
        Probe(c.visit.seen.(turn := Some(s.mail[c.visit.seen.message.value].turn), turnStatus := Some(InProgress))));
    }
  }

  lemma FindKeeps(s: System, rebind: bool, now: nat)
    requires Inv(s) && ReconcileEnabled(s, Find(rebind, now))
    ensures Inv(ApplyReconcile(s, Find(rebind, now)))
  {
    var c := s.reconciler;
    var turn := Some(s.mail[c.visit.seen.message.value].turn);
    var t := Follow(s, c.id, c.visit.seen, rebind, now);
    if c.visit.seen.turn == turn {
      Stay(s, Judge(c.visit.seen));
    } else if t.RolledBack? {
      Stay(s, Unsure);
    } else {
      FollowedOk(s, c.id, c.visit.seen, rebind, now);
      WriteAndStay(s, t.db, Judge(c.visit.seen.(turn := turn)));
    }
  }

  // ---------------------------------------------------------------- ending the visit

  lemma FinishAcknowledgedKeeps(s: System, ended: TurnStatus, now: nat)
    requires Inv(s) && ReconcileEnabled(s, FinishAcknowledged(ended, now))
    ensures Inv(ApplyReconcile(s, FinishAcknowledged(ended, now)))
  {
    hide WorkerOk, SessionsExclusive, OutcomeOk, QueueOk, MailOk;
    assert RowOk(s, s.reconciler.id);
    WriteAndNext(s, Finish(s.db, s.reconciler.id, Some(ended), true, false, false, now));
  }

  lemma PostponeKeeps(s: System, now: nat)
    requires Inv(s) && ReconcileEnabled(s, Postpone(now))
    ensures Inv(ApplyReconcile(s, Postpone(now)))
  {
    hide WorkerOk, SessionsExclusive, OutcomeOk, QueueOk, MailOk;
    assert RowOk(s, s.reconciler.id);
    var db := Defer(s.db, s.reconciler.id, now);
    assert db.rows == s.db.rows[s.reconciler.id := db.rows[s.reconciler.id]];
    WriteAndNext(s, db);
  }

  lemma FailClaimedRow(db: Db, i: nat, turn: nat, turnStatus: TurnStatus, now: nat)
    requires i in db.rows
    ensures FailClaimed(db, i, turn, turnStatus, now).rows == db.rows
      || FailClaimed(db, i, turn, turnStatus, now).rows
         == db.rows[i := db.rows[i].(status := Failed, turnStatus := Some(turnStatus), nextAttempt := None)]
  {
  }

  lemma FailedLeavesOk(s: System, i: nat, turn: nat, now: nat)
    requires i in s.db.rows && RowOk(s, i)
    ensures var db := FailClaimed(s.db, i, turn, Unavailable, now);
      i in db.rows && db.rows == s.db.rows[i := db.rows[i]] && LeavesOk(s, s.db.rows[i], db.rows[i])
  {
    FailClaimedRow(s.db, i, turn, Unavailable, now);
    assert s.db.rows == s.db.rows[i := s.db.rows[i]];
  }

  lemma LostLeavesOk(s: System, i: nat, seen: Row, now: nat)
    requires i in s.db.rows && RowOk(s, i) && CopyOk(s, i, seen)
    ensures LeavesOk(s, s.db.rows[i], FinishRow(s.db.rows[i], None, false, false, false, now))
  {
  }

  lemma UnreachableKeeps(s: System, active: bool, now: nat)
    requires Inv(s) && ReconcileEnabled(s, Unreachable(active, now))
    ensures Inv(ApplyReconcile(s, Unreachable(active, now)))
  {
    hide LeavesOk, FailClaimed;
    hide WorkerOk, SessionsExclusive, OutcomeOk, QueueOk, MailOk;
    var c := s.reconciler;
    assert RowOk(s, c.id);
    if active && c.visit.seen.turn.Some? {
      FailedLeavesOk(s, c.id, c.visit.seen.turn.value, now);
      WriteAndNext(s, FailClaimed(s.db, c.id, c.visit.seen.turn.value, Unavailable, now));
    } else {
      LostLeavesOk(s, c.id, c.visit.seen, now);
      WriteAndNext(s, Finish(s.db, c.id, None, false, false, false, now));
    }
  }

  lemma CancelOrDeferRow(db: Db, i: nat, seen: Row, turnStatus: TurnStatus, allowStop: bool, now: nat)
    requires i in db.rows
    ensures var db' := CancelOrDefer(db, i, seen, turnStatus, allowStop, now);
      var r := db.rows[i];
      db'.rows == db.rows[i := r.(status := Canceled, turnStatus := Some(turnStatus), nextAttempt := None)]
      || db'.rows == db.rows
      || (r.status == Processing && db'.rows == db.rows[i := r.(nextAttempt := Some(now + RECHECK_DELAY))])
  {
  }

  lemma CanceledLeavesOk(s: System, i: nat, turnStatus: TurnStatus, now: nat)
    requires i in s.db.rows && RowOk(s, i)
    ensures var r := s.db.rows[i];
      LeavesOk(s, r, r) && LeavesOk(s, r,
        r.(status := Canceled, turnStatus := Some(turnStatus), nextAttempt := None)) &&
      (r.status == Processing ==> LeavesOk(s, r, r.(nextAttempt := Some(now + RECHECK_DELAY))))
  {
  }

  lemma CancelLeavesOk(s: System, i: nat, seen: Row, turnStatus: TurnStatus, allowStop: bool, now: nat)
    requires i in s.db.rows && RowOk(s, i)
    ensures var db := CancelOrDefer(s.db, i, seen, turnStatus, allowStop, now);
      i in db.rows && db.rows == s.db.rows[i := db.rows[i]] && LeavesOk(s, s.db.rows[i], db.rows[i])
  {
    CanceledLeavesOk(s, i, turnStatus, now);
    CancelOrDeferRow(s.db, i, seen, turnStatus, allowStop, now);
    CancelOrDeferFrame(s.db, i, seen, turnStatus, allowStop, now);
  }

  lemma CancelOrDeferFrame(db: Db, i: nat, seen: Row, turnStatus: TurnStatus, allowStop: bool, now: nat)
    requires i in db.rows
    ensures var db' := CancelOrDefer(db, i, seen, turnStatus, allowStop, now);
      i in db'.rows && db'.rows == db.rows[i := db'.rows[i]]
  {
    CancelOrDeferRow(db, i, seen, turnStatus, allowStop, now);
    assert db.rows == db.rows[i := db.rows[i]];
  }

  lemma StopStaleKeeps(s: System, stopped: Option<TurnStatus>, now: nat)
    requires Inv(s) && ReconcileEnabled(s, StopStale(stopped, now))
    ensures Inv(ApplyReconcile(s, StopStale(stopped, now)))
  {
    hide WorkerOk, SessionsExclusive, OutcomeOk, QueueOk, MailOk;
    var c := s.reconciler;
    assert RowOk(s, c.id);
    if stopped == None {
      var db := Defer(s.db, c.id, now);
      assert db.rows == s.db.rows[c.id := db.rows[c.id]];
      WriteAndNext(s, db);
    } else {
      CancelLeavesOk(s, c.id, c.visit.seen, stopped.value, true, now);
      WriteAndNext(s, CancelOrDefer(s.db, c.id, c.visit.seen, stopped.value, true, now));
    }
  }

  /** A judged turn that is over settles its row, whatever the row's status is by now. */
  lemma JudgedIsSettled(s: System, i: nat, seen: Row)
    requires VisitOk(s, i, Judge(seen)) && seen.turn.Some? && TurnOver(s.mail, seen.turn.value)
    ensures Settled(s.mail, s.db.rows[i])
  {
    assert HasTurn(s.mail, seen.message.value);
  }

  lemma FinishLeavesOk(s: System, i: nat, result: Option<TurnStatus>, ok: bool, retry: bool, now: nat)
    requires i in s.db.rows && RowOk(s, i) && Settled(s.mail, s.db.rows[i])
    ensures LeavesOk(s, s.db.rows[i], FinishRow(s.db.rows[i], result, ok, retry, false, now))
  {
  }

  lemma SeeCompletedKeeps(s: System, move: ReconcileMove)
    requires Inv(s) && move.SeeCompleted? && ReconcileEnabled(s, move)
    ensures Inv(ApplyReconcile(s, move))
  {
    hide WorkerOk, SessionsExclusive, OutcomeOk, QueueOk, MailOk;
    var c := s.reconciler;
    assert RowOk(s, c.id);
    JudgedIsSettled(s, c.id, c.visit.seen);
    FinishLeavesOk(s, c.id, Some(move.ended), false, true, move.now);
    FinishLeavesOk(s, c.id, Some(move.ended), true, false, move.now);
    if move.active || move.tools {
      ExemptNext(s, c.id, move.ended, move.now);
    } else {
      WriteAndNext(s, Finish(s.db, c.id, Some(move.ended), true, false, false, move.now));
    }
  }

  lemma SeeEndedKeeps(s: System, move: ReconcileMove)
    requires Inv(s) && move.SeeEnded? && ReconcileEnabled(s, move)
    ensures Inv(ApplyReconcile(s, move))
  {
    hide WorkerOk, SessionsExclusive, OutcomeOk, QueueOk, MailOk;
    var c := s.reconciler;
    assert RowOk(s, c.id);
    JudgedIsSettled(s, c.id, c.visit.seen);
    var retry := Interrupted(move.ended) && |s.db.rows[c.id].turns| < MAX_ACCEPTED_TURNS && move.stillCurrent;
    FinishLeavesOk(s, c.id, Some(move.ended), false, true, move.now);
    FinishLeavesOk(s, c.id, Some(move.ended), false, retry, move.now);
    if move.active {
      ExemptNext(s, c.id, move.ended, move.now);
    } else if !move.current {
      CancelLeavesOk(s, c.id, c.visit.seen, move.ended, true, move.now);
      WriteAndNext(s, CancelOrDefer(s.db, c.id, c.visit.seen, move.ended, true, move.now));
    } else {
      WriteAndNext(s, Finish(s.db, c.id, Some(move.ended), false, retry, false, move.now));
    }
  }

  // ---------------------------------------------------------------- unconfirmed turns

  lemma ReadAgainKeeps(s: System)
    requires Inv(s) && ReconcileEnabled(s, ReadAgain)
    ensures Inv(ApplyReconcile(s, ReadAgain))
  {
    var c := s.reconciler;
    if s.db.rows[c.id].status == Processing {
      Stay(s, Reread(s.db.rows[c.id]));
    } else {
      assert RowOk(s, c.id);
      assert s.db.rows[c.id := s.db.rows[c.id]] == s.db.rows;
      WriteAndNext(s, s.db);
    }
  }

  lemma AbortKeeps(s: System)
    requires Inv(s)
    ensures Inv(s.(reconciler := Idle))
  {
    MovedOn(s, Idle);
  }

  lemma KeepQueuedKeeps(s: System, now: nat)
    requires Inv(s) && ReconcileEnabled(s, KeepQueued(now))
    ensures Inv(ApplyReconcile(s, KeepQueued(now)))
  {
    hide WorkerOk, SessionsExclusive, OutcomeOk, QueueOk, MailOk;
    var c := s.reconciler;
    if MarkQueue(s.db, c.id, Queued, c.visit.seen.turn, now).RolledBack? {
      AbortKeeps(s);
    } else {
      assert RowOk(s, c.id);
      var db := Defer(MarkQueue(s.db, c.id, Queued, c.visit.seen.turn, now).db, c.id, now);
      assert db.rows == s.db.rows[c.id := db.rows[c.id]];
      WriteAndNext(s, db);
    }
  }

  /** A completed turn that is not the current message's leaves a message that was never submitted. */
  lemma RereadIsSettled(s: System, i: nat, seen: Row)
    requires i in s.db.rows && RowOk(s, i) && VisitOk(s, i, Reread(seen)) && !QueuePending(seen)
    requires seen.turn.Some? ==> TurnOver(s.mail, seen.turn.value)
    ensures Settled(s.mail, s.db.rows[i])
  {
  }

  lemma EndClaimedKeeps(s: System, now: nat)
    requires Inv(s) && ReconcileEnabled(s, EndClaimed(now))
    ensures Inv(ApplyReconcile(s, EndClaimed(now)))
  {
    var c := s.reconciler;
    assert RowOk(s, c.id);
    RereadIsSettled(s, c.id, c.visit.seen);
    FinishLeavesOk(s, c.id, Some(TurnCompleted), false, true, now);
    ExemptNext(s, c.id, TurnCompleted, now);
  }

  /** The explicit reset: no turn was recorded and the message was never submitted. */
  lemma ResetUnconfirmedKeeps(s: System, now: nat)
    requires Inv(s) && ReconcileEnabled(s, ResetUnconfirmed(now))
    ensures Inv(ApplyReconcile(s, ResetUnconfirmed(now)))
  {
    var c := s.reconciler;
    assert RowOk(s, c.id);
    RereadIsSettled(s, c.id, c.visit.seen);
    WriteAndNext(s, Finish(s.db, c.id, Some(Unconfirmed), false, true, true, now));
  }

  /** Removing a held message that never became a turn. */
  lemma WithdrawKeeps(s: System, m: nat)
    requires Inv(s) && m in s.mail && s.mail[m].Accepted?
    requires s.owner[m] in s.db.rows && s.db.rows[s.owner[m]].status == Canceled
    ensures Inv(s.(mail := s.mail - {m}))
  {
    hide WorkerOk, SessionsExclusive, OutcomeOk, RowOk, CopyOk;
    var s' := s.(mail := s.mail - {m});
    forall j | j in s'.db.rows ensures RowOk(s', j) {
      WithdrawKeepsRow(s, m, j);
    }
    forall session | session in s'.workers ensures WorkerOk(s', session) {
      WithdrawKeepsWorker(s, m, session);
    }
    forall j, seen | CopyOk(s, j, seen) ensures CopyOk(s', j, seen) {
      WithdrawKeepsCopy(s, m, j, seen);
    }
    DeliveryWorkerSteps.OwnMailKeepsMail(s, s', m);
  }

  lemma WithdrawKeepsRow(s: System, m: nat, j: nat)
    requires j in s.db.rows && RowOk(s, j) && m in s.mail && s.mail[m].Accepted?
    ensures RowOk(s.(mail := s.mail - {m}), j)
  {
    var s' := s.(mail := s.mail - {m});
    forall n | n in s'.owner && s'.owner[n] == j && s.db.rows[j].message != Some(n) ensures Quiet(s'.mail, n) {
      assert Quiet(s.mail, n);
    }
  }

  lemma WithdrawKeepsWorker(s: System, m: nat, session: nat)
    requires Inv(s) && session in s.workers && m in s.mail && s.mail[m].Accepted?
    requires s.owner[m] in s.db.rows && s.db.rows[s.owner[m]].status == Canceled
    ensures WorkerOk(s.(mail := s.mail - {m}), session)
  {
    assert WorkerOk(s, session) && RowOk(s, s.workers[session].item.id);
  }

  lemma WithdrawKeepsCopy(s: System, m: nat, j: nat, seen: Row)
    requires CopyOk(s, j, seen) && m in s.mail && s.mail[m].Accepted?
    ensures CopyOk(s.(mail := s.mail - {m}), j, seen)
  {
  }

  lemma CancelVisitKeeps(s: System, move: ReconcileMove)
    requires Inv(s) && move.CancelVisit? && ReconcileEnabled(s, move)
    ensures Inv(ApplyReconcile(s, move))
  {
    hide WorkerOk, SessionsExclusive, OutcomeOk, QueueOk, MailOk;
    var c := s.reconciler;
    assert RowOk(s, c.id);
    CancelLeavesOk(s, c.id, c.visit.seen, Missing, move.allowStop, move.now);
    var db := CancelOrDefer(s.db, c.id, c.visit.seen, Missing, move.allowStop, move.now);
    WriteAndNext(s, db);
    var hit := CancelHits(s.db, c.id, c.visit.seen, move.allowStop);
    var m := c.visit.seen.message;
    if hit && move.withdraw && m.Some? && m.value in s.mail && s.mail[m.value].Accepted? {
      WithdrawKeeps(Next(s.(db := db)), m.value);
    }
  }

  lemma DoubtKeeps(s: System)
    requires Inv(s) && ReconcileEnabled(s, Doubt)
    ensures Inv(ApplyReconcile(s, Doubt))
  {
    Stay(s, Unsure);
  }

  lemma PassOnKeeps(s: System)
    requires Inv(s) && ReconcileEnabled(s, PassOn)
    ensures Inv(ApplyReconcile(s, PassOn))
  {
    Stay(s, Probe(s.reconciler.visit.seen));
  }

  lemma ReconcileKeepsInv(s: System, move: ReconcileMove)
    requires Inv(s) && ReconcileEnabled(s, move)
    ensures Inv(ApplyReconcile(s, move))
  {
    hide Inv;
    match move {
      case Begin(ids, now) => BeginKeeps(s, ids, now);
      case Skip => SkipKeeps(s);
      case Open => OpenKeeps(s);
      case Doubt => DoubtKeeps(s);
      case Materialize(rebind, now) => MaterializeKeeps(s, rebind, now);
      case PassOn => PassOnKeeps(s);
      case FinishAcknowledged(ended, now) => FinishAcknowledgedKeeps(s, ended, now);
      case Postpone(now) => PostponeKeeps(s, now);
      case Unreachable(active, now) => UnreachableKeeps(s, active, now);
      case Find(rebind, now) => FindKeeps(s, rebind, now);
      case StopStale(stopped, now) => StopStaleKeeps(s, stopped, now);
      case SeeCompleted(_, _, _, _) => SeeCompletedKeeps(s, move);
      case SeeEnded(_, _, _, _, _) => SeeEndedKeeps(s, move);
      case ReadAgain => ReadAgainKeeps(s);
      case KeepQueued(now) => KeepQueuedKeeps(s, now);
      case EndClaimed(now) => EndClaimedKeeps(s, now);
      case CancelVisit(_, _, _) => CancelVisitKeeps(s, move);
      case ResetUnconfirmed(now) => ResetUnconfirmedKeeps(s, now);
      case Abort => AbortKeeps(s);
    }
  }
}
