/**
 The accepted-turn cap over whole runs: a delivery that was never retried after claimed work or
 unresolved MCP failures records at most three turns, through retries, waits and recoveries.
 */
module DeliveryLedger {
  import opened Common
  import opened DeliveryRows
  import opened DeliveryClaims
  import opened DeliverySystem
  import opened DeliveryInvariant
  import opened DeliverySafety
  import DeliveryBatch
  import DeliveryWorkerSteps
  import DeliveryReconcileSteps

  /** The turn of the row's current message is already in its ledger. */
  predicate Recorded(mail: map<nat, Mail>, r: Row) {
    r.message.Some? && HasTurn(mail, r.message.value) && mail[r.message.value].turn in r.turns
  }

  predicate Reclaimable(status: Status) {
    Claimable(status) || Waiting(status)
  }

  /** Room for one more turn, wherever one more can still be recorded. */
  predicate RowLedger(mail: map<nat, Mail>, r: Row) {
    |r.turns| <= MAX_ACCEPTED_TURNS && (!Recorded(mail, r) || Reclaimable(r.status) ==> |r.turns| < MAX_ACCEPTED_TURNS)
  }

  predicate Relaunches(outcome: Outcome) {
    outcome.ToWait? || (outcome.ToFinish? && outcome.retry)
  }

  ghost predicate WorkerLedger(s: System, w: Worker) {
    (w.phase.Closing? && Relaunches(w.phase.outcome) && w.item.id in s.db.rows && w.item.id !in s.exempt) ==>
      |s.db.rows[w.item.id].turns| < MAX_ACCEPTED_TURNS
  }

  ghost predicate LedgerInv(s: System) {
    (forall i :: i in s.db.rows && i !in s.exempt ==> RowLedger(s.mail, s.db.rows[i])) &&
    (forall session :: session in s.workers ==> WorkerLedger(s, s.workers[session]))
  }

  /** A row that keeps its ledger and message, and becomes reclaimable only with room left. */
  ghost predicate Level(r: Row, r': Row) {
    r'.turns.Keys == r.turns.Keys && r'.message == r.message &&
    (Reclaimable(r'.status) ==> Reclaimable(r.status) || |r.turns| < MAX_ACCEPTED_TURNS)
  }

  lemma LevelKeepsRow(mail: map<nat, Mail>, mail': map<nat, Mail>, r: Row, r': Row)
    requires RowLedger(mail, r) && Level(r, r')
    requires Recorded(mail, r) ==> Recorded(mail', r)
    ensures RowLedger(mail', r') && |r'.turns| == |r.turns|
  {
    assert |r'.turns.Keys| == |r.turns.Keys|;
  }

  /** Recorded turns stay recorded when the peer or a withdrawal changes the mail. */
  ghost predicate TurnsKept(mail: map<nat, Mail>, mail': map<nat, Mail>) {
    forall m :: HasTurn(mail, m) ==> HasTurn(mail', m) && mail'[m].turn == mail[m].turn
  }

  /** Steps that record no turn. */
  lemma LevelStep(s: System, s': System)
    requires LedgerInv(s) && TurnsKept(s.mail, s'.mail) && s.exempt <= s'.exempt
    requires s'.db.rows.Keys == s.db.rows.Keys
    requires forall i :: i in s.db.rows && i !in s'.exempt ==> Level(s.db.rows[i], s'.db.rows[i])
    requires forall session :: session in s'.workers ==>
      (session in s.workers && s'.workers[session] == s.workers[session]) || WorkerLedger(s', s'.workers[session])
    ensures LedgerInv(s')
  {
    forall i | i in s'.db.rows && i !in s'.exempt
      ensures RowLedger(s'.mail, s'.db.rows[i]) && |s'.db.rows[i].turns| == |s.db.rows[i].turns|
    {
      LevelKeepsRow(s.mail, s'.mail, s.db.rows[i], s'.db.rows[i]);
    }
  }

  // ---------------------------------------------------------------- the environment

  ghost predicate LevelRows(rows: map<nat, Row>, rows': map<nat, Row>) {
    rows'.Keys == rows.Keys && forall i :: i in rows ==> Level(rows[i], rows'[i])
  }

  lemma SameLevel(rows: map<nat, Row>)
    ensures LevelRows(rows, rows)
  {
  }

  lemma LevelTwice(rows: map<nat, Row>, rows1: map<nat, Row>, rows2: map<nat, Row>)
    requires LevelRows(rows, rows1) && LevelRows(rows1, rows2)
    ensures LevelRows(rows, rows2)
  {
    forall i | i in rows ensures Level(rows[i], rows2[i]) {
      assert Level(rows[i], rows1[i]) && Level(rows1[i], rows2[i]);
      assert |rows1[i].turns.Keys| == |rows[i].turns.Keys|;
    }
  }

  lemma RecoverFailedOneLevel(db: Db, id: nat, current: bool, tasks: map<nat, TaskView>, now: nat)
    ensures LevelRows(db.rows, RecoverFailedOne(db, id, current, tasks, now).rows)
  {
  }

  lemma {:induction false} RecoverFailedLevel(db: Db, ids: seq<nat>, current: set<nat>, tasks: map<nat, TaskView>,
                                              now: nat)
    ensures LevelRows(db.rows, RecoverFailed(db, ids, current, tasks, now).rows)
    decreases |ids|
  {
    if ids != [] {
      var one := RecoverFailedOne(db, ids[0], ids[0] in current, tasks, now);
      RecoverFailedOneLevel(db, ids[0], ids[0] in current, tasks, now);
      RecoverFailedLevel(one, ids[1..], current, tasks, now);
      LevelTwice(db.rows, one.rows, RecoverFailed(db, ids, current, tasks, now).rows);
    }
  }

  lemma RecoverLevel(s: System, now: nat)
    requires Inv(s)
    ensures LevelRows(s.db.rows, Recover(s.db, now).rows)
  {
    forall i | i in s.db.rows ensures RowOk(s, i) { }
  }

  lemma AcknowledgeLevel(db: Db, id: nat, turn: nat)
    ensures LevelRows(db.rows, Acknowledge(db, id, turn).rows)
  {
  }

  lemma BoardLevel(db: Db, agent: nat, revision: nat, record: nat)
    ensures LevelRows(db.rows, ReplaceSession(db, agent, revision).rows)
    ensures LevelRows(db.rows, RemoveAgent(db, agent).rows)
    ensures LevelRows(db.rows, PokeQueued(db, record).rows)
  {
  }

  lemma ResumeLevel(db: Db, session: nat)
    ensures LevelRows(db.rows, ResumePermission(db).rows)
    ensures LevelRows(db.rows, ResumeSession(db, session).rows)
  {
  }

  lemma WorldKeepsLedger(s: System, event: WorldStep)
    requires Inv(s) && LedgerInv(s) && WorldEnabled(s, event)
    ensures LedgerInv(ApplyWorld(s, event))
  {
    if event.Insert? {
      InsertLedger(s, event);
    } else {
      hide Inv, LedgerInv;
      EventLevel(s, event);
      EventFrame(s, event);
      LevelStep(s, ApplyWorld(s, event));
    }
  }

  lemma InsertLedger(s: System, event: WorldStep)
    requires Inv(s) && LedgerInv(s) && WorldEnabled(s, event) && event.Insert?
    ensures LedgerInv(ApplyWorld(s, event))
  {
    hide RowOk, SessionsExclusive, ReconcilerOk, MailOk;
    var s' := ApplyWorld(s, event);
    forall session | session in s'.workers ensures WorkerLedger(s', s'.workers[session]) {
      assert WorkerOk(s, session) && WorkerLedger(s, s.workers[session]);
    }
  }

  lemma EventFrame(s: System, event: WorldStep)
    requires WorldEnabled(s, event) && !event.Insert?
    ensures ApplyWorld(s, event).exempt == s.exempt && FewerWorkers(s, ApplyWorld(s, event))
  {
  }

  lemma EventLevel(s: System, event: WorldStep)
    requires Inv(s) && WorldEnabled(s, event) && !event.Insert?
    ensures LevelRows(s.db.rows, ApplyWorld(s, event).db.rows) && TurnsKept(s.mail, ApplyWorld(s, event).mail)
  {
    hide LevelRows, Inv, ReplaceSession, RemoveAgent, PokeQueued, ResumePermission, ResumeSession, Acknowledge, Recover,
      RecoverFailed;
    match event {
      case RetryFailed(ids, current, tasks, now) => RecoverFailedLevel(s.db, ids, current, tasks, now);
      case Restart(now) => RecoverLevel(s, now);
      case Ack(id, turn) => AcknowledgeLevel(s.db, id, turn);
      case Replace(agent, revision) => BoardLevel(s.db, agent, revision, 0);
      case Remove(agent) => BoardLevel(s.db, agent, 0, 0);
      case Poke(record) => BoardLevel(s.db, 0, 0, record);
      case OwnerFound(session) => ResumeLevel(s.db, session);
      case PermissionGranted => ResumeLevel(s.db, 0);
      case _ => SameLevel(s.db.rows);
    }
  }

  // ---------------------------------------------------------------- workers

  /** One row changes, and the worker on it, if any. */
  lemma OneRowLedger(s: System, s': System, i: nat)
    requires LedgerInv(s) && i in s.db.rows && i in s'.db.rows && s'.db.rows == s.db.rows[i := s'.db.rows[i]]
    requires TurnsKept(s.mail, s'.mail) && s.exempt <= s'.exempt
    requires i in s'.exempt || RowLedger(s'.mail, s'.db.rows[i])
    requires forall session :: session in s'.workers ==>
      (session in s.workers && s'.workers[session] == s.workers[session] && s.workers[session].item.id != i)
      || WorkerLedger(s', s'.workers[session])
    ensures LedgerInv(s')
  {
    forall j | j in s'.db.rows && j !in s'.exempt ensures RowLedger(s'.mail, s'.db.rows[j]) {
      if j != i { LevelKeepsRow(s.mail, s'.mail, s.db.rows[j], s'.db.rows[j]); }
    }
    forall session | session in s'.workers ensures WorkerLedger(s', s'.workers[session]) {
      if session in s.workers && s'.workers[session] == s.workers[session] {
        assert WorkerLedger(s, s.workers[session]);
      }
    }
  }

  lemma OwnRowLedger(s: System, s': System, session: nat)
    requires Inv(s) && LedgerInv(s) && session in s.workers && s.workers[session].item.id in s.db.rows
    requires var i := s.workers[session].item.id;
      i in s'.db.rows && s'.db.rows == s.db.rows[i := s'.db.rows[i]] &&
        (i in s'.exempt || RowLedger(s'.mail, s'.db.rows[i]))
    requires TurnsKept(s.mail, s'.mail) && s.exempt <= s'.exempt
    requires session in s'.workers && s'.workers == s.workers[session := s'.workers[session]]
    requires WorkerLedger(s', s'.workers[session])
    ensures LedgerInv(s')
  {
    assert WorkerOk(s, session);
    forall other | other in s'.workers && other != session
      ensures s.workers[other].item.id != s.workers[session].item.id
    {
      assert WorkerOk(s, other);
    }
    OneRowLedger(s, s', s.workers[session].item.id);
  }

  /** Adding a turn to a ledger that does not hold it. */
  lemma OneMoreTurn(turns: map<nat, bool>, t: nat)
    ensures |turns[t := false]| <= |turns| + 1
  {
    assert turns[t := false].Keys == turns.Keys + {t};
    if t in turns {
      assert turns.Keys + {t} == turns.Keys;
    } else {
      assert |turns.Keys + {t}| == |turns.Keys| + 1;
    }
  }

  /** Recording the turn of the row's current message uses the room that was kept for it. */
  lemma StartedLedger(mail: map<nat, Mail>, db: Db, i: nat, previous: Option<nat>, rebind: bool, now: nat)
    requires i in db.rows && RowLedger(mail, db.rows[i]) && db.rows[i].status == Processing
    requires db.rows[i].message.Some? && HasTurn(mail, db.rows[i].message.value)
    requires MarkStarted(db, i, mail[db.rows[i].message.value].turn, previous, rebind, now).Committed?
    ensures var db' := MarkStarted(db, i, mail[db.rows[i].message.value].turn, previous, rebind, now).db;
      i in db'.rows && db'.rows == db.rows[i := db'.rows[i]] && RowLedger(mail, db'.rows[i])
  {
    OneMoreTurn(db.rows[i].turns, mail[db.rows[i].message.value].turn);
  }

  /** A phase change with at most a level write to the worker's row. */
  lemma LevelWork(s: System, session: nat, db: Db, phase: Phase)
    requires Inv(s) && LedgerInv(s) && session in s.workers
    requires var i := s.workers[session].item.id;
      i in s.db.rows && i in db.rows && db.rows == s.db.rows[i := db.rows[i]] && Level(s.db.rows[i], db.rows[i])
    requires var s' := Advance(s.(db := db), session, phase);
      WorkerLedger(s', s'.workers[session])
    ensures LedgerInv(Advance(s.(db := db), session, phase))
  {
    var i := s.workers[session].item.id;
    if i !in s.exempt { LevelKeepsRow(s.mail, s.mail, s.db.rows[i], db.rows[i]); }
    OwnRowLedger(s, Advance(s.(db := db), session, phase), session);
  }

  lemma PhaseWork(s: System, session: nat, phase: Phase)
    requires Inv(s) && LedgerInv(s) && session in s.workers && s.workers[session].item.id in s.db.rows
    requires var s' := Advance(s, session, phase);
      WorkerLedger(s', s'.workers[session])
    ensures LedgerInv(Advance(s, session, phase))
  {
    assert s.db.rows[s.workers[session].item.id := s.db.rows[s.workers[session].item.id]] == s.db.rows;
    LevelWork(s, session, s.db, phase);
  }

  lemma CancelStaleWorkLedger(s: System, session: nat)
    requires Inv(s) && LedgerInv(s) && WorkerEnabled(s, session, CancelStaleWork)
    ensures LedgerInv(ApplyWorker(s, session, CancelStaleWork))
  {
    LevelWork(s, session, CancelStale(s.db, s.workers[session].item.id), Leaving);
  }

  lemma LoseContinuationLedger(s: System, session: nat, now: nat)
    requires Inv(s) && LedgerInv(s) && WorkerEnabled(s, session, LoseContinuation(now))
    ensures LedgerInv(ApplyWorker(s, session, LoseContinuation(now)))
  {
    DeliveryWorkerSteps.LoseContinuationKeeps(s, session, now);
    assert WorkerOk(s, session);
    LevelWork(s, session, Defer(s.db, s.workers[session].item.id, now), Closing(ToDefer, false));
  }

  lemma EnterQueueingLedger(s: System, session: nat, now: nat)
    requires Inv(s) && LedgerInv(s) && WorkerEnabled(s, session, EnterQueueing(now))
    ensures LedgerInv(ApplyWorker(s, session, EnterQueueing(now)))
  {
    var w := s.workers[session];
    LevelWork(s, session, MarkQueue(s.db, w.item.id, Queueing, w.item.continuation, now).db, Ready);
  }

  lemma NoteQueuedLedger(s: System, session: nat, now: nat)
    requires Inv(s) && LedgerInv(s) && WorkerEnabled(s, session, NoteQueued(now))
    ensures LedgerInv(ApplyWorker(s, session, NoteQueued(now)))
  {
    var w := s.workers[session];
    LevelWork(s, session, MarkQueue(s.db, w.item.id, Queued, w.item.continuation, now).db, Called);
    assert s.workers[session := w.(phase := Called)] == s.workers;
  }

  /** A failure before the start leaves the current message without a turn, hence with room. */
  lemma FailedCall(s: System, session: nat, error: Failure)
    requires Inv(s) && LedgerInv(s) && session in s.workers && s.workers[session].phase != Leaving
    requires !HasTurn(s.mail, s.workers[session].item.message)
    ensures s.workers[session].item.id in s.db.rows
    ensures LedgerInv(Advance(s, session, Closing(FailureOutcome(error), true)))
  {
    assert WorkerOk(s, session);
    PhaseWork(s, session, Closing(FailureOutcome(error), true));
  }

  lemma TurnlessMail(mail: map<nat, Mail>, mail': map<nat, Mail>, m: nat, r: Row)
    requires !HasTurn(mail, m) && (mail' == mail[m := InFlight] || mail' == mail - {m})
    ensures TurnsKept(mail, mail') && (RowLedger(mail, r) ==> RowLedger(mail', r))
    ensures r.message == Some(m) && RowLedger(mail, r) ==> |r.turns| < MAX_ACCEPTED_TURNS
  {
    forall n | HasTurn(mail, n) ensures n != m && HasTurn(mail', n) && mail'[n].turn == mail[n].turn { }
  }

  lemma OwnMessageRow(s: System, session: nat)
    requires Inv(s) && session in s.workers && s.workers[session].phase != Leaving
    ensures s.workers[session].item.id in s.db.rows
    ensures s.db.rows[s.workers[session].item.id].message == Some(s.workers[session].item.message)
  {
    assert WorkerOk(s, session);
  }

  /** Submitting or rejecting a message that has no turn. */
  lemma OwnMailLedger(s: System, s': System, session: nat)
    requires Inv(s) && LedgerInv(s) && session in s.workers && s.workers[session].phase != Leaving
    requires var m := s.workers[session].item.message;
      s'.db == s.db && s'.exempt == s.exempt && !HasTurn(s.mail, m) &&
        (s'.mail == s.mail[m := InFlight] || s'.mail == s.mail - {m})
    requires session in s'.workers && s'.workers == s.workers[session := s'.workers[session]]
    requires s'.workers[session].item == s.workers[session].item
    ensures LedgerInv(s')
  {
    OwnMessageRow(s, session);
    var i := s.workers[session].item.id;
    TurnlessMail(s.mail, s'.mail, s.workers[session].item.message, s.db.rows[i]);
    assert s.db.rows[i := s.db.rows[i]] == s.db.rows;
    OwnRowLedger(s, s', session);
  }

  lemma SubmitLedger(s: System, session: nat)
    requires Inv(s) && LedgerInv(s) && WorkerEnabled(s, session, Submit)
    ensures LedgerInv(ApplyWorker(s, session, Submit))
  {
    assert WorkerOk(s, session);
    OwnMailLedger(s, ApplyWorker(s, session, Submit), session);
  }

  lemma RejectLedger(s: System, session: nat, error: Failure)
    requires Inv(s) && LedgerInv(s) && WorkerEnabled(s, session, Reject(error))
    ensures LedgerInv(ApplyWorker(s, session, Reject(error)))
  {
    OwnMailLedger(s, ApplyWorker(s, session, Reject(error)), session);
  }

  lemma ReturnLedger(s: System, session: nat, move: WorkerMove)
    requires Inv(s) && LedgerInv(s) && move.Return? && WorkerEnabled(s, session, move)
    ensures LedgerInv(ApplyWorker(s, session, move))
  {
    var count := |s.db.rows[s.workers[session].item.id].turns|;
    PhaseWork(s, session, Closing(Decide(move.status, move.ok, move.completed, move.active, move.current, count),
      false));
  }

  lemma ClearLedger(s: System, session: nat)
    requires Inv(s) && LedgerInv(s) && WorkerEnabled(s, session, Clear)
    ensures LedgerInv(ApplyWorker(s, session, Clear))
  {
    var w := s.workers[session];
    assert WorkerLedger(s, w);
    LevelWork(s, session, ClearQueueing(s.db, w.item.id, w.item.continuation), Closing(w.phase.outcome, false));
  }

  lemma QuitLedger(s: System, session: nat)
    requires Inv(s) && LedgerInv(s) && session in s.workers && s.workers[session].item.id in s.db.rows
    ensures LedgerInv(Advance(s, session, Closing(ToDefer, false)))
  {
    PhaseWork(s, session, Closing(ToDefer, false));
  }

  lemma NoteStartedWork(s: System, session: nat, now: nat)
    requires Inv(s) && LedgerInv(s) && WorkerEnabled(s, session, NoteStarted(now)) && RebindGranted(s, session)
    ensures LedgerInv(ApplyWorker(s, session, NoteStarted(now)))
  {
    var w := s.workers[session];
    assert WorkerOk(s, session) && RowOk(s, w.item.id);
    var t := StartOutcome(s, w, now);
    if w.item.id !in s.exempt {
      StartedLedger(s.mail, s.db, w.item.id, w.item.continuation, w.item.continuation.Some?, now);
    }
    OwnRowLedger(s, ApplyWorker(s, session, NoteStarted(now)), session);
  }

  lemma CloseWork(s: System, session: nat, now: nat)
    requires Inv(s) && LedgerInv(s) && WorkerEnabled(s, session, Close(now))
    ensures LedgerInv(ApplyWorker(s, session, Close(now)))
  {
    var w := s.workers[session];
    var i := w.item.id;
    assert WorkerOk(s, session) && WorkerLedger(s, w);
    var s' := ApplyWorker(s, session, Close(now));
    ClosedLevel(s, w.item, w.phase.outcome, now);
    if i !in s'.exempt { LevelKeepsRow(s.mail, s'.mail, s.db.rows[i], s'.db.rows[i]); }
    OwnRowLedger(s, s', session);
  }

  lemma ClosedLevel(s: System, item: Item, outcome: Outcome, now: nat)
    requires item.id in s.db.rows && (outcome.ToWait? ==> Waiting(outcome.waiting))
    requires Relaunches(outcome) && item.id !in s.exempt ==> |s.db.rows[item.id].turns| < MAX_ACCEPTED_TURNS
    ensures var s' := ApplyOutcome(s, item, outcome, now);
      item.id in s'.db.rows && s'.db.rows == s.db.rows[item.id := s'.db.rows[item.id]] && s'.mail == s.mail
      && s.exempt <= s'.exempt && (item.id in s'.exempt || Level(s.db.rows[item.id], s'.db.rows[item.id]))
      && s'.workers == s.workers
  {
  }

  lemma WorkKeepsLedger(s: System, session: nat, move: WorkerMove)
    requires Inv(s) && LedgerInv(s) && WorkerEnabled(s, session, move)
    requires move.NoteStarted? ==> RebindGranted(s, session)
    ensures LedgerInv(ApplyWorker(s, session, move))
  {
    hide LedgerInv;
    match move {
      case CancelStaleWork => CancelStaleWorkLedger(s, session);
      case LoseContinuation(now) => LoseContinuationLedger(s, session, now);
      case FailEarly(error) => assert WorkerOk(s, session); FailedCall(s, session, error);
      case EnterQueueing(now) => EnterQueueingLedger(s, session, now);
      case Submit => SubmitLedger(s, session);
      case Reject(error) => RejectLedger(s, session, error);
      case LoseContact => QuitLedger(s, session);
      case NoteQueued(now) => NoteQueuedLedger(s, session, now);
      case NoteStarted(now) => NoteStartedWork(s, session, now);
      case Return(_, _, _, _, _) => ReturnLedger(s, session, move);
      case Break => QuitLedger(s, session);
      case Clear => ClearLedger(s, session);
      case Close(now) => CloseWork(s, session, now);
      case Leave => LeaveWork(s, session);
    }
  }

  lemma LeaveWork(s: System, session: nat)
    requires LedgerInv(s) && session in s.workers
    ensures LedgerInv(s.(workers := s.workers - {session}))
  {
    var s' := s.(workers := s.workers - {session});
    forall other | other in s'.workers ensures WorkerLedger(s', s'.workers[other]) {
      assert WorkerLedger(s, s.workers[other]);
    }
  }

  // ---------------------------------------------------------------- reconcile

  /** Reconcile writes the row it visits, on which no worker is. */
  lemma VisitLedger(s: System, s': System)
    requires Inv(s) && LedgerInv(s) && s.reconciler.Visiting?
    requires var i := s.reconciler.id;
      i in s.db.rows && i in s'.db.rows && s'.db.rows == s.db.rows[i := s'.db.rows[i]] &&
      (i in s'.exempt || RowLedger(s.mail, s'.db.rows[i]))
    requires s'.workers == s.workers && s.exempt <= s'.exempt && s'.mail == s.mail
    ensures LedgerInv(s')
  {
    OneRowLedger(s, s', s.reconciler.id);
  }

  ghost predicate LevelAt(s: System, db: Db, i: nat) {
    i in s.db.rows && i in db.rows && db.rows == s.db.rows[i := db.rows[i]] && Level(s.db.rows[i], db.rows[i])
  }

  lemma LevelVisit(s: System, db: Db)
    requires Inv(s) && LedgerInv(s) && s.reconciler.Visiting? && LevelAt(s, db, s.reconciler.id)
    ensures LedgerInv(Next(s.(db := db)))
  {
    var i := s.reconciler.id;
    if i !in s.exempt { LevelKeepsRow(s.mail, s.mail, s.db.rows[i], db.rows[i]); }
    VisitLedger(s, Next(s.(db := db)));
  }

  lemma ExemptVisit(s: System, ended: TurnStatus, now: nat)
    requires Inv(s) && LedgerInv(s) && s.reconciler.Visiting? && s.reconciler.id in s.db.rows
    ensures LedgerInv(Next(RetryExempt(s, s.reconciler.id, ended, now)))
  {
    VisitLedger(s, Next(RetryExempt(s, s.reconciler.id, ended, now)));
  }

  /** A write that cannot make the row reclaimable. */
  lemma PlainWrites(s: System, i: nat, seen: Row, ended: TurnStatus, result: Option<TurnStatus>, ok: bool,
                    allowStop: bool, now: nat)
    requires i in s.db.rows
    ensures LevelAt(s, s.db, i)
    ensures LevelAt(s, Finish(s.db, i, result, ok, false, false, now), i)
    ensures LevelAt(s, Defer(s.db, i, now), i)
    ensures LevelAt(s, CancelOrDefer(s.db, i, seen, ended, allowStop, now), i)
    ensures seen.turn.Some? ==> LevelAt(s, FailClaimed(s.db, i, seen.turn.value, ended, now), i)
  {
    assert s.db.rows[i := s.db.rows[i]] == s.db.rows;
    DeliveryReconcileSteps.CancelOrDeferRow(s.db, i, seen, ended, allowStop, now);
    if seen.turn.Some? { DeliveryReconcileSteps.FailClaimedRow(s.db, i, seen.turn.value, ended, now); }
  }

  /** Binding the message's turn on a visit. */
  lemma FollowLedger(s: System, s': System, seen: Row, rebind: bool, now: nat)
    requires Inv(s) && LedgerInv(s) && s.reconciler.Visiting? && CopyOk(s, s.reconciler.id, seen)
    requires CanFollow(s.mail, seen, rebind)
    requires Follow(s, s.reconciler.id, seen, rebind, now).Committed?
    requires s'.db == Follow(s, s.reconciler.id, seen, rebind, now).db
    requires s'.workers == s.workers && s'.mail == s.mail && s'.exempt == s.exempt
    ensures LedgerInv(s')
  {
    var i := s.reconciler.id;
    if i !in s.exempt { StartedLedger(s.mail, s.db, i, if rebind then seen.turn else None, rebind, now); }
    VisitLedger(s, s');
  }

  /** Only the reconciler's own position changes. */
  lemma SameLedger(s: System, s': System)
    requires LedgerInv(s) && s'.db == s.db && s'.mail == s.mail && s'.workers == s.workers && s'.exempt == s.exempt
    ensures LedgerInv(s')
  {
    forall session | session in s'.workers ensures WorkerLedger(s', s'.workers[session]) {
      assert WorkerLedger(s, s.workers[session]);
    }
  }

  lemma MaterializeLedger(s: System, rebind: bool, now: nat)
    requires Inv(s) && LedgerInv(s) && ReconcileEnabled(s, Materialize(rebind, now))
    ensures LedgerInv(ApplyReconcile(s, Materialize(rebind, now)))
  {
    var c := s.reconciler;
    var t := Follow(s, c.id, c.visit.seen, rebind, now);
    var turn := Some(s.mail[c.visit.seen.message.value].turn);
    if t.RolledBack? {
      SameLedger(s, Turn(s, Unsure));
    } else {
      FollowLedger(s, Turn(s.(db := t.db), Probe(c.visit.seen.(turn := turn, turnStatus := Some(InProgress)))),
        c.visit.seen, rebind, now);
    }
  }

  lemma FindLedger(s: System, rebind: bool, now: nat)
    requires Inv(s) && LedgerInv(s) && ReconcileEnabled(s, Find(rebind, now))
    ensures LedgerInv(ApplyReconcile(s, Find(rebind, now)))
  {
    var c := s.reconciler;
    var t := Follow(s, c.id, c.visit.seen, rebind, now);
    var turn := Some(s.mail[c.visit.seen.message.value].turn);
    if c.visit.seen.turn == turn {
      SameLedger(s, Turn(s, Judge(c.visit.seen)));
    } else if t.RolledBack? {
      SameLedger(s, Turn(s, Unsure));
    } else {
      FollowLedger(s, Turn(s.(db := t.db), Judge(c.visit.seen.(turn := turn))), c.visit.seen, rebind, now);
    }
  }

  predicate MovesOnly(move: ReconcileMove) {
    move.Begin? || move.Skip? || move.Open? || move.Doubt? || move.PassOn? || move.ReadAgain? || move.Abort?
  }

  lemma MoveLedger(s: System, move: ReconcileMove)
    requires LedgerInv(s) && ReconcileEnabled(s, move) && MovesOnly(move)
    ensures LedgerInv(ApplyReconcile(s, move))
  {
    var s' := ApplyReconcile(s, move);
    assert s' == s.(reconciler := s'.reconciler);
    SameLedger(s, s');
  }

  lemma EndLedger(s: System, move: ReconcileMove)
    requires Inv(s) && LedgerInv(s) && ReconcileEnabled(s, move)
    requires move.FinishAcknowledged? || move.Postpone? || move.Unreachable? || move.StopStale?
    ensures LedgerInv(ApplyReconcile(s, move))
  {
    var c := s.reconciler;
    match move {
      case FinishAcknowledged(ended, now) =>
        PlainWrites(s, c.id, c.visit.seen, ended, Some(ended), true, false, now);
        LevelVisit(s, Finish(s.db, c.id, Some(ended), true, false, false, now));
      case Postpone(now) =>
        PlainWrites(s, c.id, c.visit.seen, Missing, None, true, false, now);
        LevelVisit(s, Defer(s.db, c.id, now));
      case Unreachable(active, now) =>
        PlainWrites(s, c.id, c.visit.seen, Unavailable, None, false, false, now);
        if active && c.visit.seen.turn.Some? {
          LevelVisit(s, FailClaimed(s.db, c.id, c.visit.seen.turn.value, Unavailable, now));
        } else {
          LevelVisit(s, Finish(s.db, c.id, None, false, false, false, now));
        }
      case StopStale(stopped, now) =>
        if stopped == None {
          PlainWrites(s, c.id, c.visit.seen, Missing, None, true, true, now);
          LevelVisit(s, Defer(s.db, c.id, now));
        } else {
          PlainWrites(s, c.id, c.visit.seen, stopped.value, None, true, true, now);
          LevelVisit(s, CancelOrDefer(s.db, c.id, c.visit.seen, stopped.value, true, now));
        }
    }
  }

  lemma SeeCompletedLedger(s: System, move: ReconcileMove)
    requires Inv(s) && LedgerInv(s) && ReconcileEnabled(s, move) && move.SeeCompleted?
    ensures LedgerInv(ApplyReconcile(s, move))
  {
    var c := s.reconciler;
    if move.active || move.tools {
      ExemptVisit(s, move.ended, move.now);
    } else {
      PlainWrites(s, c.id, c.visit.seen, move.ended, Some(move.ended), true, false, move.now);
      LevelVisit(s, Finish(s.db, c.id, Some(move.ended), true, false, false, move.now));
    }
  }

  lemma SeeEndedLedger(s: System, move: ReconcileMove)
    requires Inv(s) && LedgerInv(s) && ReconcileEnabled(s, move) && move.SeeEnded?
    ensures LedgerInv(ApplyReconcile(s, move))
  {
    var c := s.reconciler;
    PlainWrites(s, c.id, c.visit.seen, move.ended, Some(move.ended), false, true, move.now);
    if move.active {
      ExemptVisit(s, move.ended, move.now);
    } else if !move.current {
      LevelVisit(s, CancelOrDefer(s.db, c.id, c.visit.seen, move.ended, true, move.now));
    } else {
      var retry := Interrupted(move.ended) && |s.db.rows[c.id].turns| < MAX_ACCEPTED_TURNS && move.stillCurrent;
      LevelVisit(s, Finish(s.db, c.id, Some(move.ended), false, retry, false, move.now));
    }
  }

  lemma CancelVisitLedger(s: System, move: ReconcileMove)
    requires Inv(s) && LedgerInv(s) && ReconcileEnabled(s, move) && move.CancelVisit?
    ensures LedgerInv(ApplyReconcile(s, move))
  {
    var c := s.reconciler;
    PlainWrites(s, c.id, c.visit.seen, Missing, None, false, move.allowStop, move.now);
    var db := CancelOrDefer(s.db, c.id, c.visit.seen, Missing, move.allowStop, move.now);
    LevelVisit(s, db);
    var s' := ApplyReconcile(s, move);
    var m := c.visit.seen.message;
    if s'.mail != s.mail {
      assert s'.mail == s.mail - {m.value} && s.mail[m.value].Accepted?;
      WithdrawLedger(Next(s.(db := db)), s', m.value);
    }
  }

  lemma WithdrawLedger(s: System, s': System, m: nat)
    requires LedgerInv(s) && !HasTurn(s.mail, m) && s' == s.(mail := s.mail - {m})
    ensures LedgerInv(s')
  {
    forall i | i in s'.db.rows && i !in s'.exempt ensures RowLedger(s'.mail, s'.db.rows[i]) {
      TurnlessMail(s.mail, s'.mail, m, s.db.rows[i]);
    }
    forall session | session in s'.workers ensures WorkerLedger(s', s'.workers[session]) {
      assert WorkerLedger(s, s.workers[session]);
    }
  }

  lemma KeepQueuedLedger(s: System, now: nat)
    requires Inv(s) && LedgerInv(s) && ReconcileEnabled(s, KeepQueued(now))
    ensures LedgerInv(ApplyReconcile(s, KeepQueued(now)))
  {
    hide WorkerOk, SessionsExclusive, RowOk, MailOk, QueueOk;
    var c := s.reconciler;
    var t := MarkQueue(s.db, c.id, Queued, c.visit.seen.turn, now);
    if t.RolledBack? {
      SameLedger(s, s.(reconciler := Idle));
    } else {
      LevelVisit(s, Defer(t.db, c.id, now));
    }
  }

  lemma EndClaimedLedger(s: System, now: nat)
    requires Inv(s) && LedgerInv(s) && ReconcileEnabled(s, EndClaimed(now))
    ensures LedgerInv(ApplyReconcile(s, EndClaimed(now)))
  {
    ExemptVisit(s, TurnCompleted, now);
  }

  /** The reset leaves the room it found: its message has no turn. */
  lemma ResetLedger(s: System, now: nat)
    requires Inv(s) && LedgerInv(s) && ReconcileEnabled(s, ResetUnconfirmed(now))
    ensures LedgerInv(ApplyReconcile(s, ResetUnconfirmed(now)))
  {
    var c := s.reconciler;
    assert RowOk(s, c.id);
    VisitLedger(s, ApplyReconcile(s, ResetUnconfirmed(now)));
  }

  lemma ReconcileKeepsLedger(s: System, move: ReconcileMove)
    requires Inv(s) && LedgerInv(s) && ReconcileEnabled(s, move)
    ensures LedgerInv(ApplyReconcile(s, move))
  {
    hide Inv, LedgerInv;
    match move {
      case Materialize(rebind, now) => MaterializeLedger(s, rebind, now);
      case Find(rebind, now) => FindLedger(s, rebind, now);
      case FinishAcknowledged(_, _) => EndLedger(s, move);
      case Postpone(_) => EndLedger(s, move);
      case Unreachable(_, _) => EndLedger(s, move);
      case StopStale(_, _) => EndLedger(s, move);
      case SeeCompleted(_, _, _, _) => SeeCompletedLedger(s, move);
      case SeeEnded(_, _, _, _, _) => SeeEndedLedger(s, move);
      case KeepQueued(now) => KeepQueuedLedger(s, now);
      case EndClaimed(now) => EndClaimedLedger(s, now);
      case CancelVisit(_, _, _) => CancelVisitLedger(s, move);
      case ResetUnconfirmed(now) => ResetLedger(s, now);
      case _ => MoveLedger(s, move);
    }
  }

  // ---------------------------------------------------------------- schedule

  lemma FateLedger(mail: map<nat, Mail>, r: Row, r': Row, uuid: nat, now: nat)
    requires DeliveryBatch.Fate(r, r', uuid, now) && RowLedger(mail, r)
    ensures RowLedger(mail, r') && r'.turns == r.turns
  {
  }

  lemma ScheduleKeepsLedger(s: System, exclude: set<nat>, ids: seq<nat>, limit: nat, board: Board, now: nat,
                            uuids: map<nat, nat>)
    requires LedgerInv(s) && ScheduleEnabled(s, ids, limit, now, uuids) && NoTwins(s.db.rows)
    ensures LedgerInv(ApplySchedule(s, exclude, ids, limit, board, now, uuids))
  {
    var batch := ClaimBatch(s.db, exclude + s.workers.Keys, ids, limit, board, now, uuids);
    var s' := AddItems(s.(db := batch.db), batch.items);
    DeliveryBatch.AddItemsFrame(s.(db := batch.db), batch.items);
    DeliveryBatch.BatchFates(s, exclude + s.workers.Keys, ids, limit, board, now, uuids);
    forall i | i in s'.db.rows && i !in s'.exempt
      ensures RowLedger(s'.mail, s'.db.rows[i]) && s'.db.rows[i].turns == s.db.rows[i].turns
    {
      if i in ids { FateLedger(s.mail, s.db.rows[i], s'.db.rows[i], uuids[i], now); }
    }
    forall session | session in s'.workers ensures WorkerLedger(s', s'.workers[session]) {
      if s'.workers[session].phase != Prepared { assert WorkerLedger(s, s.workers[session]); }
    }
  }

  // ---------------------------------------------------------------- runs

  lemma StepKeepsLedger(s: System, step: Step)
    requires Inv(s) && LedgerInv(s) && Enabled(s, step) && Granted(s, step)
    ensures LedgerInv(Apply(s, step))
  {
    match step {
      case World(event) => WorldKeepsLedger(s, event);
      case Schedule(exclude, ids, limit, board, now, uuids) => ScheduleKeepsLedger(s, exclude, ids, limit, board, now,
        uuids);
      case Work(session, move) => WorkKeepsLedger(s, session, move);
      case Reconcile(move) => ReconcileKeepsLedger(s, move);
    }
  }

  lemma {:induction false} RunKeepsLedger(states: seq<System>, steps: seq<Step>, k: nat)
    requires GrantedRun(states, steps) && k < |states|
    ensures LedgerInv(states[k])
  {
    if k > 0 {
      RunKeepsLedger(states, steps, k - 1);
      RunKeepsInv(states, steps, k - 1);
      StepKeepsLedger(states[k - 1], steps[k - 1]);
    }
  }

  /** At most three accepted turns, and fewer wherever the delivery may be submitted again. */
  lemma AcceptedTurnsAreCapped(states: seq<System>, steps: seq<Step>, k: nat, i: nat)
    requires GrantedRun(states, steps) && k < |states| && i in states[k].db.rows && i !in states[k].exempt
    ensures |states[k].db.rows[i].turns| <= MAX_ACCEPTED_TURNS
    ensures Reclaimable(states[k].db.rows[i].status) ==> |states[k].db.rows[i].turns| < MAX_ACCEPTED_TURNS
  {
    RunKeepsLedger(states, steps, k);
  }
}
