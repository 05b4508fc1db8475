/** Every step of the protocol keeps the invariant. */
module DeliverySteps {
  import opened Common
  import opened DeliveryRows
  import opened DeliveryClaims
  import opened DeliverySystem
  import opened DeliveryInvariant

  // ---------------------------------------------------------------- the peer

  /** A message moves forward: held, then one fresh turn, then that turn ends. */
  ghost predicate Forward(s: System, before: Mail, after: Mail) {
    match before
    case InFlight => after.Accepted? || (after.Turned? && after.live && after.turn !in s.begun)
    case Accepted => after.Turned? && after.live && after.turn !in s.begun
    case Turned(t, live) => after == Turned(t, false)
  }

  ghost predicate PeerStep(s: System, s': System, m: nat) {
    OnlyMail(s, s', m) && m in s.mail && m in s'.mail && Forward(s, s.mail[m], s'.mail[m]) && s'.workers == s.workers &&
    (forall t :: t in s'.begun ==> t in s.begun || (s'.mail[m].Turned? && t == s'.mail[m].turn)) &&
    (s'.mail[m].Turned? ==> s'.mail[m].turn in s'.begun)
  }

  lemma PeerKeepsRow(s: System, s': System, m: nat, j: nat)
    requires PeerStep(s, s', m) && j in s.db.rows && RowOk(s, j)
    ensures RowOk(s', j)
  {
    var r := s.db.rows[j];
    forall n | n in s'.owner && s'.owner[n] == j && r.message != Some(n) ensures Quiet(s'.mail, n) {
      assert Quiet(s.mail, n);
    }
  }

  lemma PeerKeepsWorker(s: System, s': System, m: nat, session: nat)
    requires PeerStep(s, s', m) && session in s.workers && WorkerOk(s, session)
    ensures WorkerOk(s', session)
  {
  }

  lemma PeerKeepsCopy(s: System, s': System, m: nat, j: nat, seen: Row)
    requires PeerStep(s, s', m) && CopyOk(s, j, seen)
    ensures CopyOk(s', j, seen)
  {
  }

  lemma PeerKeepsMail(s: System, s': System, m: nat)
    requires MailOk(s) && PeerStep(s, s', m)
    ensures MailOk(s')
  {
    forall n | HasTurn(s'.mail, n) ensures s'.mail[n].turn in s'.begun {
      if n != m { assert HasTurn(s.mail, n); }
    }
    forall a, b | HasTurn(s'.mail, a) && HasTurn(s'.mail, b) && s'.mail[a].turn == s'.mail[b].turn ensures a == b {
      if a != m { assert HasTurn(s.mail, a); }
      if b != m { assert HasTurn(s.mail, b); }
    }
  }

  lemma PeerKeepsReconciler(s: System, s': System, m: nat)
    requires ReconcilerOk(s) && PeerStep(s, s', m)
    ensures ReconcilerOk(s')
  {
    forall j, seen | CopyOk(s, j, seen) ensures CopyOk(s', j, seen) { PeerKeepsCopy(s, s', m, j, seen); }
  }

  lemma PeerKeepsInv(s: System, s': System, m: nat)
    requires Inv(s) && PeerStep(s, s', m)
    ensures Inv(s')
  {
    forall j | j in s'.db.rows ensures RowOk(s', j) { PeerKeepsRow(s, s', m, j); }
    forall session | session in s'.workers ensures WorkerOk(s', session) { PeerKeepsWorker(s, s', m, session); }
    PeerKeepsReconciler(s, s', m);
    PeerKeepsMail(s, s', m);
  }

  // ---------------------------------------------------------------- other threads

  lemma InsertKeepsRow(s: System, id: nat, r: Row, j: nat)
    requires id !in s.db.rows && (forall m :: m in s.owner ==> s.owner[m] in s.db.rows)
    requires r.status == Pending && r.message == None && r.turn == None && r.turns == map[]
    requires j == id || (j in s.db.rows && RowOk(s, j))
    ensures RowOk(s.(db := Put(s.db, id, r)), j)
  {
    if j != id {
      assert OthersQuiet(s.(db := Put(s.db, id, r)), j, s.db.rows[j].message);
    }
  }

  lemma InsertKeepsCopy(s: System, id: nat, r: Row, j: nat, seen: Row)
    requires id !in s.db.rows && CopyOk(s, j, seen)
    ensures CopyOk(s.(db := Put(s.db, id, r)), j, seen)
  {
  }

  lemma InsertKeepsInv(s: System, id: nat, r: Row)
    requires Inv(s) && id !in s.db.rows
    requires r.status == Pending && r.message == None && r.turn == None && r.turns == map[]
    ensures Inv(s.(db := Put(s.db, id, r)))
  {
    hide RowOk, WorkerOk, CopyOk, SessionsExclusive;
    var s' := s.(db := Put(s.db, id, r));
    forall j | j in s'.db.rows ensures RowOk(s', j) { InsertKeepsRow(s, id, r, j); }
    forall session | session in s'.workers ensures WorkerOk(s', session) { InsertKeepsWorker(s, id, r, session); }
    forall j, seen | CopyOk(s, j, seen) ensures CopyOk(s', j, seen) { InsertKeepsCopy(s, id, r, j, seen); }
    InsertKeepsSessions(s.db.rows, id, r);
  }

  lemma InsertKeepsWorker(s: System, id: nat, r: Row, session: nat)
    requires id !in s.db.rows && session in s.workers && WorkerOk(s, session)
    ensures WorkerOk(s.(db := Put(s.db, id, r)), session)
  {
  }

  lemma InsertKeepsSessions(rows: map<nat, Row>, id: nat, r: Row)
    requires id !in rows && r.status == Pending && SessionsExclusive(rows)
    ensures SessionsExclusive(rows[id := r])
  {
  }

  lemma RecoverFailedIsCalm(db: Db, ids: seq<nat>, current: set<nat>, tasks: map<nat, TaskView>, now: nat)
    ensures CalmRows(db.rows, RecoverFailed(db, ids, current, tasks, now).rows)
    decreases |ids|
  {
    if ids != [] {
      var one := RecoverFailedOne(db, ids[0], ids[0] in current, tasks, now);
      RecoverFailedIsCalm(one, ids[1..], current, tasks, now);
      var all := RecoverFailed(db, ids, current, tasks, now);
      forall i | i in db.rows ensures Calm(db.rows[i], all.rows[i]) {
        assert Calm(db.rows[i], one.rows[i]) && Calm(one.rows[i], all.rows[i]);
      }
    }
  }

  /** Restarting touches no claimed delivery but its next attempt: every processing row has a message id. */
  lemma RecoverIsCalm(s: System, now: nat)
    requires Inv(s)
    ensures CalmRows(s.db.rows, Recover(s.db, now).rows)
  {
    forall i | i in s.db.rows ensures Calm(s.db.rows[i], Recover(s.db, now).rows[i]) {
      assert RowOk(s, i);
    }
  }

  lemma CrashKeepsInv(s: System)
    requires Inv(s)
    ensures Inv(s.(workers := map[], reconciler := Idle))
  {
    hide RowOk, WorkerOk, SessionsExclusive, MailOk;
    DataKeepsInv(s, s.(workers := map[], reconciler := Idle));
  }

  lemma PeerEventIsForward(s: System, event: WorldStep, m: nat)
    requires MailOk(s) && WorldEnabled(s, event)
    requires event == Accept(m) || event == End(m) || (event.Start? && event.message == m)
    ensures PeerStep(s, ApplyWorld(s, event), m)
  {
  }

  lemma PeerEventKeepsInv(s: System, event: WorldStep, m: nat)
    requires Inv(s) && WorldEnabled(s, event)
    requires event == Accept(m) || event == End(m) || (event.Start? && event.message == m)
    ensures Inv(ApplyWorld(s, event))
  {
    hide RowOk, WorkerOk, ReconcilerOk, SessionsExclusive;
    PeerEventIsForward(s, event, m);
    PeerKeepsInv(s, ApplyWorld(s, event), m);
  }

  lemma BoardIsCalm(db: Db, agent: nat, revision: nat, record: nat)
    ensures CalmRows(db.rows, ReplaceSession(db, agent, revision).rows)
    ensures CalmRows(db.rows, RemoveAgent(db, agent).rows)
    ensures CalmRows(db.rows, PokeQueued(db, record).rows)
  {
  }

  lemma ResumeIsCalm(db: Db, session: nat)
    ensures CalmRows(db.rows, ResumePermission(db).rows)
    ensures CalmRows(db.rows, ResumeSession(db, session).rows)
  {
  }

  lemma OthersAreCalm(db: Db, id: nat, turn: nat, executions: map<nat, Execution>)
    ensures CalmRows(db.rows, Acknowledge(db, id, turn).rows)
    ensures CalmRows(db.rows, db.(executions := executions).rows)
  {
  }

  lemma CalmEvent(s: System, event: WorldStep)
    requires event.Replace? || event.Remove? || event.Poke? || event.ToolWrites? || event.Ack?
      || event.PermissionGranted? || event.OwnerFound?
    requires WorldEnabled(s, event)
    ensures ApplyWorld(s, event) == s.(db := ApplyWorld(s, event).db)
    ensures CalmRows(s.db.rows, ApplyWorld(s, event).db.rows)
  {
    hide CalmRows, ReplaceSession, RemoveAgent, PokeQueued, ResumePermission, ResumeSession, Acknowledge;
    match event {
      case Replace(agent, revision) => BoardIsCalm(s.db, agent, revision, 0);
      case Remove(agent) => BoardIsCalm(s.db, agent, 0, 0);
      case Poke(record) => BoardIsCalm(s.db, 0, 0, record);
      case OwnerFound(session) => ResumeIsCalm(s.db, session);
      case PermissionGranted => ResumeIsCalm(s.db, 0);
      case Ack(id, turn) => OthersAreCalm(s.db, id, turn, map[]);
      case ToolWrites(executions) => OthersAreCalm(s.db, 0, 0, executions);
    }
  }

  lemma WorldKeepsInv(s: System, event: WorldStep)
    requires Inv(s) && WorldEnabled(s, event)
    ensures Inv(ApplyWorld(s, event))
  {
    hide Inv, CalmRows, PeerStep;
    match event {
      case Insert(id, e, agent, revision, session, record) =>
        InsertKeepsInv(s, id, NewRow(e, agent, revision, session, record));
      case Accept(m) => PeerEventKeepsInv(s, event, m);
      case Start(m, _) => PeerEventKeepsInv(s, event, m);
      case End(m) => PeerEventKeepsInv(s, event, m);
      case Crash => CrashKeepsInv(s);
      case RetryFailed(ids, current, tasks, now) =>
        RecoverFailedIsCalm(s.db, ids, current, tasks, now);
        CalmKeepsInv(s, ApplyWorld(s, event));
      case Restart(now) =>
        RecoverIsCalm(s, now);
        CalmKeepsInv(s, ApplyWorld(s, event));
      case _ =>
        CalmEvent(s, event);
        CalmKeepsInv(s, ApplyWorld(s, event));
    }
  }
}
