/** The invariant of the delivery protocol, and that every step keeps it. */
module DeliveryInvariant {
  import opened Common
  import opened DeliveryRows
  import opened DeliveryClaims
  import opened DeliverySystem

  /** Nothing submitted under this message id is or can still become a running turn. */
  ghost predicate Quiet(mail: map<nat, Mail>, m: nat) {
    m in mail ==> mail[m].Turned? && !mail[m].live
  }

  /** Only the row's current message may be unsettled. */
  ghost predicate OthersQuiet(s: System, i: nat, message: Option<nat>) {
    forall m :: m in s.owner && s.owner[m] == i && message != Some(m) ==> Quiet(s.mail, m)
  }

  /** The row can be claimed again without duplicating work: its current message was never accepted,
      or its one turn is over and recorded. */
  ghost predicate Settled(mail: map<nat, Mail>, r: Row) {
    r.message.Some? ==>
      var m := r.message.value;
      m !in mail || (mail[m].Turned? && !mail[m].live && r.turn == Some(mail[m].turn))
  }

  ghost predicate ProcessingOk(mail: map<nat, Mail>, r: Row) {
    r.message.Some? &&
    var m := r.message.value;
    match r.turnStatus
    case None => m !in mail
    case Some(Queueing) => true
    case Some(Queued) => true
    case Some(InProgress) => HasTurn(mail, m) && r.turn == Some(mail[m].turn)
    case _ => false
  }

  ghost predicate RowOk(s: System, i: nat)
    requires i in s.db.rows
  {
    var r := s.db.rows[i];
    OthersQuiet(s, i, r.message) &&
    (r.message.Some? ==> r.message.value in s.owner && s.owner[r.message.value] == i) &&
    (Claimable(r.status) || Waiting(r.status) ==> Settled(s.mail, r)) &&
    (r.status != Processing && r.status != Canceled && RecoverableEnd(r.turnStatus) ==> Settled(s.mail, r)) &&
    (r.status == Processing ==> ProcessingOk(s.mail, r)) &&
    (r.turn.Some? ==> r.turn.value in r.turns) &&
    (forall t :: t in r.turns ==> t in s.begun)
  }

  ghost predicate SessionsExclusive(rows: map<nat, Row>) {
    forall i, j ::
      (i in rows && j in rows && rows[i].status == Processing && rows[j].status == Processing
       && rows[i].session == rows[j].session) ==> i == j
  }

  ghost predicate OutcomeOk(s: System, item: Item, outcome: Outcome, clear: bool)
    requires item.id in s.db.rows
  {
    var r := s.db.rows[item.id];
    (clear ==> item.message !in s.mail && r.turn == item.continuation
               && (r.turnStatus == None || r.turnStatus == Some(Queueing))) &&
    (outcome.ToWait? ==> Waiting(outcome.waiting) && item.message !in s.mail && r.turn == item.continuation) &&
    (outcome.ToFinish? && outcome.retry ==> Settled(s.mail, r)) &&
    (outcome.ToFinish? && RecoverableEnd(outcome.result) ==> Settled(s.mail, r)) &&
    (outcome.ToClaimed? ==> Settled(s.mail, r))
  }

  ghost predicate WorkerOk(s: System, session: nat)
    requires session in s.workers
  {
    var w := s.workers[session];
    w.item.id in s.db.rows &&
    var r := s.db.rows[w.item.id];
    var m := w.item.message;
    r.session == session && Claimable(w.item.seen.status) &&
    (w.phase != Leaving ==> r.status == Processing && r.message == Some(m)) &&
    match w.phase
    case Prepared => r.turn == w.item.continuation && r.turnStatus == None && m !in s.mail
    case Ready => r.turn == w.item.continuation && r.turnStatus == Some(Queueing) && m !in s.mail
    case Called =>
      r.turn == w.item.continuation && m in s.mail && (r.turnStatus == Some(Queueing)
      || (r.turnStatus == Some(Queued) && !s.mail[m].InFlight?))
    case Started(t) =>
      r.turn == Some(t) && r.turnStatus == Some(InProgress) && HasTurn(s.mail, m) && s.mail[m].turn == t
    case Closing(outcome, clear) => OutcomeOk(s, w.item, outcome, clear)
    case Leaving => true
  }

  /** A copy of the row that reconcile holds: the message is still the row's, and a copied turn of that
      message is still the recorded one. */
  ghost predicate CopyOk(s: System, i: nat, seen: Row) {
    i in s.db.rows &&
    var r := s.db.rows[i];
    seen.session == r.session && seen.message == r.message && seen.message.Some? &&
    (r.status != Processing && RecoverableEnd(r.turnStatus) ==> Settled(s.mail, r)) &&
    (seen.turn.Some? ==> seen.turn.value in s.begun) &&
    (HasTurn(s.mail, seen.message.value) && seen.turn == Some(s.mail[seen.message.value].turn) ==> r.turn == seen.turn)
  }

  ghost predicate VisitOk(s: System, i: nat, visit: Visit) {
    i in s.db.rows &&
    var r := s.db.rows[i];
    match visit
    case Look(seen) => CopyOk(s, i, seen)
    case Probe(seen) => CopyOk(s, i, seen)
    case Judge(seen) =>
      CopyOk(s, i, seen) && HasTurn(s.mail, seen.message.value) && seen.turn == Some(s.mail[seen.message.value].turn)
    case Unsure => true
    case Reread(seen) =>
      r.status == Processing && r.turn == seen.turn && r.turnStatus == seen.turnStatus && r.message == seen.message
      && r.session == seen.session
  }

  ghost predicate QueueOk(s: System, queue: seq<Listing>) {
    (forall k :: 0 <= k < |queue| ==> CopyOk(s, queue[k].id, queue[k].seen)) &&
    (forall j, k :: 0 <= j < k < |queue| ==> queue[j].id != queue[k].id)
  }

  ghost predicate ReconcilerOk(s: System) {
    match s.reconciler
    case Idle => true
    case Between(queue) => QueueOk(s, queue)
    case Visiting(i, visit, queue) =>
      QueueOk(s, queue) && (forall k :: 0 <= k < |queue| ==> queue[k].id != i) &&
      VisitOk(s, i, visit) && (forall session :: session in s.workers ==> s.workers[session].item.id != i)
  }

  ghost predicate MailOk(s: System) {
    (forall m :: m in s.mail ==> m in s.owner) &&
    (forall m :: HasTurn(s.mail, m) ==> s.mail[m].turn in s.begun) &&
    (forall m, n :: HasTurn(s.mail, m) && HasTurn(s.mail, n) && s.mail[m].turn == s.mail[n].turn ==> m == n)
  }

  ghost predicate Inv(s: System) {
    MailOk(s) && SessionsExclusive(s.db.rows) &&
    (forall i :: i in s.db.rows ==> RowOk(s, i)) &&
    (forall m :: m in s.owner ==> s.owner[m] in s.db.rows) &&
    (forall session :: session in s.workers ==> WorkerOk(s, session)) &&
    ReconcilerOk(s)
  }

  // ------------------------------------------------ threads that come, move or go

  ghost predicate SameData(s: System, s': System) {
    s'.db == s.db && s'.mail == s.mail && s'.begun == s.begun && s'.owner == s.owner
  }

  ghost predicate FewerWorkers(s: System, s': System) {
    forall session :: session in s'.workers ==> session in s.workers && s'.workers[session] == s.workers[session]
  }

  lemma DataKeepsRow(s: System, s': System, i: nat)
    requires SameData(s, s') && i in s.db.rows && RowOk(s, i)
    ensures RowOk(s', i)
  {
    assert OthersQuiet(s', i, s.db.rows[i].message);
  }

  lemma DataKeepsWorker(s: System, s': System, session: nat)
    requires SameData(s, s') && session in s.workers && session in s'.workers
    requires s'.workers[session] == s.workers[session]
    requires WorkerOk(s, session)
    ensures WorkerOk(s', session)
  {
  }

  lemma DataKeepsCopy(s: System, s': System, i: nat, seen: Row)
    requires SameData(s, s') && CopyOk(s, i, seen)
    ensures CopyOk(s', i, seen)
  {
  }

  lemma DataKeepsReconciler(s: System, s': System)
    requires SameData(s, s') && FewerWorkers(s, s') && ReconcilerOk(s) && s'.reconciler == s.reconciler
    ensures ReconcilerOk(s')
  {
    hide CopyOk;
    forall j, seen | CopyOk(s, j, seen) ensures CopyOk(s', j, seen) { DataKeepsCopy(s, s', j, seen); }
  }

  /** Only threads changed, and none was added. */
  lemma DataKeepsInv(s: System, s': System)
    requires Inv(s) && SameData(s, s') && FewerWorkers(s, s') && ReconcilerOk(s')
    ensures Inv(s')
  {
    hide RowOk, WorkerOk, ReconcilerOk, SessionsExclusive;
    forall i | i in s'.db.rows ensures RowOk(s', i) { DataKeepsRow(s, s', i); }
    forall session | session in s'.workers ensures WorkerOk(s', session) { DataKeepsWorker(s, s', session); }
  }

  // ------------------------------------------------ changes no thread depends on

  /** A row change that leaves session, message, turn and turn status alone. */
  ghost predicate Calm(r: Row, r': Row) {
    r'.session == r.session && r'.message == r.message && r'.turn == r.turn && r'.turnStatus == r.turnStatus &&
    r'.turns.Keys == r.turns.Keys &&
    (r'.status == r.status
     || (r'.status == Retry && (Waiting(r.status) || (r.status == Failed && RecoverableEnd(r.turnStatus))))
     || (r'.status == Canceled && r.status != Processing))
  }

  ghost predicate CalmRows(rows: map<nat, Row>, rows': map<nat, Row>) {
    rows'.Keys == rows.Keys && forall i :: i in rows ==> Calm(rows[i], rows'[i])
  }

  lemma CalmKeepsRow(s: System, s': System, i: nat)
    requires s' == s.(db := s'.db) && CalmRows(s.db.rows, s'.db.rows)
    requires i in s.db.rows && RowOk(s, i)
    ensures RowOk(s', i)
  {
    assert Calm(s.db.rows[i], s'.db.rows[i]);
    assert OthersQuiet(s', i, s.db.rows[i].message);
    forall t | t in s'.db.rows[i].turns ensures t in s'.begun {
      assert t in s.db.rows[i].turns.Keys;
    }
  }

  lemma CalmKeepsWorker(s: System, s': System, session: nat)
    requires s' == s.(db := s'.db) && CalmRows(s.db.rows, s'.db.rows)
    requires session in s.workers && WorkerOk(s, session)
    ensures WorkerOk(s', session)
  {
    var i := s.workers[session].item.id;
    assert Calm(s.db.rows[i], s'.db.rows[i]);
  }

  lemma CalmKeepsSessions(rows: map<nat, Row>, rows': map<nat, Row>)
    requires SessionsExclusive(rows) && CalmRows(rows, rows')
    ensures SessionsExclusive(rows')
  {
    forall i, j | i in rows' && j in rows' && rows'[i].status == Processing && rows'[j].status == Processing
                  && rows'[i].session == rows'[j].session
      ensures i == j
    {
      assert Calm(rows[i], rows'[i]) && Calm(rows[j], rows'[j]);
    }
  }

  lemma CalmKeepsInv(s: System, s': System)
    requires Inv(s)
    requires s' == s.(db := s'.db) && CalmRows(s.db.rows, s'.db.rows)
    ensures Inv(s')
  {
    hide RowOk, WorkerOk, SessionsExclusive, ReconcilerOk, Calm;
    forall i | i in s'.db.rows ensures RowOk(s', i) {
      CalmKeepsRow(s, s', i);
    }
    forall session | session in s'.workers ensures WorkerOk(s', session) {
      CalmKeepsWorker(s, s', session);
    }
    CalmKeepsSessions(s.db.rows, s'.db.rows);
    CalmKeepsReconciler(s, s');
  }

  lemma CalmKeepsCopy(s: System, s': System, i: nat, seen: Row)
    requires s' == s.(db := s'.db) && CalmRows(s.db.rows, s'.db.rows)
    requires i in s.db.rows && RowOk(s, i) && CopyOk(s, i, seen)
    ensures CopyOk(s', i, seen)
  {
    assert Calm(s.db.rows[i], s'.db.rows[i]);
  }

  lemma CalmKeepsReconciler(s: System, s': System)
    requires ReconcilerOk(s) && forall i :: i in s.db.rows ==> RowOk(s, i)
    requires s' == s.(db := s'.db) && CalmRows(s.db.rows, s'.db.rows)
    ensures ReconcilerOk(s')
  {
    forall i, seen | CopyOk(s, i, seen) ensures CopyOk(s', i, seen) {
      CalmKeepsCopy(s, s', i, seen);
    }
    if s.reconciler.Visiting? {
      assert Calm(s.db.rows[s.reconciler.id], s'.db.rows[s.reconciler.id]);
    }
  }

  // ------------------------------------------------ changes to one row

  /** Every other row, and what workers and copies say about other rows, is untouched. */
  ghost predicate OnlyRow(s: System, s': System, i: nat) {
    i in s.db.rows && i in s'.db.rows && s'.db.rows == s.db.rows[i := s'.db.rows[i]] &&
    s'.mail == s.mail && s'.begun == s.begun && s'.owner == s.owner
  }

  lemma OtherRowKept(s: System, s': System, i: nat, j: nat)
    requires OnlyRow(s, s', i) && j in s.db.rows && j != i && RowOk(s, j)
    ensures j in s'.db.rows && RowOk(s', j)
  {
    assert s'.db.rows[j] == s.db.rows[j];
    assert OthersQuiet(s', j, s.db.rows[j].message);
  }

  lemma OtherWorkerKept(s: System, s': System, i: nat, session: nat)
    requires OnlyRow(s, s', i) && session in s.workers && session in s'.workers
    requires s'.workers[session] == s.workers[session]
    requires s.workers[session].item.id != i && WorkerOk(s, session)
    ensures WorkerOk(s', session)
  {
    var j := s.workers[session].item.id;
    assert s'.db.rows[j] == s.db.rows[j];
  }

  lemma OtherCopyKept(s: System, s': System, i: nat, j: nat, seen: Row)
    requires OnlyRow(s, s', i) && j != i && CopyOk(s, j, seen)
    ensures CopyOk(s', j, seen)
  {
    assert s'.db.rows[j] == s.db.rows[j];
  }

  lemma ExclusiveKept(rows: map<nat, Row>, i: nat, r': Row)
    requires i in rows && SessionsExclusive(rows) && r'.session == rows[i].session
    requires r'.status == Processing ==> rows[i].status == Processing
    ensures SessionsExclusive(rows[i := r'])
  {
  }

  /** The recorded turn changes at most to the turn of the row's current message. */
  ghost predicate TurnAdvances(s: System, r: Row, r': Row) {
    r'.session == r.session && r'.message == r.message &&
    (r'.status != Processing && RecoverableEnd(r'.turnStatus) ==> Settled(s.mail, r')) &&
    (r'.turn == r.turn ||
     (r.message.Some? && HasTurn(s.mail, r.message.value) && r'.turn == Some(s.mail[r.message.value].turn)))
  }

  lemma CopiesKept(s: System, s': System, i: nat)
    requires OnlyRow(s, s', i) && TurnAdvances(s, s.db.rows[i], s'.db.rows[i])
    requires ReconcilerOk(s) && s'.reconciler == s.reconciler
    requires forall session :: session in s'.workers ==>
      session in s.workers && s'.workers[session].item == s.workers[session].item
    requires s.reconciler.Visiting? ==> s.reconciler.id != i
    ensures ReconcilerOk(s')
  {
    forall j, seen | CopyOk(s, j, seen) ensures CopyOk(s', j, seen) {
      if j != i { OtherCopyKept(s, s', i, j, seen); }
    }
    if s.reconciler.Visiting? {
      assert s'.db.rows[s.reconciler.id] == s.db.rows[s.reconciler.id];
    }
  }

  /** A worker changes its own row and moves on. */
  lemma WorkerRowStep(s: System, s': System, session: nat)
    requires Inv(s) && session in s.workers
    requires var i := s.workers[session].item.id;
      OnlyRow(s, s', i) && RowOk(s', i) && TurnAdvances(s, s.db.rows[i], s'.db.rows[i]) &&
      (s'.db.rows[i].status == Processing ==> s.db.rows[i].status == Processing)
    requires session in s'.workers && s'.workers == s.workers[session := s'.workers[session]]
    requires s'.workers[session].item == s.workers[session].item && WorkerOk(s', session)
    requires s'.reconciler == s.reconciler
    ensures Inv(s')
  {
    hide RowOk, OutcomeOk, Settled, CopyOk, ProcessingOk, VisitOk;
    var i := s.workers[session].item.id;
    assert WorkerOk(s, session);
    forall j | j in s'.db.rows ensures RowOk(s', j) {
      if j != i { OtherRowKept(s, s', i, j); }
    }
    forall other | other in s'.workers ensures WorkerOk(s', other) {
      if other != session {
        assert WorkerOk(s, other);
        OtherWorkerKept(s, s', i, other);
      }
    }
    ExclusiveKept(s.db.rows, i, s'.db.rows[i]);
    CopiesKept(s, s', i);
  }

  /** Reconcile changes the row it visits; no worker is on that row. */
  lemma VisitRowStep(s: System, s': System)
    requires Inv(s) && s.reconciler.Visiting?
    requires var i := s.reconciler.id;
      OnlyRow(s, s', i) && RowOk(s', i) && s'.db.rows[i].session == s.db.rows[i].session &&
      (s'.db.rows[i].status == Processing ==> s.db.rows[i].status == Processing)
    requires s'.workers == s.workers
    requires s'.reconciler == Between(s.reconciler.queue)
      || (s'.reconciler.Visiting? && s'.reconciler == s.reconciler.(visit := s'.reconciler.visit)
          && VisitOk(s', s.reconciler.id, s'.reconciler.visit))
    ensures Inv(s')
  {
    var i := s.reconciler.id;
    forall j | j in s'.db.rows ensures RowOk(s', j) {
      if j != i { OtherRowKept(s, s', i, j); }
    }
    forall other | other in s'.workers ensures WorkerOk(s', other) {
      assert WorkerOk(s, other);
      OtherWorkerKept(s, s', i, other);
    }
    ExclusiveKept(s.db.rows, i, s'.db.rows[i]);
    var queue := s.reconciler.queue;
    forall k | 0 <= k < |queue| ensures CopyOk(s', queue[k].id, queue[k].seen) {
      OtherCopyKept(s, s', i, queue[k].id, queue[k].seen);
    }
  }

  // ------------------------------------------------ changes to one message

  /** The fate of one message changes; nothing else does. */
  ghost predicate OnlyMail(s: System, s': System, m: nat) {
    s'.db == s.db && s'.owner == s.owner && s.begun <= s'.begun && s'.reconciler == s.reconciler &&
    m in s.owner &&
    (forall n :: n != m ==> (n in s'.mail <==> n in s.mail) && (n in s.mail ==> s'.mail[n] == s.mail[n]))
  }
}
