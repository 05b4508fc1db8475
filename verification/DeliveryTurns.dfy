/**
 Turns over whole runs: every ledger entry is the turn of a message issued for that very delivery, a turn that was
 left behind is never recorded again, and so a late stop revokes nothing newer.
 */
module DeliveryTurns {
  import opened Common
  import opened DeliveryRows
  import opened DeliveryClaims
  import opened DeliverySystem
  import opened DeliveryInvariant
  import opened DeliverySafety
  import opened DeliveryActions
  import DeliveryBatch
  import DeliveryLedger

  // ---------------------------------------------------------------- messages keep their owner and their turn

  /** Message `m` was issued for delivery `i` and became turn `t`. */
  predicate IssuedTurn(s: System, i: nat, t: nat, m: nat) {
    IssuedFor(s, i, m) && HasTurn(s.mail, m) && s.mail[m].turn == t
  }

  ghost predicate OwnersKept(owner: map<nat, nat>, owner': map<nat, nat>) {
    forall m :: m in owner ==> m in owner' && owner'[m] == owner[m]
  }

  lemma {:induction false} AddItemsOwners(s: System, items: seq<Item>, owner: map<nat, nat>)
    requires OwnersKept(owner, s.owner)
    requires forall k :: 0 <= k < |items| && items[k].message in owner ==> owner[items[k].message] == items[k].id
    ensures OwnersKept(owner, AddItems(s, items).owner)
    decreases |items|
  {
    if items != [] {
      var it := items[0];
      var workers := s.workers[it.seen.session := Worker(it, Prepared)];
      AddItemsOwners(s.(owner := s.owner[it.message := it.id], workers := workers), items[1..], owner);
    }
  }

  /** A claim reuses only the delivery's own message id. */
  lemma ScheduleOwners(s: System, step: Step)
    requires Inv(s) && step.Schedule? && Enabled(s, step) && Granted(s, step)
    ensures OwnersKept(s.owner, Apply(s, step).owner) && Apply(s, step).mail == s.mail
  {
    hide ClaimLoop, NoTwins;
    var exclude := step.exclude + s.workers.Keys;
    var batch := ClaimBatch(s.db, exclude, step.ids, step.limit, step.board, step.now, step.uuids);
    DeliveryBatch.BatchFates(s, exclude, step.ids, step.limit, step.board, step.now, step.uuids);
    DeliveryBatch.AddItemsFrame(s.(db := batch.db), batch.items);
    forall k | 0 <= k < |batch.items| && batch.items[k].message in s.owner
      ensures s.owner[batch.items[k].message] == batch.items[k].id
    {
      assert DeliveryBatch.Taken(s.db.rows, batch.db.rows, batch.items[k], step.uuids, step.now);
      assert RowOk(s, batch.items[k].id);
    }
    AddItemsOwners(s.(db := batch.db), batch.items, s.owner);
  }

  /** A worker submits a message that has no turn, and withdraws one only while it is in flight. */
  lemma WorkMail(s: System, session: nat, move: WorkerMove)
    requires Inv(s) && WorkerEnabled(s, session, move)
    ensures DeliveryLedger.TurnsKept(s.mail, ApplyWorker(s, session, move).mail)
    ensures ApplyWorker(s, session, move).owner == s.owner
  {
    hide Inv, RowOk, MarkStarted, MarkQueue, Finish, Defer, Wait, CancelStale, CancelOrDefer, ClearQueueing, CancelHits;
    if move.Submit? { NotSubmitted(s, session); }
  }

  lemma NotSubmitted(s: System, session: nat)
    requires Inv(s) && session in s.workers && s.workers[session].phase.Ready?
    ensures s.workers[session].item.message !in s.mail
  {
    assert WorkerOk(s, session);
  }

  lemma ReconcileMail(s: System, move: ReconcileMove)
    requires ReconcileEnabled(s, move)
    ensures DeliveryLedger.TurnsKept(s.mail, ApplyReconcile(s, move).mail)
    ensures ApplyReconcile(s, move).owner == s.owner
  {
    hide MarkStarted, MarkQueue, Finish, Defer, CancelOrDefer, FailClaimed, CancelHits, TurnOver;
  }

  lemma WorldMail(s: System, event: WorldStep)
    requires WorldEnabled(s, event)
    ensures DeliveryLedger.TurnsKept(s.mail, ApplyWorld(s, event).mail) && ApplyWorld(s, event).owner == s.owner
  {
  }

  lemma IssueStays(s: System, step: Step)
    requires Inv(s) && Enabled(s, step) && Granted(s, step)
    ensures DeliveryLedger.TurnsKept(s.mail, Apply(s, step).mail) && OwnersKept(s.owner, Apply(s, step).owner)
  {
    match step {
      case World(event) => WorldMail(s, event);
      case Schedule(_, _, _, _, _, _) => ScheduleOwners(s, step);
      case Work(session, move) => WorkMail(s, session, move);
      case Reconcile(move) => ReconcileMail(s, move);
    }
  }

  /** A step keeps every delivery and its ledger, up to the turn it now runs; a tool writes no delivery. */
  lemma RowsGrow(s: System, step: Step)
    requires Enabled(s, step)
    ensures Grows(s.db.rows, Apply(s, step).db.rows)
  {
    if step.World? && step.event.ToolWrites? {
      NothingKept(s.db.rows);
      KeptGrows(s.db.rows, s.db.rows);
    } else {
      StepOrderly(s, step);
    }
  }

  lemma GrowsAt(rows: map<nat, Row>, rows': map<nat, Row>, i: nat)
    requires Grows(rows, rows')
    ensures i in rows ==> i in rows' && Same(rows[i], rows'[i])
    ensures i in rows' && i !in rows ==> rows'[i].turns == map[]
  {
  }

  // ---------------------------------------------------------------- where ledger entries come from

  ghost predicate Issued(s: System, i: nat)
    requires i in s.db.rows
  {
    forall t :: t in s.db.rows[i].turns ==> exists m: nat :: IssuedTurn(s, i, t, m)
  }

  lemma IssuedStep(s: System, step: Step, i: nat)
    requires Inv(s) && Enabled(s, step) && Granted(s, step) && i in Apply(s, step).db.rows
    requires i in s.db.rows ==> Issued(s, i)
    ensures Issued(Apply(s, step), i)
  {
    hide Enabled, Apply, Granted, Inv, Grows;
    var s' := Apply(s, step);
    StepKeepsInv(s, step);
    IssueStays(s, step);
    RowsGrow(s, step);
    GrowsAt(s.db.rows, s'.db.rows, i);
    forall t | t in s'.db.rows[i].turns ensures exists m: nat :: IssuedTurn(s', i, t, m) {
      if i in s.db.rows && t in s.db.rows[i].turns {
        var m: nat :| IssuedTurn(s, i, t, m);
        assert IssuedTurn(s', i, t, m);
      } else {
        NewTurnIsIssued(s, s', i, t);
      }
    }
  }

  /** A new ledger entry is the turn of the message the delivery holds now. */
  lemma NewTurnIsIssued(s: System, s': System, i: nat, t: nat)
    requires Inv(s') && i in s.db.rows && i in s'.db.rows && Same(s.db.rows[i], s'.db.rows[i])
    requires t in s'.db.rows[i].turns && t !in s.db.rows[i].turns
    ensures s'.db.rows[i].message.Some? && IssuedTurn(s', i, t, s'.db.rows[i].message.value)
  {
    assert t in s'.db.rows[i].turns.Keys;
    assert RowOk(s', i);
  }

  /** In every run each turn in a delivery's ledger is the turn of a message that was issued for that delivery. */
  lemma {:induction false} LedgerIsIssued(states: seq<System>, steps: seq<Step>, k: nat, i: nat)
    requires GrantedRun(states, steps) && k < |states| && i in states[k].db.rows
    ensures Issued(states[k], i)
  {
    hide Enabled, Apply, Granted, Issued;
    if k > 0 {
      RunKeepsInv(states, steps, k - 1);
      if i in states[k - 1].db.rows { LedgerIsIssued(states, steps, k - 1, i); }
      IssuedStep(states[k - 1], steps[k - 1], i);
    }
  }

  /** No turn is in the ledgers of two deliveries. */
  lemma LedgersAreDisjoint(states: seq<System>, steps: seq<Step>, k: nat, i: nat, j: nat, t: nat)
    requires GrantedRun(states, steps) && k < |states| && i in states[k].db.rows && j in states[k].db.rows
    requires t in states[k].db.rows[i].turns && t in states[k].db.rows[j].turns
    ensures i == j
  {
    LedgerIsIssued(states, steps, k, i);
    LedgerIsIssued(states, steps, k, j);
    RunKeepsInv(states, steps, k);
    var m: nat :| IssuedTurn(states[k], i, t, m);
    var n: nat :| IssuedTurn(states[k], j, t, n);
    assert MailOk(states[k]);
  }

  // ---------------------------------------------------------------- turns left behind

  /** The delivery holds another message than the one that became this turn. */
  predicate LeftBehind(s: System, i: nat, t: nat, m: nat) {
    IssuedTurn(s, i, t, m) && i in s.db.rows && s.db.rows[i].message != Some(m)
  }

  lemma StaysBehind(s: System, step: Step, i: nat, t: nat, m: nat)
    requires Inv(s) && Enabled(s, step) && Granted(s, step) && LeftBehind(s, i, t, m)
    ensures LeftBehind(Apply(s, step), i, t, m)
  {
    IssueStays(s, step);
    MessageStep(s, step, i);
  }

  /** The tools wrote an execution of the delivery's agent and session at this turn. */
  predicate BroughtBack(step: Step, r: Row, t: nat) {
    step.World? && step.event.ToolWrites? && OwnsExecution(Db(map[], step.event.executions), r, t)
  }

  lemma NotRebound(s: System, s': System, i: nat, t: nat, m: nat, j: nat, k: nat)
    requires Inv(s') && LeftBehind(s', i, t, m) && Rebound(s.db, s'.db, j, k)
    ensures s'.db.executions[k].turn != Some(t)
  {
    assert RowOk(s', j);
    assert MailOk(s');
  }

  lemma NotOwnedAfter(s: System, s': System, i: nat, t: nat, m: nat)
    requires Inv(s') && i in s.db.rows && LeftBehind(s', i, t, m) && Same(s.db.rows[i], s'.db.rows[i])
    requires Follows(s.db, s'.db) && !OwnsExecution(s.db, s.db.rows[i], t)
    ensures !OwnsExecution(s'.db, s'.db.rows[i], t)
  {
    hide Inv, LeftBehind;
    var k := s.db.rows[i].record;
    if k in s'.db.executions && s'.db.executions[k] != s.db.executions[k] {
      var j :| MovedBy(s.db, s'.db, j, k);
      if Rebound(s.db, s'.db, j, k) { NotRebound(s, s', i, t, m, j, k); }
    }
  }

  lemma ToolsLeaveUnowned(s: System, step: Step, i: nat, t: nat)
    requires Enabled(s, step) && step.World? && step.event.ToolWrites? && i in s.db.rows
    requires !BroughtBack(step, s.db.rows[i], t)
    ensures var s' := Apply(s, step);
      s'.db.rows == s.db.rows && !OwnsExecution(s'.db, s'.db.rows[i], t)
  {
  }

  /** No protocol step moves an execution to a turn that was left behind. */
  lemma NotOwnedAgain(s: System, step: Step, i: nat, t: nat, m: nat)
    requires Inv(s) && Enabled(s, step) && Granted(s, step) && LeftBehind(s, i, t, m)
    requires !OwnsExecution(s.db, s.db.rows[i], t) && !BroughtBack(step, s.db.rows[i], t)
    ensures var s' := Apply(s, step);
      i in s'.db.rows && Same(s.db.rows[i], s'.db.rows[i]) && !OwnsExecution(s'.db, s'.db.rows[i], t)
  {
    hide Enabled, Apply, Granted, Inv, Grows, Follows, OwnsExecution;
    RowsGrow(s, step);
    GrowsAt(s.db.rows, Apply(s, step).db.rows, i);
    if step.World? && step.event.ToolWrites? {
      ToolsLeaveUnowned(s, step, i, t);
    } else {
      StepKeepsInv(s, step);
      StaysBehind(s, step, i, t, m);
      StepOrderly(s, step);
      NotOwnedAfter(s, Apply(s, step), i, t, m);
    }
  }

  lemma {:induction false} StaysUnowned(states: seq<System>, steps: seq<Step>, a: nat, b: nat, i: nat, t: nat, m: nat)
    requires GrantedRun(states, steps) && a <= b < |states| && LeftBehind(states[a], i, t, m)
    requires !OwnsExecution(states[a].db, states[a].db.rows[i], t)
    requires forall j :: a <= j < b ==> !BroughtBack(steps[j], states[a].db.rows[i], t)
    ensures LeftBehind(states[b], i, t, m) && !OwnsExecution(states[b].db, states[b].db.rows[i], t)
    ensures var r, r' := states[a].db.rows[i], states[b].db.rows[i];
      r'.record == r.record && r'.agent == r.agent && r'.session == r.session
    decreases b
  {
    hide Enabled, Apply, Granted, IssuedTurn, Inv;
    if a < b {
      StaysUnowned(states, steps, a, b - 1, i, t, m);
      RunKeepsInv(states, steps, b - 1);
      StaysBehind(states[b - 1], steps[b - 1], i, t, m);
      assert !BroughtBack(steps[b - 1], states[a].db.rows[i], t);
      NotOwnedAgain(states[b - 1], steps[b - 1], i, t, m);
    }
  }

  /** The delivery recorded this turn, and it is not the turn of the message it holds now. */
  predicate Past(s: System, i: nat, t: nat) {
    i in s.db.rows && t in s.db.rows[i].turns &&
    var m := s.db.rows[i].message;
    (m.Some? && HasTurn(s.mail, m.value) ==> s.mail[m.value].turn != t)
  }

  lemma UnownedStopMisses(db: Db, i: nat, t: nat, later: nat, ended: TurnStatus, seen: Row)
    requires i in db.rows && !OwnsExecution(db, db.rows[i], t) && seen.turn == Some(t)
    ensures StopActive(db, i, t, later) == db && FailClaimed(db, i, t, ended, later) == db
    ensures CancelReconciled(db, i, seen, ended, true, later).executions == db.executions
  {
  }

  /** Once the execution of a delivery's record left a past turn of it, a stop aimed at that turn revokes nothing,
      whichever transaction carries it, at any later time of any run, unless a tool call of that very turn claimed
      the record again. */
  lemma LateStopRevokesNothing(states: seq<System>, steps: seq<Step>, a: nat, b: nat, i: nat, t: nat,
                               later: nat, ended: TurnStatus, seen: Row)
    requires GrantedRun(states, steps) && a <= b < |states| && Past(states[a], i, t)
    requires !OwnsExecution(states[a].db, states[a].db.rows[i], t)
    requires forall j :: a <= j < b ==> !BroughtBack(steps[j], states[a].db.rows[i], t)
    requires seen.turn == Some(t)
    ensures var db := states[b].db;
      StopActive(db, i, t, later) == db && FailClaimed(db, i, t, ended, later) == db &&
      CancelReconciled(db, i, seen, ended, true, later).executions == db.executions
  {
    hide Enabled, Apply, Granted, Inv;
    LedgerIsIssued(states, steps, a, i);
    var m: nat :| IssuedTurn(states[a], i, t, m);
    StaysUnowned(states, steps, a, b, i, t, m);
    UnownedStopMisses(states[b].db, i, t, later, ended, seen);
  }
}
