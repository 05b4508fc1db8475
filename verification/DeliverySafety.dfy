/** Safety of the delivery protocol over whole runs. */
module DeliverySafety {
  import opened Common
  import opened DeliveryRows
  import opened DeliveryClaims
  import opened DeliverySystem
  import opened DeliveryInvariant
  import DeliverySteps
  import DeliveryWorkerSteps
  import DeliveryReconcileSteps
  import DeliveryScheduleSteps

  lemma StepKeepsInv(s: System, step: Step)
    requires Inv(s) && Enabled(s, step) && Granted(s, step)
    ensures Inv(Apply(s, step))
  {
    match step {
      case World(event) => DeliverySteps.WorldKeepsInv(s, event);
      case Schedule(exclude, ids, limit, board, now, uuids) =>
        DeliveryScheduleSteps.ScheduleKeepsInv(s, exclude, ids, limit, board, now, uuids);
      case Work(session, move) => DeliveryWorkerSteps.WorkKeepsInv(s, session, move);
      case Reconcile(move) => DeliveryReconcileSteps.ReconcileKeepsInv(s, move);
    }
  }

  lemma {:induction false} RunKeepsInv(states: seq<System>, steps: seq<Step>, k: nat)
    requires GrantedRun(states, steps) && k < |states|
    ensures Inv(states[k])
  {
    if k > 0 {
      RunKeepsInv(states, steps, k - 1);
      StepKeepsInv(states[k - 1], steps[k - 1]);
    }
  }

  /** The messages issued for a delivery. */
  predicate IssuedFor(s: System, i: nat, m: nat) {
    m in s.owner && s.owner[m] == i
  }

  /** Something submitted under this message is running or may still start to. */
  predicate Outstanding(s: System, m: nat) {
    m in s.mail && (s.mail[m].Turned? ==> s.mail[m].live)
  }

  ghost predicate NothingOutstanding(s: System, i: nat) {
    forall m: nat :: IssuedFor(s, i, m) ==> !Outstanding(s, m)
  }

  predicate RecordsItsTurn(mail: map<nat, Mail>, r: Row) {
    r.message.Some? && HasTurn(mail, r.message.value) && r.turn == Some(mail[r.message.value].turn)
  }

  /** What the protocol promises of one delivery. */
  ghost predicate DeliverySafe(s: System, i: nat)
    requires i in s.db.rows
  {
    var r := s.db.rows[i];
    // at most one message can still run, and it is the row's own
    (forall m: nat :: IssuedFor(s, i, m) && Outstanding(s, m) ==> r.message == Some(m)) &&
    // a delivery that can be claimed again, now or after a wait or a recovery, has none
    (Claimable(r.status) || Waiting(r.status) ==> NothingOutstanding(s, i)) &&
    (r.status == Failed && RecoverableEnd(r.turnStatus) ==> NothingOutstanding(s, i)) &&
    // a restart finds a message id on every claimed delivery
    (r.status == Processing ==> r.message.Some?) &&
    // the recorded turn of a running delivery is the turn of its message
    (r.status == Processing && r.turnStatus == Some(InProgress) ==> RecordsItsTurn(s.mail, r)) &&
    (r.turn.Some? ==> r.turn.value in r.turns)
  }

  lemma InvIsSafe(s: System, i: nat)
    requires Inv(s) && i in s.db.rows
    ensures DeliverySafe(s, i)
  {
    var r := s.db.rows[i];
    assert RowOk(s, i);
    forall m: nat | IssuedFor(s, i, m) && Outstanding(s, m) ensures r.message == Some(m) {
      assert r.message != Some(m) ==> Quiet(s.mail, m);
    }
    if Settled(s.mail, r) {
      forall m: nat | IssuedFor(s, i, m) ensures !Outstanding(s, m) {
        assert r.message != Some(m) ==> Quiet(s.mail, m);
      }
    }
  }

  /** In every run of claims, executions, crashes, restarts and reconciliations. */
  lemma EveryDeliverySafe(states: seq<System>, steps: seq<Step>, k: nat)
    requires GrantedRun(states, steps) && k < |states|
    ensures forall i :: i in states[k].db.rows ==> DeliverySafe(states[k], i)
  {
    RunKeepsInv(states, steps, k);
    forall i | i in states[k].db.rows ensures DeliverySafe(states[k], i) {
      InvIsSafe(states[k], i);
    }
  }

  /** Each delivery has at most one running turn. */
  lemma AtMostOneLiveTurn(states: seq<System>, steps: seq<Step>, k: nat, m: nat, n: nat)
    requires GrantedRun(states, steps) && k < |states|
    requires LiveMail(states[k].mail, m) && LiveMail(states[k].mail, n)
    requires m in states[k].owner && n in states[k].owner && states[k].owner[m] == states[k].owner[n]
    ensures m == n
  {
    RunKeepsInv(states, steps, k);
    var i := states[k].owner[m];
    InvIsSafe(states[k], i);
    assert IssuedFor(states[k], i, m) && Outstanding(states[k], m);
    assert IssuedFor(states[k], i, n) && Outstanding(states[k], n);
  }

  /** No two claimed deliveries of a workspace share a session. */
  lemma SessionsStayExclusive(states: seq<System>, steps: seq<Step>, k: nat)
    requires GrantedRun(states, steps) && k < |states|
    ensures SessionsExclusive(states[k].db.rows)
  {
    RunKeepsInv(states, steps, k);
  }

  /** Two claimed deliveries of one record cannot both own its active execution. */
  lemma OneActiveExecutionPerRecord(states: seq<System>, steps: seq<Step>, k: nat, tasks: map<nat, TaskView>, i: nat,
                                    j: nat)
    requires GrantedRun(states, steps) && k < |states|
    requires var db := states[k].db;
      i in db.rows && j in db.rows && db.rows[i].status == Processing && db.rows[j].status == Processing &&
      db.rows[i].record == db.rows[j].record &&
      ActiveExecution(db, tasks, i, None) && ActiveExecution(db, tasks, j, None)
    ensures i == j
  {
    RunKeepsInv(states, steps, k);
  }

  /** A restart never sends a claimed delivery back to pending: it only makes it due. */
  lemma RestartKeepsClaims(states: seq<System>, steps: seq<Step>, k: nat, now: nat)
    requires GrantedRun(states, steps) && k < |states|
    ensures var db := states[k].db;
      forall i :: i in db.rows ==>
        i in Recover(db, now).rows &&
          Recover(db, now).rows[i] == db.rows[i].(nextAttempt := Recover(db, now).rows[i].nextAttempt) &&
        (db.rows[i].status == Processing ==> Recover(db, now).rows[i].nextAttempt.Some?)
  {
    RunKeepsInv(states, steps, k);
    forall i | i in states[k].db.rows ensures RowOk(states[k], i) { }
  }
}
