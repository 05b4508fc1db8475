/**
 The two tables the delivery protocol writes, task_event_deliveries and
 task_executions, and every SQL transaction on them as a function from one
 database to the next.  Event, agent, session, turn and message identifiers are
 plain tokens; times are seconds.
 */
module DeliveryRows {
  import opened Common

  datatype Status =
    | Pending | Retry | Processing
    | WaitingPermission | WaitingSession
    | Completed | Failed | Canceled

  datatype TurnStatus =
    | Queueing | Queued | InProgress
    | TurnCompleted | TurnSuccess | TurnFailed | TurnCancelled | TurnCanceled | TurnInterrupted
    | Unconfirmed | Unavailable | Missing | Inactive

  /** One delivery.  `record` is the record of its (immutable) event, and `turns` holds
      its rows of task_delivery_turns: each recorded turn with its acknowledgment. */
  datatype Row = Row(
    event: nat, agent: nat, revision: nat, session: nat, record: nat,
    status: Status, attempts: nat,
    turn: Option<nat>, turnStatus: Option<TurnStatus>, message: Option<nat>,
    nextAttempt: Option<nat>, startedAt: Option<nat>,
    turns: map<nat, bool>)

  datatype Execution = Execution(agent: nat, session: nat, turn: Option<nat>, active: bool, updatedAt: nat)

  datatype Db = Db(rows: map<nat, Row>, executions: map<nat, Execution>)

  /** What the saved snapshot of a record says to the execution check: whether its status
      is an execution state, the agent it names, and when it was saved. */
  datatype TaskView = TaskView(executing: bool, agent: Option<nat>, updatedAt: Option<nat>)

  /** A transaction that may raise: nothing is written when it rolls back. */
  datatype Txn = Committed(db: Db) | RolledBack

  const MAX_ACCEPTED_TURNS := 3
  const UNCONFIRMED_LEASE := 600
  const RECHECK_DELAY := 5

  predicate Claimable(status: Status) {
    status == Pending || status == Retry
  }

  predicate Waiting(status: Status) {
    status == WaitingPermission || status == WaitingSession
  }

  predicate QueuePending(r: Row) {
    r.turnStatus == Some(Queueing) || r.turnStatus == Some(Queued)
  }

  predicate RecoverableEnd(ts: Option<TurnStatus>) {
    ts == Some(TurnInterrupted) || ts == Some(TurnCancelled) || ts == Some(TurnCanceled) || ts == Some(Unconfirmed)
  }

  predicate Interrupted(ts: TurnStatus) {
    ts == TurnInterrupted || ts == TurnCancelled || ts == TurnCanceled
  }

  predicate Due(r: Row, now: nat) {
    r.nextAttempt == None || r.nextAttempt.value <= now
  }

  function Put(db: Db, id: nat, r: Row): Db {
    db.(rows := db.rows[id := r])
  }

  /** The rows an UPDATE with condition `hit` rewrites, and all the others unchanged. */
  function Update(rows: map<nat, Row>, hit: Row -> bool, set_: Row -> Row): map<nat, Row> {
    map id | id in rows :: if hit(rows[id]) then set_(rows[id]) else rows[id]
  }

  function Pow2(n: nat): nat {
    if n == 0 then 1 else 2 * Pow2(n - 1)
  }

  function Min(a: nat, b: nat): nat {
    if a < b then a else b
  }

  function RetryDelay(attempts: nat): nat {
    Min(60, Pow2(Min(attempts, 6)))
  }

  // ---------------------------------------------------------------- executions

  /** The execution row of the delivery's record, when it is active and owned by exactly this
      delivery's agent, session and turn and the saved snapshot does not contradict it. */
  function ActiveExecution(db: Db, tasks: map<nat, TaskView>, id: nat, turn: Option<nat>): bool {
    id in db.rows &&
    var r := db.rows[id];
    r.record in db.executions &&
    var e := db.executions[r.record];
    var expected := if turn.Some? then turn else r.turn;
    e.active && e.agent == r.agent && e.session == r.session &&
    expected.Some? && e.turn == expected &&
    (r.record in tasks ==>
      var t := tasks[r.record];
      var confirms := t.executing && (t.agent == None || t.agent == Some(r.agent));
      var predates := t.updatedAt == None || t.updatedAt.value <= e.updatedAt;
      confirms || predates)
  }

  /** The WHERE clause shared by every rebind and stop: the active row of this agent, session and turn. */
  predicate OwnsExecution(db: Db, r: Row, turn: nat) {
    r.record in db.executions &&
    var e := db.executions[r.record];
    e.active && e.agent == r.agent && e.session == r.session && e.turn == Some(turn)
  }

  function Rebind(db: Db, id: nat, previous: nat, turn: nat, now: nat): Txn {
    if id in db.rows && OwnsExecution(db, db.rows[id], previous) then
      var k := db.rows[id].record;
      Committed(db.(executions := db.executions[k := db.executions[k].(turn := Some(turn), updatedAt := now)]))
    else RolledBack
  }

  function StopActive(db: Db, id: nat, turn: nat, now: nat): Db {
    if id in db.rows && OwnsExecution(db, db.rows[id], turn) then
      var k := db.rows[id].record;
      db.(executions := db.executions[k := db.executions[k].(active := false, updatedAt := now)])
    else db
  }

  // ---------------------------------------------------------------- deliveries

  function Recover(db: Db, now: nat): Db {
    db.(rows := map id | id in db.rows ::
      var r := db.rows[id];
      if r.status != Processing then r
      else if r.turn == None && r.message == None then
        r.(status := Pending, startedAt := None, nextAttempt := None)
      else r.(nextAttempt := if r.nextAttempt == None then Some(now) else r.nextAttempt))
  }

  /** finish_task_delivery; it has no status guard. */
  function FinishRow(r: Row, result: Option<TurnStatus>, ok: bool, retry: bool, reset: bool, now: nat): Row {
    r.(status := if retry then Retry else if ok then Completed else Failed,
       turnStatus := if result.Some? then result else r.turnStatus,
       nextAttempt := if retry then Some(now + RetryDelay(r.attempts)) else None,
       message := if reset then None else r.message)
  }

  function Finish(db: Db, id: nat, result: Option<TurnStatus>, ok: bool, retry: bool, reset: bool, now: nat): Db {
    if id in db.rows then Put(db, id, FinishRow(db.rows[id], result, ok, retry, reset, now)) else db
  }

  /** fail_claimed_task_delivery: only the processing row that owns the active execution, which it stops. */
  function FailClaimed(db: Db, id: nat, turn: nat, turnStatus: TurnStatus, now: nat): Db {
    if id in db.rows && db.rows[id].status == Processing && db.rows[id].turn == Some(turn)
       && OwnsExecution(db, db.rows[id], turn) then
      StopActive(
        Put(db, id, db.rows[id].(status := Failed, turnStatus := Some(turnStatus), nextAttempt := None)),
        id, turn, now)
    else db
  }

  function Wait(db: Db, id: nat, waiting: Status, continuation: bool): Db {
    if id in db.rows && db.rows[id].status == Processing && (db.rows[id].turn == None || continuation) then
      Put(db, id, db.rows[id].(status := waiting, nextAttempt := None, startedAt := None))
    else db
  }

  function Resume(r: Row): Row {
    r.(status := Retry, nextAttempt := None)
  }

  function ResumeSession(db: Db, session: nat): Db {
    db.(rows := Update(db.rows, (r: Row) => r.status == WaitingSession && r.session == session, Resume))
  }

  function ResumePermission(db: Db): Db {
    db.(rows := Update(db.rows, (r: Row) => r.status == WaitingPermission, Resume))
  }

  /** mark_task_delivery_turn_started: the optional rebind, the row and its ledger entry commit together. */
  function MarkStarted(db: Db, id: nat, turn: nat, previous: Option<nat>, rebind: bool, now: nat): Txn {
    if rebind && previous == None then RolledBack else
    var bound := if rebind then Rebind(db, id, previous.value, turn, now) else Committed(db);
    if bound.RolledBack? || id !in db.rows then RolledBack else
    var r := db.rows[id];
    if r.status == Processing && (previous == None || r.turn == previous) then
      Committed(Put(bound.db, id, r.(
        turn := Some(turn), turnStatus := Some(InProgress), startedAt := Some(now),
        nextAttempt := Some(now + RECHECK_DELAY),
        turns := if turn in r.turns then r.turns else r.turns[turn := false])))
    else RolledBack
  }

  predicate AtTurn(r: Row, previous: Option<nat>) {
    r.status == Processing && r.turn == previous
  }

  function MarkQueue(db: Db, id: nat, state: TurnStatus, previous: Option<nat>, now: nat): Txn {
    if id in db.rows && AtTurn(db.rows[id], previous) then
      Committed(Put(db, id, db.rows[id].(turnStatus := Some(state), nextAttempt := Some(now + RECHECK_DELAY))))
    else RolledBack
  }

  function ClearQueueing(db: Db, id: nat, previous: Option<nat>): Db {
    if id in db.rows && AtTurn(db.rows[id], previous) && db.rows[id].turnStatus == Some(Queueing) then
      Put(db, id, db.rows[id].(turnStatus := None))
    else db
  }

  function Acknowledge(db: Db, id: nat, turn: nat): Db {
    if id in db.rows && db.rows[id].status == Processing && db.rows[id].turn == Some(turn) &&
      turn in db.rows[id].turns then
      Put(db, id, db.rows[id].(turns := db.rows[id].turns[turn := true]))
    else db
  }

  function Defer(db: Db, id: nat, now: nat): Db {
    if id in db.rows && db.rows[id].status == Processing then
      Put(db, id, db.rows[id].(nextAttempt := Some(now + RECHECK_DELAY)))
    else db
  }

  function CancelStale(db: Db, id: nat): Db {
    if id in db.rows && db.rows[id].status == Processing && db.rows[id].turn == None then
      Put(db, id, db.rows[id].(status := Canceled))
    else db
  }

  /** The NOT EXISTS clause of the cancellation: any active execution of this agent and session blocks it. */
  predicate ExecutionBlocks(db: Db, r: Row) {
    r.record in db.executions &&
    var e := db.executions[r.record];
    e.active && e.agent == r.agent && e.session == r.session
  }

  /** The compare-and-set of cancel_reconciled_task_delivery. */
  predicate CancelHits(db: Db, id: nat, seen: Row, allowStop: bool) {
    id in db.rows &&
    var r := db.rows[id];
    r.status == seen.status && r.turn == seen.turn && r.turnStatus == seen.turnStatus &&
    (allowStop || !ExecutionBlocks(db, r))
  }

  function CancelReconciled(db: Db, id: nat, seen: Row, turnStatus: TurnStatus, allowStop: bool, now: nat): Db {
    if !CancelHits(db, id, seen, allowStop) then db else
    var canceled := Put(db, id, db.rows[id].(
      status := Canceled, turnStatus := Some(turnStatus), nextAttempt := None));
    if allowStop && seen.turn.Some? then StopActive(canceled, id, seen.turn.value, now) else canceled
  }

  /** The driver's wrapper: a cancellation that misses only defers the row. */
  function CancelOrDefer(db: Db, id: nat, seen: Row, turnStatus: TurnStatus, allowStop: bool, now: nat): Db {
    if CancelHits(db, id, seen, allowStop) then CancelReconciled(db, id, seen, turnStatus, allowStop, now)
    else Defer(db, id, now)
  }

  /** One row of recover_retryable_failed_task_deliveries. */
  function RecoverFailedOne(db: Db, id: nat, current: bool, tasks: map<nat, TaskView>, now: nat): Db {
    if id !in db.rows || db.rows[id].status != Failed || !RecoverableEnd(db.rows[id].turnStatus) then db
    else if !current then
      var stopped := if db.rows[id].turn.Some? then StopActive(db, id, db.rows[id].turn.value, now) else db;
      Put(stopped, id, db.rows[id].(status := Canceled, nextAttempt := None))
    else if |db.rows[id].turns| >= MAX_ACCEPTED_TURNS then db
    else if ActiveExecution(db, tasks, id, db.rows[id].turn) then db
    else Put(db, id, db.rows[id].(status := Retry, nextAttempt := None))
  }

  function RecoverFailed(db: Db, ids: seq<nat>, current: set<nat>, tasks: map<nat, TaskView>, now: nat): Db
    decreases |ids|
  {
    if ids == [] then db
    else RecoverFailed(RecoverFailedOne(db, ids[0], ids[0] in current, tasks, now), ids[1..], current, tasks, now)
  }

  /** insert_delivery: INSERT OR IGNORE on (event, agent, revision). */
  function NewRow(event: nat, agent: nat, revision: nat, session: nat, record: nat): Row {
    Row(event, agent, revision, session, record, Pending, 0, None, None, None, None, None, map[])
  }

  predicate HasDelivery(rows: map<nat, Row>, event: nat, agent: nat, revision: nat) {
    exists id :: id in rows && rows[id].event == event && rows[id].agent == agent && rows[id].revision == revision
  }

  /** What replacing an agent's session cancels; waiting_permission and failed rows stay. */
  function ReplaceSession(db: Db, agent: nat, revision: nat): Db {
    db.(rows := Update(db.rows,
      (r: Row) => r.agent == agent && r.revision == revision && (Claimable(r.status) || r.status == WaitingSession),
      (r: Row) => r.(status := Canceled)))
  }

  function RemoveAgent(db: Db, agent: nat): Db {
    db.(rows := Update(db.rows,
      (r: Row) => r.agent == agent && (Claimable(r.status) || r.status == WaitingSession),
      (r: Row) => r.(status := Canceled)))
  }

  /** The planner makes queued rows of a record due at once. */
  function PokeQueued(db: Db, record: nat): Db {
    db.(rows := Update(db.rows,
      (r: Row) => r.status == Processing && QueuePending(r) && r.record == record,
      (r: Row) => r.(nextAttempt := None)))
  }
}
