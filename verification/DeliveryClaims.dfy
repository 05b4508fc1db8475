/**
 The claim loop of claim_task_deliveries: walk the selected rows in order, cancel the
 ones the board no longer needs, skip the ones whose session is taken, and move the rest
 to processing under one client message id each.
 */
module DeliveryClaims {
  import opened Common
  import opened DeliveryRows

  /** What the claim transaction reads from the board: the deliveries whose event is the current
      trigger of its record, those whose role is the dispatch target, and the saved snapshots. */
  datatype Board = Board(current: set<nat>, targeted: set<nat>, tasks: map<nat, TaskView>)

  /** What the claim hands to a worker: the row as it was selected (its status is already stale),
      the message id of this attempt, and the turn it continues, if any. */
  datatype Item = Item(id: nat, seen: Row, message: nat, continuation: Option<nat>)

  datatype Claim = Claim(db: Db, item: Option<Item>)

  datatype Batch = Batch(db: Db, items: seq<Item>)

  predicate SameKey(a: Row, b: Row) {
    a.event == b.event && a.agent == b.agent
  }

  /** No two rows that could be claimed share event and agent: what an UPDATE keyed by
      (event_key, agent_id) needs in order to hit one row. */
  ghost predicate NoTwins(rows: map<nat, Row>) {
    forall i, j :: i in rows && j in rows && i != j && Claimable(rows[i].status) && Claimable(rows[j].status)
      ==> !SameKey(rows[i], rows[j])
  }

  function Hits(rows: map<nat, Row>, seen: Row, now: nat): set<nat> {
    set j | j in rows && SameKey(rows[j], seen) && Claimable(rows[j].status) && Due(rows[j], now)
  }

  function CancelKey(db: Db, seen: Row): Db {
    db.(rows := Update(db.rows,
      (r: Row) => SameKey(r, seen) && Claimable(r.status),
      (r: Row) => r.(status := Canceled)))
  }

  function ClaimedRow(r: Row, message: nat, continuation: bool, now: nat): Row {
    r.(status := Processing, attempts := r.attempts + 1,
       turn := if continuation then r.turn else None, turnStatus := None,
       nextAttempt := None, startedAt := Some(now), message := Some(message))
  }

  function ClaimKey(db: Db, seen: Row, message: nat, continuation: bool, now: nat): Db {
    db.(rows := Update(db.rows,
      (r: Row) => SameKey(r, seen) && Claimable(r.status) && Due(r, now),
      (r: Row) => ClaimedRow(r, message, continuation, now)))
  }

  function Continuation(db: Db, board: Board, id: nat, seen: Row): Option<nat> {
    if seen.status == Retry && seen.turn.Some? && ActiveExecution(db, board.tasks, id, seen.turn)
    then seen.turn else None
  }

  predicate Unneeded(board: Board, id: nat, continuation: Option<nat>) {
    continuation == None && (id !in board.current || id !in board.targeted)
  }

  /** A message id is kept only while no turn was recorded under it. */
  function MessageFor(seen: Row, uuid: nat): nat {
    if seen.message == None || seen.turn.Some? then uuid else seen.message.value
  }

  function ClaimOne(db: Db, reserved: set<nat>, id: nat, seen: Row, board: Board, now: nat, uuid: nat): Claim {
    var continuation := Continuation(db, board, id, seen);
    if Unneeded(board, id, continuation) then Claim(CancelKey(db, seen), None)
    else if seen.session in reserved then Claim(db, None)
    else
      var message := MessageFor(seen, uuid);
      Claim(ClaimKey(db, seen, message, continuation.Some?, now),
            if |Hits(db.rows, seen, now)| == 1 then Some(Item(id, seen, message, continuation)) else None)
  }

  /** `rows` is the result of the one SELECT, taken before the loop; `count` items were claimed so far. */
  function ClaimLoop(db: Db, rows: map<nat, Row>, reserved: set<nat>, ids: seq<nat>, count: nat, limit: nat,
                     board: Board, now: nat, uuids: map<nat, nat>): Batch
    requires forall k :: 0 <= k < |ids| ==> ids[k] in rows && ids[k] in uuids
    decreases |ids|
  {
    if ids == [] then Batch(db, []) else
    var id := ids[0];
    var c := ClaimOne(db, reserved, id, rows[id], board, now, uuids[id]);
    if c.item == None then ClaimLoop(c.db, rows, reserved, ids[1..], count, limit, board, now, uuids)
    else if count + 1 >= limit then Batch(c.db, [c.item.value])
    else
      var rest := ClaimLoop(c.db, rows, reserved + {rows[id].session}, ids[1..], count + 1, limit, board, now, uuids);
      Batch(rest.db, [c.item.value] + rest.items)
  }

  function ProcessingSessions(rows: map<nat, Row>): set<nat> {
    set id | id in rows && rows[id].status == Processing :: rows[id].session
  }

  /** The rows the SELECT may return: claimable and due, each once, at most four times the limit. */
  predicate Selectable(rows: map<nat, Row>, ids: seq<nat>, limit: nat, now: nat) {
    |ids| <= 4 * limit &&
    (forall k :: 0 <= k < |ids| ==> ids[k] in rows && Claimable(rows[ids[k]].status) && Due(rows[ids[k]], now)) &&
    (forall j, k :: 0 <= j < k < |ids| ==> ids[j] != ids[k])
  }

  function ClaimBatch(db: Db, exclude: set<nat>, ids: seq<nat>, limit: nat, board: Board, now: nat,
                      uuids: map<nat, nat>): Batch
    requires forall k :: 0 <= k < |ids| ==> ids[k] in db.rows && ids[k] in uuids
  {
    ClaimLoop(db, db.rows, exclude + ProcessingSessions(db.rows), ids, 0, limit, board, now, uuids)
  }
}
