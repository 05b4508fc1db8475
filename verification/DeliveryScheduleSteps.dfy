/** A claim batch keeps the invariant, as long as no two claimable rows share event and agent. */
module DeliveryScheduleSteps {
  import opened Common
  import opened DeliveryRows
  import opened DeliveryClaims
  import opened DeliverySystem
  import opened DeliveryInvariant

  /** Without twins the keyed UPDATE hits exactly the selected row. */
  lemma ClaimHitsOne(db: Db, id: nat, message: nat, continuation: bool, now: nat)
    requires NoTwins(db.rows) && id in db.rows && Claimable(db.rows[id].status) && Due(db.rows[id], now)
    ensures Hits(db.rows, db.rows[id], now) == {id}
    ensures ClaimKey(db, db.rows[id], message, continuation, now)
         == Put(db, id, ClaimedRow(db.rows[id], message, continuation, now))
  {
    var r := db.rows[id];
    forall j | j in Hits(db.rows, r, now) ensures j == id { }
    var claimed := ClaimKey(db, r, message, continuation, now).rows;
    forall j | j in db.rows ensures claimed[j] == Put(db, id, ClaimedRow(r, message, continuation, now)).rows[j] { }
    assert claimed == Put(db, id, ClaimedRow(r, message, continuation, now)).rows;
  }

  lemma CancelHitsOne(db: Db, id: nat)
    requires NoTwins(db.rows) && id in db.rows && Claimable(db.rows[id].status)
    ensures CancelKey(db, db.rows[id]) == Put(db, id, db.rows[id].(status := Canceled))
  {
    var canceled := CancelKey(db, db.rows[id]).rows;
    forall j | j in db.rows ensures canceled[j] == Put(db, id, db.rows[id].(status := Canceled)).rows[j] { }
    assert canceled == Put(db, id, db.rows[id].(status := Canceled)).rows;
  }

  /** The state right after one row was claimed and its worker started. */
  function Claimed(s: System, id: nat, message: nat, continuation: Option<nat>, now: nat): System
    requires id in s.db.rows
  {
    var r := s.db.rows[id];
    s.(db := Put(s.db, id, ClaimedRow(r, message, continuation.Some?, now)),
       owner := s.owner[message := id],
       workers := s.workers[r.session := Worker(Item(id, r, message, continuation), Prepared)])
  }

  ghost predicate CanClaim(s: System, id: nat, uuid: nat, continuation: Option<nat>) {
    Inv(s) && s.reconciler == Idle && id in s.db.rows &&
    var r := s.db.rows[id];
    Claimable(r.status) && uuid !in s.owner && (continuation == None || continuation == r.turn) &&
    r.session !in s.workers && r.session !in ProcessingSessions(s.db.rows)
  }

  lemma ClaimedRowOk(s: System, id: nat, uuid: nat, continuation: Option<nat>, now: nat)
    requires CanClaim(s, id, uuid, continuation)
    ensures RowOk(Claimed(s, id, MessageFor(s.db.rows[id], uuid), continuation, now), id)
  {
    var r := s.db.rows[id];
    var m := MessageFor(r, uuid);
    var s' := Claimed(s, id, m, continuation, now);
    assert RowOk(s, id);
    forall n | n in s'.owner && s'.owner[n] == id && n != m ensures Quiet(s'.mail, n) {
      if r.message != Some(n) { assert Quiet(s.mail, n); }
    }
    assert m !in s.mail;
  }

  lemma ClaimedOtherRow(s: System, id: nat, uuid: nat, continuation: Option<nat>, now: nat, j: nat)
    requires CanClaim(s, id, uuid, continuation) && j in s.db.rows && j != id
    ensures RowOk(Claimed(s, id, MessageFor(s.db.rows[id], uuid), continuation, now), j)
  {
    assert RowOk(s, j) && RowOk(s, id);
    var s' := Claimed(s, id, MessageFor(s.db.rows[id], uuid), continuation, now);
    forall n | n in s'.owner && s'.owner[n] == j && s.db.rows[j].message != Some(n) ensures Quiet(s'.mail, n) {
      assert Quiet(s.mail, n);
    }
  }

  lemma ClaimedSessions(s: System, id: nat, r': Row)
    requires id in s.db.rows && SessionsExclusive(s.db.rows)
    requires r'.session == s.db.rows[id].session && r'.session !in ProcessingSessions(s.db.rows)
    ensures SessionsExclusive(s.db.rows[id := r'])
  {
    forall j | j in s.db.rows && s.db.rows[j].status == Processing ensures s.db.rows[j].session != r'.session {
      assert s.db.rows[j].session in ProcessingSessions(s.db.rows);
    }
  }

  lemma ClaimKeepsInv(s: System, id: nat, uuid: nat, continuation: Option<nat>, now: nat)
    requires CanClaim(s, id, uuid, continuation)
    ensures Inv(Claimed(s, id, MessageFor(s.db.rows[id], uuid), continuation, now))
  {
    var r := s.db.rows[id];
    var m := MessageFor(r, uuid);
    var s' := Claimed(s, id, m, continuation, now);
    forall j | j in s'.db.rows ensures RowOk(s', j) {
      if j == id { ClaimedRowOk(s, id, uuid, continuation, now); } else {
        ClaimedOtherRow(s, id, uuid, continuation, now, j);
      }
    }
    ClaimedSessions(s, id, s'.db.rows[id]);
    assert RowOk(s, id) && RowOk(s', id);
    forall session | session in s'.workers ensures WorkerOk(s', session) {
      if session != r.session { assert WorkerOk(s, session); }
    }
  }

  // ---------------------------------------------------------------- the loop

  /** The rest of the selection: still as selected, each row once, each with its own unused message id. */
  ghost predicate SelectionOk(current: map<nat, Row>, owner: map<nat, nat>, rows: map<nat, Row>, ids: seq<nat>,
                              now: nat, uuids: map<nat, nat>) {
    (forall k :: 0 <= k < |ids| ==> Selected(current, owner, rows, ids[k], now, uuids)) &&
    (forall j, k :: 0 <= j < k < |ids| ==> ids[j] != ids[k] && uuids[ids[j]] != uuids[ids[k]])
  }

  ghost predicate Selected(current: map<nat, Row>, owner: map<nat, nat>, rows: map<nat, Row>, id: nat, now: nat,
                           uuids: map<nat, nat>) {
    id in rows && id in current && rows[id] == current[id] && Claimable(rows[id].status) && Due(rows[id], now) &&
    id in uuids && uuids[id] !in owner
  }

  ghost predicate Reserves(s: System, reserved: set<nat>) {
    ProcessingSessions(s.db.rows) <= reserved && s.workers.Keys <= reserved
  }

  lemma SelectionAfter(current: map<nat, Row>, owner: map<nat, nat>, rows: map<nat, Row>, ids: seq<nat>, now: nat,
                       uuids: map<nat, nat>,
                       r': Row, owner': map<nat, nat>)
    requires ids != [] && SelectionOk(current, owner, rows, ids, now, uuids)
    requires forall m :: m in owner' ==> m in owner || m == uuids[ids[0]]
    ensures SelectionOk(current[ids[0] := r'], owner', rows, ids[1..], now, uuids)
  {
    var rest := ids[1..];
    forall k | 0 <= k < |rest| ensures Selected(current[ids[0] := r'], owner', rows, rest[k], now, uuids) {
      assert Selected(current, owner, rows, ids[k + 1], now, uuids);
    }
  }

  lemma TwinsAfter(rows: map<nat, Row>, id: nat, r': Row)
    requires NoTwins(rows) && id in rows && SameKey(r', rows[id])
    requires (Claimable(r'.status) ==> Claimable(rows[id].status))
    ensures NoTwins(rows[id := r'])
  {
  }

  lemma CancelKeepsInv(s: System, id: nat)
    requires Inv(s) && id in s.db.rows && Claimable(s.db.rows[id].status)
    ensures Inv(s.(db := Put(s.db, id, s.db.rows[id].(status := Canceled))))
  {
    CalmKeepsInv(s, s.(db := Put(s.db, id, s.db.rows[id].(status := Canceled))));
  }

  lemma ReservesAfter(s: System, reserved: set<nat>, id: nat, r': Row)
    requires Reserves(s, reserved) && id in s.db.rows && r'.status != Processing
    ensures Reserves(s.(db := Put(s.db, id, r')), reserved)
  {
    forall session | session in ProcessingSessions(s.db.rows[id := r'])
      ensures session in ProcessingSessions(s.db.rows)
    {
      var j :| j in s.db.rows[id := r'] && s.db.rows[id := r'][j].status == Processing &&
        s.db.rows[id := r'][j].session == session;
      assert j != id;
    }
  }

  lemma ReservesClaimed(s: System, reserved: set<nat>, id: nat, message: nat, continuation: Option<nat>, now: nat)
    requires Reserves(s, reserved) && id in s.db.rows
    ensures Reserves(Claimed(s, id, message, continuation, now), reserved + {s.db.rows[id].session})
  {
    var rows' := Claimed(s, id, message, continuation, now).db.rows;
    forall session | session in ProcessingSessions(rows') ensures session in reserved + {s.db.rows[id].session} {
      var j :| j in rows' && rows'[j].status == Processing && rows'[j].session == session;
      if j != id { assert session in ProcessingSessions(s.db.rows); }
    }
  }

  /** One claimed row of the loop. */
  lemma ClaimInLoop(s: System, rows: map<nat, Row>, reserved: set<nat>, ids: seq<nat>, now: nat, uuids: map<nat, nat>,
                    continuation: Option<nat>)
    requires Inv(s) && s.reconciler == Idle && NoTwins(s.db.rows) && Reserves(s, reserved)
    requires ids != [] && SelectionOk(s.db.rows, s.owner, rows, ids, now, uuids)
    requires rows[ids[0]].session !in reserved && (continuation == None || continuation == rows[ids[0]].turn)
    ensures var s1 := Claimed(s, ids[0], MessageFor(rows[ids[0]], uuids[ids[0]]), continuation, now);
      Inv(s1) && NoTwins(s1.db.rows) && Reserves(s1, reserved + {rows[ids[0]].session}) &&
      SelectionOk(s1.db.rows, s1.owner, rows, ids[1..], now, uuids)
  {
    var id := ids[0];
    assert Selected(s.db.rows, s.owner, rows, id, now, uuids);
    var m := MessageFor(rows[id], uuids[id]);
    var s1 := Claimed(s, id, m, continuation, now);
    ClaimKeepsInv(s, id, uuids[id], continuation, now);
    TwinsAfter(s.db.rows, id, s1.db.rows[id]);
    ReservesClaimed(s, reserved, id, m, continuation, now);
    assert RowOk(s, id);
    SelectionAfter(s.db.rows, s.owner, rows, ids, now, uuids, s1.db.rows[id], s1.owner);
  }

  /** One canceled row of the loop. */
  lemma CancelInLoop(s: System, rows: map<nat, Row>, reserved: set<nat>, ids: seq<nat>, now: nat, uuids: map<nat, nat>)
    requires Inv(s) && NoTwins(s.db.rows) && Reserves(s, reserved)
    requires ids != [] && SelectionOk(s.db.rows, s.owner, rows, ids, now, uuids)
    ensures var s1 := s.(db := CancelKey(s.db, rows[ids[0]]));
      Inv(s1) && NoTwins(s1.db.rows) && Reserves(s1, reserved) &&
        SelectionOk(s1.db.rows, s1.owner, rows, ids[1..], now, uuids)
  {
    var id := ids[0];
    assert Selected(s.db.rows, s.owner, rows, id, now, uuids);
    CancelHitsOne(s.db, id);
    var canceled := s.db.rows[id].(status := Canceled);
    CancelKeepsInv(s, id);
    TwinsAfter(s.db.rows, id, canceled);
    ReservesAfter(s, reserved, id, canceled);
    SelectionAfter(s.db.rows, s.owner, rows, ids, now, uuids, canceled, s.owner);
  }

  lemma {:induction false} LoopKeepsInv(s: System, rows: map<nat, Row>, reserved: set<nat>, ids: seq<nat>, count: nat,
                                        limit: nat,
                     board: Board, now: nat, uuids: map<nat, nat>)
    requires Inv(s) && s.reconciler == Idle && NoTwins(s.db.rows) && Reserves(s, reserved)
    requires SelectionOk(s.db.rows, s.owner, rows, ids, now, uuids)
    requires forall k :: 0 <= k < |ids| ==> ids[k] in rows && ids[k] in uuids
    ensures var batch := ClaimLoop(s.db, rows, reserved, ids, count, limit, board, now, uuids);
      Inv(AddItems(s.(db := batch.db), batch.items))
    decreases |ids|, 2
  {
    if ids == [] { assert s.(db := s.db) == s; return; }
    var id := ids[0];
    assert Selected(s.db.rows, s.owner, rows, id, now, uuids);
    var c := ClaimOne(s.db, reserved, id, rows[id], board, now, uuids[id]);
    var continuation := Continuation(s.db, board, id, rows[id]);
    if Unneeded(board, id, continuation) {
      CancelInLoop(s, rows, reserved, ids, now, uuids);
      LoopKeepsInv(s.(db := c.db), rows, reserved, ids[1..], count, limit, board, now, uuids);
    } else if rows[id].session in reserved {
      SelectionAfter(s.db.rows, s.owner, rows, ids, now, uuids, s.db.rows[id], s.owner);
      assert s.db.rows[id := s.db.rows[id]] == s.db.rows;
      LoopKeepsInv(s, rows, reserved, ids[1..], count, limit, board, now, uuids);
    } else {
      ClaimTail(s, rows, reserved, ids, count, limit, board, now, uuids);
    }
  }

  /** Without twins one iteration claims exactly the selected row. */
  lemma ClaimOneTakes(db: Db, reserved: set<nat>, id: nat, board: Board, now: nat, uuid: nat)
    requires NoTwins(db.rows) && id in db.rows && Claimable(db.rows[id].status) && Due(db.rows[id], now)
    requires db.rows[id].session !in reserved && !Unneeded(board, id, Continuation(db, board, id, db.rows[id]))
    ensures var r := db.rows[id];
      var continuation := Continuation(db, board, id, r);
      var m := MessageFor(r, uuid);
      ClaimOne(db, reserved, id, r, board, now, uuid)
        == Claim(Put(db, id, ClaimedRow(r, m, continuation.Some?, now)), Some(Item(id, r, m, continuation)))
  {
    var r := db.rows[id];
    ClaimHitsOne(db, id, MessageFor(r, uuid), Continuation(db, board, id, r).Some?, now);
  }

  function LoopRest(db: Db, rows: map<nat, Row>, reserved: set<nat>, ids: seq<nat>, count: nat, limit: nat,
                    board: Board, now: nat, uuids: map<nat, nat>): Batch
    requires ids != [] && forall k :: 0 <= k < |ids| ==> ids[k] in rows && ids[k] in uuids
  {
    if count + 1 >= limit then Batch(db, [])
    else ClaimLoop(db, rows, reserved + {rows[ids[0]].session}, ids[1..], count + 1, limit, board, now, uuids)
  }

  lemma LoopUnfolds(db: Db, rows: map<nat, Row>, reserved: set<nat>, ids: seq<nat>, count: nat, limit: nat,
                    board: Board, now: nat, uuids: map<nat, nat>)
    requires ids != [] && forall k :: 0 <= k < |ids| ==> ids[k] in rows && ids[k] in uuids
    requires ClaimOne(db, reserved, ids[0], rows[ids[0]], board, now, uuids[ids[0]]).item.Some?
    ensures var c := ClaimOne(db, reserved, ids[0], rows[ids[0]], board, now, uuids[ids[0]]);
      var rest := LoopRest(c.db, rows, reserved, ids, count, limit, board, now, uuids);
      ClaimLoop(db, rows, reserved, ids, count, limit, board, now, uuids) == Batch(rest.db, [c.item.value] + rest.items)
  {
  }

  lemma ClaimTail(s: System, rows: map<nat, Row>, reserved: set<nat>, ids: seq<nat>, count: nat, limit: nat,
                  board: Board, now: nat, uuids: map<nat, nat>)
    requires Inv(s) && s.reconciler == Idle && NoTwins(s.db.rows) && Reserves(s, reserved)
    requires SelectionOk(s.db.rows, s.owner, rows, ids, now, uuids)
    requires forall k :: 0 <= k < |ids| ==> ids[k] in rows && ids[k] in uuids
    requires ids != [] && rows[ids[0]].session !in reserved
    requires !Unneeded(board, ids[0], Continuation(s.db, board, ids[0], rows[ids[0]]))
    ensures var batch := ClaimLoop(s.db, rows, reserved, ids, count, limit, board, now, uuids);
      Inv(AddItems(s.(db := batch.db), batch.items))
    decreases |ids|, 1
  {
    var id := ids[0];
    assert Selected(s.db.rows, s.owner, rows, id, now, uuids);
    var c := ClaimOne(s.db, reserved, id, rows[id], board, now, uuids[id]);
    var continuation := Continuation(s.db, board, id, rows[id]);
    ClaimOneTakes(s.db, reserved, id, board, now, uuids[id]);
    LoopUnfolds(s.db, rows, reserved, ids, count, limit, board, now, uuids);
    var s1 := Claimed(s, id, MessageFor(rows[id], uuids[id]), continuation, now);
    var rest := LoopRest(c.db, rows, reserved, ids, count, limit, board, now, uuids);
    AddFirst(s, s1, c, rest);
    ClaimInLoop(s, rows, reserved, ids, now, uuids, continuation);
    RestKeepsInv(s1, rows, reserved, ids, count, limit, board, now, uuids);
  }

  lemma RestKeepsInv(s1: System, rows: map<nat, Row>, reserved: set<nat>, ids: seq<nat>, count: nat, limit: nat,
                     board: Board, now: nat, uuids: map<nat, nat>)
    requires ids != [] && forall k :: 0 <= k < |ids| ==> ids[k] in rows && ids[k] in uuids
    requires Inv(s1) && s1.reconciler == Idle && NoTwins(s1.db.rows) && Reserves(s1, reserved + {rows[ids[0]].session})
    requires SelectionOk(s1.db.rows, s1.owner, rows, ids[1..], now, uuids)
    ensures var rest := LoopRest(s1.db, rows, reserved, ids, count, limit, board, now, uuids);
      Inv(AddItems(s1.(db := rest.db), rest.items))
    decreases |ids|, 0
  {
    if count + 1 < limit {
      LoopKeepsInv(s1, rows, reserved + {rows[ids[0]].session}, ids[1..], count + 1, limit, board, now, uuids);
    } else {
      assert s1.(db := s1.db) == s1;
    }
  }

  lemma AddFirst(s: System, s1: System, c: Claim, rest: Batch)
    requires c.item.Some?
    requires var it := c.item.value;
      s1 == s.(db := c.db, owner := s.owner[it.message := it.id],
        workers := s.workers[it.seen.session := Worker(it, Prepared)])
    ensures AddItems(s.(db := rest.db), [c.item.value] + rest.items) == AddItems(s1.(db := rest.db), rest.items)
  {
    assert ([c.item.value] + rest.items)[1..] == rest.items;
  }

  lemma ScheduleKeepsInv(s: System, exclude: set<nat>, ids: seq<nat>, limit: nat, board: Board, now: nat,
                         uuids: map<nat, nat>)
    requires Inv(s) && ScheduleEnabled(s, ids, limit, now, uuids) && NoTwins(s.db.rows)
    ensures Inv(ApplySchedule(s, exclude, ids, limit, board, now, uuids))
  {
    var reserved := exclude + s.workers.Keys + ProcessingSessions(s.db.rows);
    LoopKeepsInv(s, s.db.rows, reserved, ids, 0, limit, board, now, uuids);
  }
}
