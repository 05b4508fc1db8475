/** What one claim batch does to the table and what it returns. */
module DeliveryBatch {
  import opened Common
  import opened DeliveryRows
  import opened DeliveryClaims
  import opened DeliverySystem
  import opened DeliveryScheduleSteps

  ghost predicate Distinct(items: seq<Item>, reserved: set<nat>) {
    (forall k :: 0 <= k < |items| ==> items[k].seen.session !in reserved) &&
    (forall j, k :: 0 <= j < k < |items| ==> items[j].seen.session != items[k].seen.session)
  }

  /** Whatever the table holds, a batch returns at most `limit` deliveries, on sessions that are
      pairwise distinct and were free. */
  lemma {:induction false} LoopSessions(db: Db, rows: map<nat, Row>, reserved: set<nat>, ids: seq<nat>, count: nat,
                                        limit: nat,
                                        board: Board, now: nat, uuids: map<nat, nat>)
    requires forall k :: 0 <= k < |ids| ==> ids[k] in rows && ids[k] in uuids
    requires count < limit
    ensures var batch := ClaimLoop(db, rows, reserved, ids, count, limit, board, now, uuids);
      Distinct(batch.items, reserved) && count + |batch.items| <= limit
    decreases |ids|
  {
    if ids != [] {
      var c := ClaimOne(db, reserved, ids[0], rows[ids[0]], board, now, uuids[ids[0]]);
      if c.item == None {
        LoopSessions(c.db, rows, reserved, ids[1..], count, limit, board, now, uuids);
      } else if count + 1 < limit {
        var taken := reserved + {rows[ids[0]].session};
        LoopSessions(c.db, rows, taken, ids[1..], count + 1, limit, board, now, uuids);
        var rest := ClaimLoop(c.db, rows, taken, ids[1..], count + 1, limit, board, now, uuids).items;
        var items := [c.item.value] + rest;
        forall j, k | 0 <= j < k < |items| ensures items[j].seen.session != items[k].seen.session {
          assert items[k] == rest[k - 1];
        }
        forall k | 0 <= k < |items| ensures items[k].seen.session !in reserved {
          if k > 0 { assert rest[k - 1].seen.session !in taken; }
        }
      }
    }
  }

  lemma BatchSessionsFree(db: Db, exclude: set<nat>, ids: seq<nat>, limit: nat, board: Board, now: nat,
                          uuids: map<nat, nat>)
    requires limit > 0 && forall k :: 0 <= k < |ids| ==> ids[k] in db.rows && ids[k] in uuids
    ensures var items := ClaimBatch(db, exclude, ids, limit, board, now, uuids).items;
      |items| <= limit &&
      (forall k :: 0 <= k < |items| ==> items[k].seen.session !in exclude + ProcessingSessions(db.rows)) &&
      (forall j, k :: 0 <= j < k < |items| ==> items[j].seen.session != items[k].seen.session)
  {
    LoopSessions(db, db.rows, exclude + ProcessingSessions(db.rows), ids, 0, limit, board, now, uuids);
  }

  // ---------------------------------------------------------------- the fate of each row

  /** Kept, canceled, or claimed under its own message id. */
  predicate Fate(r: Row, r': Row, uuid: nat, now: nat) {
    r' == r ||
    (Claimable(r.status) &&
     (r' == r.(status := Canceled)
      || r' == ClaimedRow(r, MessageFor(r, uuid), true, now)
      || r' == ClaimedRow(r, MessageFor(r, uuid), false, now)))
  }

  /** A returned delivery is exactly a row that was claimed. */
  predicate Taken(rows: map<nat, Row>, rows': map<nat, Row>, item: Item, uuids: map<nat, nat>, now: nat) {
    item.id in rows && item.id in rows' && item.id in uuids && item.seen == rows[item.id] &&
      Claimable(item.seen.status) &&
    item.message == MessageFor(item.seen, uuids[item.id]) &&
    (item.continuation.Some? ==> item.seen.status == Retry && item.continuation == item.seen.turn) &&
    rows'[item.id] == ClaimedRow(item.seen, item.message, item.continuation.Some?, now)
  }

  ghost predicate AllTaken(rows: map<nat, Row>, rows': map<nat, Row>, items: seq<Item>, uuids: map<nat, nat>,
                           now: nat) {
    forall k :: 0 <= k < |items| ==> Taken(rows, rows', items[k], uuids, now)
  }

  /** The rest of a batch leaves the rows it no longer selects alone. */
  ghost predicate Untouched(rows: map<nat, Row>, rows': map<nat, Row>, ids: seq<nat>) {
    rows'.Keys == rows.Keys && forall i :: i in rows && i !in ids ==> rows'[i] == rows[i]
  }

  ghost predicate LoopResult(db: Db, batch: Batch, ids: seq<nat>, uuids: map<nat, nat>, now: nat) {
    batch.db.executions == db.executions && Untouched(db.rows, batch.db.rows, ids) &&
    (forall i :: i in ids && i in db.rows && i in uuids ==> Fate(db.rows[i], batch.db.rows[i], uuids[i], now)) &&
    (forall k :: 0 <= k < |batch.items| ==> batch.items[k].id in ids) &&
    AllTaken(db.rows, batch.db.rows, batch.items, uuids, now)
  }

  predicate Returned(items: seq<Item>, i: nat) {
    exists k :: 0 <= k < |items| && items[k].id == i
  }

  /** Every selected row that is now processing has a worker coming. */
  ghost predicate NoneLost(batch: Batch, ids: seq<nat>) {
    forall i :: i in ids && i in batch.db.rows && batch.db.rows[i].status == Processing ==> Returned(batch.items, i)
  }

  lemma FrontNoneLost(batch: Batch, ids: seq<nat>)
    requires ids != [] && ids[0] in batch.db.rows && batch.db.rows[ids[0]].status != Processing
    requires NoneLost(batch, ids[1..])
    ensures NoneLost(batch, ids)
  {
    assert ids == [ids[0]] + ids[1..];
  }

  lemma FrontItemNoneLost(rest: Batch, item: Item, ids: seq<nat>)
    requires ids != [] && item.id == ids[0] && NoneLost(rest, ids[1..])
    ensures NoneLost(Batch(rest.db, [item] + rest.items), ids)
  {
    var items := [item] + rest.items;
    assert ids == [ids[0]] + ids[1..];
    forall i | i in ids && i in rest.db.rows && rest.db.rows[i].status == Processing ensures Returned(items, i) {
      if i == item.id {
        assert items[0].id == i;
      } else {
        assert Returned(rest.items, i);
        var k :| 0 <= k < |rest.items| && rest.items[k].id == i;
        assert items[k + 1] == rest.items[k];
      }
    }
  }

  /** One more iteration in front: it only touched its own row, which the rest no longer selects. */
  lemma FrontResult(db: Db, db1: Db, batch: Batch, ids: seq<nat>, uuids: map<nat, nat>, now: nat)
    requires ids != [] && ids[0] in db.rows && ids[0] in uuids && ids[0] !in ids[1..]
    requires ids[0] in db1.rows && db1.rows == db.rows[ids[0] := db1.rows[ids[0]]] && db1.executions == db.executions
    requires Fate(db.rows[ids[0]], db1.rows[ids[0]], uuids[ids[0]], now)
    requires LoopResult(db1, batch, ids[1..], uuids, now)
    ensures LoopResult(db, batch, ids, uuids, now)
  {
    var id := ids[0];
    assert ids == [id] + ids[1..];
    assert batch.db.rows[id] == db1.rows[id];
    forall k | 0 <= k < |batch.items| ensures Taken(db.rows, batch.db.rows, batch.items[k], uuids, now) {
      assert Taken(db1.rows, batch.db.rows, batch.items[k], uuids, now);
      assert batch.items[k].id != id;
    }
  }

  lemma FrontItem(db: Db, rest: Batch, item: Item, ids: seq<nat>, uuids: map<nat, nat>, now: nat)
    requires LoopResult(db, rest, ids, uuids, now) && item.id in ids && Taken(db.rows, rest.db.rows, item, uuids, now)
    ensures LoopResult(db, Batch(rest.db, [item] + rest.items), ids, uuids, now)
  {
    var items := [item] + rest.items;
    forall k | 0 <= k < |items| ensures items[k].id in ids && Taken(db.rows, rest.db.rows, items[k], uuids, now) {
      if k > 0 { assert items[k] == rest.items[k - 1]; }
    }
  }

  ghost predicate Loopable(db: Db, rows: map<nat, Row>, ids: seq<nat>, now: nat, uuids: map<nat, nat>) {
    NoTwins(db.rows) && SelectionOk(db.rows, map[], rows, ids, now, uuids)
  }

  lemma LoopableAfter(db: Db, rows: map<nat, Row>, ids: seq<nat>, now: nat, uuids: map<nat, nat>, r': Row)
    requires Loopable(db, rows, ids, now, uuids) && ids != [] && ids[0] in db.rows && SameKey(r', db.rows[ids[0]])
    ensures Loopable(Put(db, ids[0], r'), rows, ids[1..], now, uuids)
    ensures ids[0] !in ids[1..]
  {
    assert Selected(db.rows, map[], rows, ids[0], now, uuids);
    TwinsAfter(db.rows, ids[0], r');
    SelectionAfter(db.rows, map[], rows, ids, now, uuids, r', map[]);
  }

  lemma {:induction false} LoopFates(db: Db, rows: map<nat, Row>, reserved: set<nat>, ids: seq<nat>, count: nat,
                                     limit: nat,
                                     board: Board, now: nat, uuids: map<nat, nat>)
    requires Loopable(db, rows, ids, now, uuids)
    requires forall k :: 0 <= k < |ids| ==> ids[k] in rows && ids[k] in uuids
    ensures var batch := ClaimLoop(db, rows, reserved, ids, count, limit, board, now, uuids);
      LoopResult(db, batch, ids, uuids, now) && NoneLost(batch, ids)
    decreases |ids|, 1
  {
    if ids == [] { return; }
    var id := ids[0];
    assert Selected(db.rows, map[], rows, id, now, uuids);
    if Unneeded(board, id, Continuation(db, board, id, rows[id])) {
      CancelHitsOne(db, id);
      var canceled := db.rows[id].(status := Canceled);
      LoopableAfter(db, rows, ids, now, uuids, canceled);
      LoopFates(Put(db, id, canceled), rows, reserved, ids[1..], count, limit, board, now, uuids);
      var batch := ClaimLoop(Put(db, id, canceled), rows, reserved, ids[1..], count, limit, board, now, uuids);
      FrontResult(db, Put(db, id, canceled), batch, ids, uuids, now);
      FrontNoneLost(batch, ids);
    } else if rows[id].session in reserved {
      LoopableAfter(db, rows, ids, now, uuids, db.rows[id]);
      assert Put(db, id, db.rows[id]).rows == db.rows;
      LoopFates(db, rows, reserved, ids[1..], count, limit, board, now, uuids);
      var batch := ClaimLoop(db, rows, reserved, ids[1..], count, limit, board, now, uuids);
      FrontResult(db, db, batch, ids, uuids, now);
      FrontNoneLost(batch, ids);
    } else {
      TailFates(db, rows, reserved, ids, count, limit, board, now, uuids);
    }
  }

  lemma {:induction false} TailFates(db: Db, rows: map<nat, Row>, reserved: set<nat>, ids: seq<nat>, count: nat,
                                     limit: nat,
                                     board: Board, now: nat, uuids: map<nat, nat>)
    requires Loopable(db, rows, ids, now, uuids) && ids != []
    requires forall k :: 0 <= k < |ids| ==> ids[k] in rows && ids[k] in uuids
    requires rows[ids[0]].session !in reserved
    requires !Unneeded(board, ids[0], Continuation(db, board, ids[0], rows[ids[0]]))
    ensures var batch := ClaimLoop(db, rows, reserved, ids, count, limit, board, now, uuids);
      LoopResult(db, batch, ids, uuids, now) && NoneLost(batch, ids)
    decreases |ids|, 0
  {
    var id := ids[0];
    assert Selected(db.rows, map[], rows, id, now, uuids);
    var continuation := Continuation(db, board, id, rows[id]);
    var m := MessageFor(rows[id], uuids[id]);
    var db1 := Put(db, id, ClaimedRow(rows[id], m, continuation.Some?, now));
    ClaimOneTakes(db, reserved, id, board, now, uuids[id]);
    LoopUnfolds(db, rows, reserved, ids, count, limit, board, now, uuids);
    LoopableAfter(db, rows, ids, now, uuids, db1.rows[id]);
    var rest := LoopRest(db1, rows, reserved, ids, count, limit, board, now, uuids);
    if count + 1 >= limit {
      forall i | i in ids[1..] && i in db1.rows ensures db1.rows[i].status != Processing {
        assert Selected(db1.rows, map[], rows, i, now, uuids) by {
          SelectionMember(db1.rows, rows, ids[1..], now, uuids, i);
        }
      }
    } else {
      LoopFates(db1, rows, reserved + {rows[id].session}, ids[1..], count + 1, limit, board, now, uuids);
    }
    FrontResult(db, db1, rest, ids, uuids, now);
    FrontItem(db, rest, Item(id, rows[id], m, continuation), ids, uuids, now);
    FrontItemNoneLost(rest, Item(id, rows[id], m, continuation), ids);
  }

  lemma SelectionMember(current: map<nat, Row>, rows: map<nat, Row>, ids: seq<nat>, now: nat, uuids: map<nat, nat>,
                        i: nat)
    requires SelectionOk(current, map[], rows, ids, now, uuids) && i in ids
    ensures Selected(current, map[], rows, i, now, uuids)
  {
    var k :| 0 <= k < |ids| && ids[k] == i;
    assert Selected(current, map[], rows, ids[k], now, uuids);
  }

  /** Without twins a batch keeps, cancels or claims each selected row on its own, changes no other
      row and no execution, and returns exactly the rows it claimed. */
  lemma BatchFates(s: System, exclude: set<nat>, ids: seq<nat>, limit: nat, board: Board, now: nat,
                   uuids: map<nat, nat>)
    requires ScheduleEnabled(s, ids, limit, now, uuids) && NoTwins(s.db.rows)
    ensures var batch := ClaimBatch(s.db, exclude, ids, limit, board, now, uuids);
      LoopResult(s.db, batch, ids, uuids, now) && NoneLost(batch, ids)
  {
    LoopFates(s.db, s.db.rows, exclude + ProcessingSessions(s.db.rows), ids, 0, limit, board, now, uuids);
  }

  // ---------------------------------------------------------------- the workers of a batch

  /** Starting the workers of a batch touches nothing but workers and message owners. */
  lemma {:induction false} AddItemsFrame(s: System, items: seq<Item>)
    ensures var s' := AddItems(s, items);
      s'.db == s.db && s'.mail == s.mail && s'.exempt == s.exempt &&
      (forall session :: session in s'.workers ==>
        (session in s.workers && s'.workers[session] == s.workers[session]) || s'.workers[session].phase == Prepared)
    decreases |items|
  {
    if items != [] {
      var it := items[0];
      AddItemsFrame(s.(owner := s.owner[it.message := it.id],
        workers := s.workers[it.seen.session := Worker(it, Prepared)]), items[1..]);
    }
  }

  lemma AddsOne(s: System, item: Item)
    ensures AddItems(s, [item])
      == s.(owner := s.owner[item.message := item.id],
        workers := s.workers[item.seen.session := Worker(item, Prepared)])
  {
    assert [item][1..] == [];
  }

  /** A batch of one row that is needed and free. */
  lemma ClaimsOne(db: Db, exclude: set<nat>, id: nat, board: Board, now: nat, uuid: nat)
    requires NoTwins(db.rows) && id in db.rows && Claimable(db.rows[id].status) && Due(db.rows[id], now)
    requires db.rows[id].session !in exclude + ProcessingSessions(db.rows)
    requires !Unneeded(board, id, Continuation(db, board, id, db.rows[id]))
    ensures var r := db.rows[id];
      var continuation := Continuation(db, board, id, r);
      var m := MessageFor(r, uuid);
      ClaimBatch(db, exclude, [id], 1, board, now, map[id := uuid])
        == Batch(Put(db, id, ClaimedRow(r, m, continuation.Some?, now)), [Item(id, r, m, continuation)])
  {
    var reserved := exclude + ProcessingSessions(db.rows);
    ClaimOneTakes(db, reserved, id, board, now, uuid);
    LoopUnfolds(db, db.rows, reserved, [id], 0, 1, board, now, map[id := uuid]);
  }
}
