/**
 The planner: a pass routes every pending event of the board, once, and inserts deliveries for the
 agents of the target role; a catch-up pass serves agents that registered after an event was routed.
 */
module TaskPlanner {
  import opened Common
  import opened TaskEvents
  import opened TaskRouting

  datatype Agent = Agent(id: nat, role: string, revision: nat)

  /** A delivery row by its unique key. */
  datatype Delivery = Delivery(event: EventKey, agent: nat, revision: nat)

  /** What a pass reads and does not change: the lifecycle, its coordinator role, the registered agents. */
  datatype Board = Board(states: States, coordinator: string, agents: seq<Agent>)

  datatype Plan = Plan(log: Log, rows: set<Delivery>)

  datatype Decision = Ignore | Await | Send(role: string)

  function LiveRole(log: Log, record: string): Option<string> {
    if record in log.states then log.states[record].task.role else None
  }

  /** What the pass makes of one event. */
  function Decide(log: Log, board: Board, e: Event): Decision {
    var key := DispatchState(board.states, e);
    var current := CurrentDispatch(log, board.states, e.key.record);
    if key == None || current == None || log.events[current.value].key != e.key then Ignore
    else
      var target := Target(board.states, board.coordinator, key, LiveRole(log, e.key.record));
      if !Truthy(target) then Ignore
      else if forall a :: a in board.agents ==> a.role != target.value then Await
      else Send(target.value)
  }

  function DeliveriesFor(key: EventKey, agents: seq<Agent>, role: string): set<Delivery> {
    set a | a in agents && a.role == role :: Delivery(key, a.id, a.revision)
  }

  function Route(events: seq<Event>, i: nat, decision: Decision): seq<Event>
    requires i < |events|
  {
    match decision
    case Ignore => events[i := events[i].(routing := Ignored)]
    case Await => events
    case Send(_) => events[i := events[i].(routing := Routed)]
  }

  function PlanOne(p: Plan, board: Board, i: nat): Plan
    requires i < |p.log.events|
  {
    var e := p.log.events[i];
    var decision := Decide(p.log, board, e);
    Plan(p.log.(events := Route(p.log.events, i, decision)),
         if decision.Send? then p.rows + DeliveriesFor(e.key, board.agents, decision.role) else p.rows)
  }

  function Pass(p: Plan, board: Board, order: seq<nat>): (r: Plan)
    requires forall k :: 0 <= k < |order| ==> order[k] < |p.log.events|
    ensures |r.log.events| == |p.log.events|
    decreases |order|
  {
    if order == [] then p else Pass(PlanOne(p, board, order[0]), board, order[1..])
  }

  /** The selection of the pass: every pending event once, in some order. */
  ghost predicate Pending(events: seq<Event>, order: seq<nat>) {
    (forall k :: 0 <= k < |order| ==> order[k] < |events| && events[order[k]].routing == Waiting) &&
    (forall i :: 0 <= i < |events| && events[i].routing == Waiting ==> i in order) &&
    (forall j, k :: 0 <= j < k < |order| ==> order[j] != order[k])
  }

  // ---------------------------------------------------------------- routing reads no routing

  ghost predicate SameEvents(events: seq<Event>, events': seq<Event>) {
    |events'| == |events| && forall i :: 0 <= i < |events| ==> events'[i] == events[i].(routing := events'[i].routing)
  }

  lemma SameDispatch(states: States, e: Event, e': Event)
    requires e' == e.(routing := e'.routing)
    ensures DispatchState(states, e') == DispatchState(states, e)
  {
    forall key ensures (DispatchState(states, e') == Some(key)) == (DispatchState(states, e) == Some(key)) {
      DispatchMeaning(states, e, key);
      DispatchMeaning(states, e', key);
    }
    SameOption(DispatchState(states, e'), DispatchState(states, e));
  }

  lemma SameOption(a: Option<string>, b: Option<string>)
    requires forall key :: (a == Some(key)) == (b == Some(key))
    ensures a == b
  {
    if a.Some? { assert a == Some(a.value); }
    if b.Some? { assert b == Some(b.value); }
  }

  lemma SameCurrent(log: Log, log': Log, states: States, record: string)
    requires log'.states == log.states && SameEvents(log.events, log'.events)
    ensures CurrentDispatch(log', states, record) == CurrentDispatch(log, states, record)
  {
    var key := LiveState(log, states, record);
    if key.Some? {
      forall i | 0 <= i < |log.events|
        ensures IsTrigger(states, record, key.value, log'.events[i])
          == IsTrigger(states, record, key.value, log.events[i])
      {
        SameDispatch(states, log.events[i], log'.events[i]);
      }
    }
  }

  lemma SameDecision(log: Log, log': Log, board: Board, i: nat)
    requires log'.states == log.states && SameEvents(log.events, log'.events) && i < |log.events|
    ensures Decide(log', board, log'.events[i]) == Decide(log, board, log.events[i])
  {
    SameCurrent(log, log', board.states, log.events[i].key.record);
    SameDispatch(board.states, log.events[i], log'.events[i]);
  }

  // ---------------------------------------------------------------- the result of a pass

  function After(decision: Decision): Routing {
    match decision
    case Ignore => Ignored
    case Await => Waiting
    case Send(_) => Routed
  }

  ghost predicate Planned(log: Log, board: Board, order: seq<nat>, d: Delivery) {
    exists k :: 0 <= k < |order| && order[k] < |log.events| && PlannedAt(log, board, order[k], d)
  }

  predicate PlannedAt(log: Log, board: Board, i: nat, d: Delivery)
    requires i < |log.events|
  {
    var decision := Decide(log, board, log.events[i]);
    decision.Send? && d in DeliveriesFor(log.events[i].key, board.agents, decision.role)
  }

  /** What a pass over `order` did to `p`, told without the order. */
  ghost predicate PassResult(p: Plan, board: Board, order: seq<nat>, p': Plan) {
    p'.log.states == p.log.states && SameEvents(p.log.events, p'.log.events) &&
    (forall i :: 0 <= i < |p.log.events| ==>
      p'.log.events[i].routing == if i in order then After(Decide(p.log, board,
        p.log.events[i])) else p.log.events[i].routing) &&
    (forall d :: d in p'.rows <==> d in p.rows || Planned(p.log, board, order, d))
  }

  lemma {:induction false} PassDoes(p: Plan, board: Board, order: seq<nat>)
    requires forall k :: 0 <= k < |order| ==> order[k] < |p.log.events| && p.log.events[order[k]].routing == Waiting
    requires forall j, k :: 0 <= j < k < |order| ==> order[j] != order[k]
    ensures PassResult(p, board, order, Pass(p, board, order))
    decreases |order|
  {
    if order != [] {
      var one := PlanOne(p, board, order[0]);
      PassDoes(one, board, order[1..]);
      FrontPass(p, one, board, order, Pass(one, board, order[1..]));
    }
  }

  lemma FrontPass(p: Plan, one: Plan, board: Board, order: seq<nat>, p': Plan)
    requires order != [] && order[0] < |p.log.events| && p.log.events[order[0]].routing == Waiting
    requires order[0] !in order[1..] && (forall k :: 0 <= k < |order| ==> order[k] < |p.log.events|)
    requires one == PlanOne(p, board, order[0]) && PassResult(one, board, order[1..], p')
    ensures PassResult(p, board, order, p')
  {
    assert order == [order[0]] + order[1..];
    forall i | 0 <= i < |p.log.events|
      ensures Decide(one.log, board, one.log.events[i]) == Decide(p.log, board, p.log.events[i])
    {
      SameDecision(p.log, one.log, board, i);
    }
    FrontRows(p, one, board, order, p');
  }

  lemma FrontRows(p: Plan, one: Plan, board: Board, order: seq<nat>, p': Plan)
    requires order != [] && (forall k :: 0 <= k < |order| ==> order[k] < |p.log.events|)
    requires one == PlanOne(p, board, order[0]) && SameEvents(p.log.events, one.log.events)
    requires forall i :: 0 <= i < |p.log.events| ==>
      Decide(one.log, board, one.log.events[i]) == Decide(p.log, board, p.log.events[i])
    requires forall d :: d in p'.rows <==> d in one.rows || Planned(one.log, board, order[1..], d)
    ensures forall d :: d in p'.rows <==> d in p.rows || Planned(p.log, board, order, d)
  {
    hide Decide;
    forall d ensures d in p'.rows <==> d in p.rows || Planned(p.log, board, order, d) {
      if Planned(one.log, board, order[1..], d) {
        var k :| 0 <= k < |order[1..]| && PlannedAt(one.log, board, order[1..][k], d);
        assert PlannedAt(p.log, board, order[k + 1], d);
      }
      if Planned(p.log, board, order, d) {
        var k :| 0 <= k < |order| && PlannedAt(p.log, board, order[k], d);
        if k > 0 { assert PlannedAt(one.log, board, order[1..][k - 1], d); }
      }
      if d in one.rows && d !in p.rows { assert PlannedAt(p.log, board, order[0], d); }
    }
  }

  // ---------------------------------------------------------------- what a pass promises

  predicate IsCurrent(log: Log, board: Board, i: nat) {
    i < |log.events| && CurrentDispatch(log, board.states, log.events[i].key.record) == Some(i)
  }

  ghost predicate Unserved(log: Log, board: Board, i: nat) {
    IsCurrent(log, board, i) &&
    var record := log.events[i].key.record;
    var target := Target(board.states, board.coordinator, LiveState(log, board.states, record), LiveRole(log, record));
    Truthy(target) && forall a :: a in board.agents ==> a.role != target.value
  }

  /** An event that is not ignored is the current trigger of its record, for the live target. */
  lemma DecidedIsCurrent(log: Log, board: Board, i: nat)
    requires UniqueKeys(log.events) && i < |log.events| && Decide(log, board, log.events[i]) != Ignore
    ensures IsCurrent(log, board, i)
    ensures var record := log.events[i].key.record;
      DispatchState(board.states, log.events[i]) == LiveState(log, board.states, record)
  {
    var current := CurrentDispatch(log, board.states, log.events[i].key.record).value;
    assert current == i;
  }

  /** After a pass the events still pending are exactly the current triggers that were pending and whose
      target role has no agent; a record has at most one. */
  lemma PendingAfterPass(p: Plan, board: Board, order: seq<nat>, i: nat)
    requires UniqueKeys(p.log.events) && Pending(p.log.events, order) && i < |p.log.events|
    ensures var p' := Pass(p, board, order);
      |p'.log.events| == |p.log.events| &&
      (p'.log.events[i].routing == Waiting <==> p.log.events[i].routing == Waiting && Unserved(p.log, board, i)) &&
      (p'.log.events[i].routing == Waiting ==> IsCurrent(p'.log, board, i))
  {
    PassDoes(p, board, order);
    var p' := Pass(p, board, order);
    var record := p.log.events[i].key.record;
    SameCurrent(p.log, p'.log, board.states, record);
    if Decide(p.log, board, p.log.events[i]) != Ignore { DecidedIsCurrent(p.log, board, i); }
  }

  lemma OnePendingPerRecord(p: Plan, board: Board, order: seq<nat>, i: nat, j: nat)
    requires UniqueKeys(p.log.events) && Pending(p.log.events, order) && i < |p.log.events| && j < |p.log.events|
    requires Pass(p, board, order).log.events[i].routing == Waiting
    requires Pass(p, board, order).log.events[j].routing == Waiting
    requires p.log.events[i].key.record == p.log.events[j].key.record
    ensures i == j
  {
    PendingAfterPass(p, board, order, i);
    PendingAfterPass(p, board, order, j);
  }

  /** Deliveries are inserted only for current triggers, and only for agents of the live target role. */
  lemma DeliveriesAreCurrent(p: Plan, board: Board, order: seq<nat>, d: Delivery)
    requires UniqueKeys(p.log.events) && Pending(p.log.events, order)
    requires d in Pass(p, board, order).rows && d !in p.rows
    ensures exists i, a :: InsertedFor(p.log, board, i, a, d)
  {
    PassDoes(p, board, order);
    var k :| 0 <= k < |order| && PlannedAt(p.log, board, order[k], d);
    DecidedIsCurrent(p.log, board, order[k]);
    var decision := Decide(p.log, board, p.log.events[order[k]]);
    var a :| a in board.agents && a.role == decision.role &&
      d == Delivery(p.log.events[order[k]].key, a.id, a.revision);
    assert InsertedFor(p.log, board, order[k], a, d);
  }

  ghost predicate InsertedFor(log: Log, board: Board, i: nat, a: Agent, d: Delivery) {
    IsCurrent(log, board, i) && a in board.agents && d == Delivery(log.events[i].key, a.id, a.revision) &&
    var record := log.events[i].key.record;
    Target(board.states, board.coordinator, LiveState(log, board.states, record), LiveRole(log, record)) == Some(a.role)
  }

  /** A second pass over the same board does nothing. */
  lemma SecondPassIsIdle(p: Plan, board: Board, order: seq<nat>, again: seq<nat>)
    requires UniqueKeys(p.log.events) && Pending(p.log.events, order)
    requires Pending(Pass(p, board, order).log.events, again)
    ensures Pass(Pass(p, board, order), board, again) == Pass(p, board, order)
  {
    var p' := Pass(p, board, order);
    PassDoes(p, board, order);
    PassDoes(p', board, again);
    var p'' := Pass(p', board, again);
    forall i | 0 <= i < |p.log.events| && p'.log.events[i].routing == Waiting
      ensures Decide(p'.log, board, p'.log.events[i]) == Await
    {
      SameDecision(p.log, p'.log, board, i);
      assert i in order;
    }
    assert p''.log.events == p'.log.events by {
      forall i | 0 <= i < |p.log.events| ensures p''.log.events[i] == p'.log.events[i] { }
    }
    assert p''.rows == p'.rows;
  }

  // ---------------------------------------------------------------- catch-up

  /** ORDER BY created_at DESC, rowid DESC LIMIT 1 among the record's events of one type. */
  function Latest(events: seq<Event>, record: string, eventType: string): (r: Option<nat>)
    ensures r.Some? ==> r.value < |events| && OfType(events[r.value], record, eventType)
    ensures forall k :: 0 <= k < |events| && OfType(events[k], record, eventType) ==>
      r.Some? && events[k].createdAt <= events[r.value].createdAt &&
        (events[k].createdAt == events[r.value].createdAt ==> k <= r.value)
  {
    if events == [] then None
    else
      var last := |events| - 1;
      var r := Latest(events[..last], record, eventType);
      if OfType(events[last], record, eventType) &&
        (r == None || events[r.value].createdAt <= events[last].createdAt) then Some(last) else r
  }

  predicate OfType(e: Event, record: string, eventType: string) {
    e.key.record == record && e.key.eventType == eventType
  }

  /** The event a record's catch-up deliveries are for. */
  function CatchUpEvent(log: Log, board: Board, record: string): Option<nat> {
    var key := LiveState(log, board.states, record);
    if key == None then None else Latest(log.events, record, Entered(key.value))
  }

  function CatchUpRows(log: Log, board: Board, record: string): set<Delivery> {
    var event := CatchUpEvent(log, board, record);
    var target := Target(board.states, board.coordinator, LiveState(log, board.states, record), LiveRole(log, record));
    if event == None || !Truthy(target) then {} else DeliveriesFor(log.events[event.value].key, board.agents,
      target.value)
  }

  function CatchUp(p: Plan, board: Board, records: seq<string>): set<Delivery>
    decreases |records|
  {
    if records == [] then p.rows else CatchUp(p.(rows := p.rows + CatchUpRows(p.log, board, records[0])), board,
      records[1..])
  }

  lemma {:induction false} CatchUpDoes(p: Plan, board: Board, records: seq<string>, d: Delivery)
    ensures d in CatchUp(p, board, records) <==>
      d in p.rows || exists k :: 0 <= k < |records| && d in CatchUpRows(p.log, board, records[k])
    decreases |records|
  {
    if records != [] {
      var p' := p.(rows := p.rows + CatchUpRows(p.log, board, records[0]));
      CatchUpDoes(p', board, records[1..], d);
      if exists k :: 0 <= k < |records| && d in CatchUpRows(p.log, board, records[k]) {
        var k :| 0 <= k < |records| && d in CatchUpRows(p.log, board, records[k]);
        if k > 0 { assert records[1..][k - 1] == records[k]; }
      }
      if exists k :: 0 <= k < |records[1..]| && d in CatchUpRows(p.log, board, records[1..][k]) {
        var k :| 0 <= k < |records[1..]| && d in CatchUpRows(p.log, board, records[1..][k]);
        assert records[k + 1] == records[1..][k];
      }
    }
  }

  ghost predicate MonotoneClock(events: seq<Event>) {
    forall j, k :: 0 <= j < k < |events| ==> events[j].createdAt <= events[k].createdAt
  }

  /** With a monotone clock the catch-up serves the current trigger exactly when that is an entry of the state. */
  lemma CatchUpEventIsCurrent(log: Log, board: Board, record: string)
    requires MonotoneClock(log.events) && CurrentDispatch(log, board.states, record).Some?
    ensures var key := LiveState(log, board.states, record).value;
      var current := CurrentDispatch(log, board.states, record);
      CatchUpEvent(log, board, record) == current <==> log.events[current.value].key.eventType == Entered(key)
  {
    var key := LiveState(log, board.states, record).value;
    var current := CurrentDispatch(log, board.states, record).value;
    var latest := Latest(log.events, record, Entered(key));
    if log.events[current].key.eventType == Entered(key) {
      assert OfType(log.events[current], record, Entered(key));
      assert Dispatches(board.states, key, log.events[latest.value]);
      DispatchMeaning(board.states, log.events[latest.value], key);
      assert IsTrigger(board.states, record, key, log.events[latest.value]);
    }
  }

  /** After a catch-up every agent of the target role has a row for a trigger that is an entry. */
  lemma CatchUpIsComplete(p: Plan, board: Board, records: seq<string>, record: string, a: Agent)
    requires MonotoneClock(p.log.events) && CurrentDispatch(p.log, board.states, record).Some? && record in records
    requires var key := LiveState(p.log, board.states, record);
      var e := p.log.events[CurrentDispatch(p.log, board.states, record).value];
      e.key.eventType == Entered(key.value) && Truthy(Some(a.role)) && a in board.agents &&
      Target(board.states, board.coordinator, key, LiveRole(p.log, record)) == Some(a.role)
    ensures var e := p.log.events[CurrentDispatch(p.log, board.states, record).value];
      Delivery(e.key, a.id, a.revision) in CatchUp(p, board, records)
  {
    CatchUpEventIsCurrent(p.log, board, record);
    var e := p.log.events[CurrentDispatch(p.log, board.states, record).value];
    var d := Delivery(e.key, a.id, a.revision);
    assert d in CatchUpRows(p.log, board, record);
    CatchUpDoes(p, board, records, d);
  }

  // ---------------------------------------------------------------- the tables, updated in place

  class Planner {
    var events: seq<Event>
    var states: map<string, TaskState>
    var rows: set<Delivery>

    ghost function View(): Plan
      reads this
    {
      Plan(Log(events, states), rows)
    }

    /** prepare_task_deliveries: one transaction over the selected events, with its counters. */
    method PrepareTaskDeliveries(board: Board, order: seq<nat>)
      returns (routed: nat, waiting: nat, ignored: nat, deliveries: nat)
      requires forall k :: 0 <= k < |order| ==> order[k] < |events|
      modifies this`events, this`rows
      ensures |events| == |old(events)| && View() == Pass(old(View()), board, order)
      ensures routed + waiting + ignored == |order|
      ensures |rows| == |old(rows)| + deliveries
    {
      routed, waiting, ignored, deliveries := 0, 0, 0, 0;
      var k := 0;
      assert order[0..] == order;
      while k < |order|
        invariant k <= |order| && |events| == |old(events)|
        invariant Pass(View(), board, order[k..]) == Pass(old(View()), board, order)
        invariant routed + waiting + ignored == k && |rows| == |old(rows)| + deliveries
      {
        assert order[k..][0] == order[k] && order[k..][1..] == order[k + 1..];
        ghost var before := View();
        var e := events[order[k]];
        var decision := Decide(Log(events, states), board, e);
        match decision {
          case Ignore =>
            events := events[order[k] := e.(routing := Ignored)];
            ignored := ignored + 1;
          case Await =>
            waiting := waiting + 1;
          case Send(role) =>
            var inserted := InsertDeliveries(e.key, board.agents, role);
            deliveries := deliveries + inserted;
            events := events[order[k] := e.(routing := Routed)];
            routed := routed + 1;
        }
        assert View() == PlanOne(before, board, order[k]);
        k := k + 1;
      }
    }

    /** insert_delivery for every agent of a role; a row that exists is ignored and not counted. */
    method InsertDeliveries(key: EventKey, agents: seq<Agent>, role: string) returns (inserted: nat)
      modifies this`rows
      ensures rows == old(rows) + DeliveriesFor(key, agents, role)
      ensures |rows| == |old(rows)| + inserted
    {
      inserted := 0;
      for k := 0 to |agents|
        invariant rows == old(rows) + DeliveriesFor(key, agents[..k], role)
        invariant |rows| == |old(rows)| + inserted
      {
        assert agents[..k + 1] == agents[..k] + [agents[k]];
        if agents[k].role == role {
          var d := Delivery(key, agents[k].id, agents[k].revision);
          if d !in rows {
            inserted := inserted + 1;
            rows := rows + {d};
          }
        }
      }
      assert agents[..|agents|] == agents;
    }

    /** The rows of one record. */
    method CatchUpRecord(board: Board, record: string) returns (inserted: nat)
      modifies this`rows
      ensures rows == old(rows) + CatchUpRows(Log(events, states), board, record)
      ensures |rows| == |old(rows)| + inserted
    {
      hide Latest, NewestWhere, LiveState;
      var log := Log(events, states);
      var event := CatchUpEvent(log, board, record);
      var key := LiveState(log, board.states, record);
      var target := Target(board.states, board.coordinator, key, LiveRole(log, record));
      inserted := 0;
      if event.Some? && Truthy(target) {
        inserted := InsertDeliveries(log.events[event.value].key, board.agents, target.value);
      } else {
        assert rows + CatchUpRows(log, board, record) == rows;
      }
    }

    /** prepare_agent_catchup_deliveries. */
    method PrepareAgentCatchup(board: Board, records: seq<string>) returns (deliveries: nat)
      modifies this`rows
      ensures rows == CatchUp(old(View()), board, records)
      ensures |rows| == |old(rows)| + deliveries
    {
      hide CatchUpRows;
      deliveries := 0;
      var k := 0;
      assert records[0..] == records;
      while k < |records|
        invariant k <= |records|
        invariant CatchUp(View(), board, records[k..]) == CatchUp(old(View()), board, records)
        invariant |rows| == |old(rows)| + deliveries
      {
        assert records[k..][0] == records[k] && records[k..][1..] == records[k + 1..];
        var inserted := CatchUpRecord(board, records[k]);
        deliveries := deliveries + inserted;
        k := k + 1;
      }
    }
  }
}
