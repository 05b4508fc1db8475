/**
 The event log of one board: snapshots of records become events, keyed by revision, record and
 event type.  Record identifiers and statuses are strings; the rest of a snapshot is one token.
 */
module TaskEvents {
  import opened Common

  datatype Task = Task(status: Option<string>, role: Option<string>, body: nat)

  /** A source revision: an integer, or text that int() rejects. */
  datatype Revision = Number(value: int) | Text(text: string)

  /** The revision part of an event key; the hash of a snapshot stands for the snapshot. */
  datatype RevisionKey = ByRevision(revision: Revision) | BySnapshot(snapshot: Option<Task>)

  datatype EventKey = EventKey(revision: RevisionKey, record: string, eventType: string)

  datatype Routing = Waiting | Routed | Ignored

  datatype Event = Event(key: EventKey, before: Option<Task>, after: Option<Task>, createdAt: nat, routing: Routing)

  datatype TaskState = TaskState(task: Task, revision: Option<Revision>, updatedAt: nat)

  /** The events in insertion order, and the saved state of every record. */
  datatype Log = Log(events: seq<Event>, states: map<string, TaskState>)

  predicate Truthy(s: Option<string>) {
    s.Some? && s.value != ""
  }

  function Entered(status: string): string { status + "_entered" }
  function Left(status: string): string { status + "_left" }
  function Updated(status: string): string { status + "_updated" }

  function EventTypes(before: Option<Task>, after: Option<Task>): seq<string> {
    if before == None && after == None then []
    else if before == None then
      ["task_created"] + (if Truthy(after.value.status) then [Entered(after.value.status.value)] else [])
    else if after == None then ["task_deleted"]
    else if before.value.status != after.value.status then
      var moves := (if Truthy(before.value.status) then [Left(before.value.status.value)] else [])
                 + (if Truthy(after.value.status) then [Entered(after.value.status.value)] else []);
      if moves == [] then ["task_updated"] else moves
    else [if Truthy(after.value.status) then Updated(after.value.status.value) else "task_updated"]
  }

  predicate OlderRevision(candidate: Option<Revision>, current: Option<Revision>) {
    candidate.Some? && current.Some? && candidate.value.Number? && current.value.Number? &&
    candidate.value.value < current.value.value
  }

  function KeyRevision(revision: Option<Revision>, before: Option<Task>, after: Option<Task>): RevisionKey {
    if revision.Some? && revision.value != Text("") then ByRevision(revision.value)
    else BySnapshot(if after.Some? then after else before)
  }

  predicate HasKey(events: seq<Event>, key: EventKey) {
    exists k :: 0 <= k < |events| && events[k].key == key
  }

  /** INSERT OR IGNORE of one event. */
  function Insert(events: seq<Event>, e: Event): seq<Event> {
    if HasKey(events, e.key) then events else events + [e]
  }

  function NewEvent(revision: RevisionKey, record: string, eventType: string, before: Option<Task>, after: Option<Task>,
                    now: nat): Event {
    Event(EventKey(revision, record, eventType), before, after, now, Waiting)
  }

  function InsertAll(events: seq<Event>, revision: RevisionKey, record: string, types: seq<string>,
                     before: Option<Task>, after: Option<Task>, now: nat): seq<Event>
    decreases |types|
  {
    if types == [] then events
    else InsertAll(Insert(events, NewEvent(revision, record, types[0], before, after, now)), revision, record,
      types[1..], before, after, now)
  }

  function Before(log: Log, record: string): Option<Task> {
    if record in log.states then Some(log.states[record].task) else None
  }

  /** A snapshot that is not older than the stored one and differs from it. */
  predicate Changes(log: Log, record: string, task: Option<Task>, revision: Option<Revision>) {
    record in log.states ==>
      !OlderRevision(revision, log.states[record].revision) && task != Some(log.states[record].task)
  }

  /** save_task_snapshot. */
  function Save(log: Log, record: string, task: Option<Task>, revision: Option<Revision>, now: nat): Log {
    var before := Before(log, record);
    if before.Some? && OlderRevision(revision, log.states[record].revision) then log
    else if before.Some? && task == before then
      log.(states := log.states[record := TaskState(task.value,
        if revision.Some? then revision else log.states[record].revision, now)])
    else
      Log(InsertAll(log.events, KeyRevision(revision, before, task), record, EventTypes(before, task), before, task,
        now),
          if task == None then log.states - {record} else log.states[record := TaskState(task.value, revision, now)])
  }

  /** No event of this snapshot is dropped by its key. */
  ghost predicate NoCollision(log: Log, record: string, task: Option<Task>, revision: Option<Revision>) {
    var before := Before(log, record);
    Changes(log, record, task, revision) ==>
      forall t :: t in EventTypes(before, task) ==>
        !HasKey(log.events, EventKey(KeyRevision(revision, before, task), record, t))
  }

  // ---------------------------------------------------------------- insertion

  /** The events a change of one record stands for, in order. */
  function Fresh(revision: RevisionKey, record: string, types: seq<string>, before: Option<Task>, after: Option<Task>,
                 now: nat): seq<Event> {
    seq(|types|, k requires 0 <= k < |types| => NewEvent(revision, record, types[k], before, after, now))
  }

  ghost predicate DistinctTypes(types: seq<string>) {
    forall j, k :: 0 <= j < k < |types| ==> types[j] != types[k]
  }

  lemma EventTypesDistinct(before: Option<Task>, after: Option<Task>)
    ensures DistinctTypes(EventTypes(before, after))
  {
    var types := EventTypes(before, after);
    if |types| == 2 {
      assert types[0][|types[0]| - 1] != types[1][|types[1]| - 1] ||
        types[0][|types[0]| - 3] != types[1][|types[1]| - 3];
    }
  }

  /** The event types of a change whose keys are new. */
  function KeptTypes(events: seq<Event>, revision: RevisionKey, record: string, types: seq<string>): seq<string> {
    if types == [] then []
    else
      (if HasKey(events, EventKey(revision, record, types[0])) then [] else [types[0]])
      + KeptTypes(events, revision, record, types[1..])
  }

  lemma {:induction false} KeptMeaning(events: seq<Event>, revision: RevisionKey, record: string, types: seq<string>,
                                       t: string)
    ensures t in KeptTypes(events, revision, record, types) <==>
      t in types && !HasKey(events, EventKey(revision, record, t))
    decreases |types|
  {
    if types != [] {
      assert types == [types[0]] + types[1..];
      KeptMeaning(events, revision, record, types[1..], t);
    }
  }

  lemma {:induction false} KeptLast(events: seq<Event>, revision: RevisionKey, record: string, types: seq<string>)
    requires types != [] && !HasKey(events, EventKey(revision, record, types[|types| - 1]))
    ensures var kept := KeptTypes(events, revision, record, types);
      kept != [] && kept[|kept| - 1] == types[|types| - 1]
    decreases |types|
  {
    if |types| > 1 { KeptLast(events, revision, record, types[1..]); }
  }

  lemma {:induction false} AllKept(events: seq<Event>, revision: RevisionKey, record: string, types: seq<string>)
    requires forall t :: t in types ==> !HasKey(events, EventKey(revision, record, t))
    ensures KeptTypes(events, revision, record, types) == types
    decreases |types|
  {
    if types != [] {
      assert types[0] in types;
      AllKept(events, revision, record, types[1..]);
    }
  }

  /** An event of another type does not matter to what is kept. */
  lemma {:induction false} KeptBeside(events: seq<Event>, e: Event, revision: RevisionKey, record: string,
                                      types: seq<string>)
    requires e.key.eventType !in types
    ensures KeptTypes(events + [e], revision, record, types) == KeptTypes(events, revision, record, types)
    decreases |types|
  {
    if types != [] {
      KeptBeside(events, e, revision, record, types[1..]);
      var key := EventKey(revision, record, types[0]);
      if HasKey(events, key) {
        var k :| 0 <= k < |events| && events[k].key == key;
        assert (events + [e])[k].key == key;
      }
    }
  }

  lemma FreshFront(events: seq<Event>, revision: RevisionKey, record: string, t: string, rest: seq<string>,
                   before: Option<Task>, after: Option<Task>, now: nat)
    ensures events + Fresh(revision, record, [t] + rest, before, after, now)
      == (events + [NewEvent(revision, record, t, before, after, now)]) + Fresh(revision, record, rest, before, after,
        now)
  {
    var e := NewEvent(revision, record, t, before, after, now);
    assert Fresh(revision, record, [t] + rest, before, after, now) == [e] + Fresh(revision, record, rest, before, after,
      now);
  }

  lemma {:induction false} InsertAllKeeps(events: seq<Event>, revision: RevisionKey, record: string, types: seq<string>,
                                          before: Option<Task>, after: Option<Task>, now: nat)
    requires DistinctTypes(types)
    ensures InsertAll(events, revision, record, types, before, after, now)
      == events + Fresh(revision, record, KeptTypes(events, revision, record, types), before, after, now)
    decreases |types|
  {
    hide HasKey, Fresh;
    if types == [] {
      NoneFresh(events, revision, record, before, after, now);
    } else {
      var e := NewEvent(revision, record, types[0], before, after, now);
      var rest := types[1..];
      assert DistinctTypes(rest) && types[0] !in rest;
      if HasKey(events, e.key) {
        InsertAllKeeps(events, revision, record, rest, before, after, now);
        assert KeptTypes(events, revision, record, types) == KeptTypes(events, revision, record, rest);
      } else {
        KeptBeside(events, e, revision, record, rest);
        InsertAllKeeps(events + [e], revision, record, rest, before, after, now);
        FreshFront(events, revision, record, types[0], KeptTypes(events, revision, record, rest), before, after, now);
      }
    }
  }

  lemma NoneFresh(events: seq<Event>, revision: RevisionKey, record: string, before: Option<Task>, after: Option<Task>,
                  now: nat)
    ensures events + Fresh(revision, record, [], before, after, now) == events
  {
  }

  /** What a change appends: those of its events whose key is new. */
  function Added(log: Log, record: string, task: Option<Task>, revision: Option<Revision>, now: nat): seq<Event> {
    var before := Before(log, record);
    var key := KeyRevision(revision, before, task);
    Fresh(key, record, KeptTypes(log.events, key, record, EventTypes(before, task)), before, task, now)
  }

  lemma SaveAppendsKept(log: Log, record: string, task: Option<Task>, revision: Option<Revision>, now: nat)
    requires Changes(log, record, task, revision)
    ensures Save(log, record, task, revision, now).events == log.events + Added(log, record, task, revision, now)
  {
    var before := Before(log, record);
    EventTypesDistinct(before, task);
    InsertAllKeeps(log.events, KeyRevision(revision, before, task), record, EventTypes(before, task), before, task,
      now);
  }

  /** Without a collision a change appends exactly its events. */
  lemma SaveAppends(log: Log, record: string, task: Option<Task>, revision: Option<Revision>, now: nat)
    requires Changes(log, record, task, revision) && NoCollision(log, record, task, revision)
    ensures var before := Before(log, record);
      Save(log, record, task, revision, now).events
        == log.events + Fresh(KeyRevision(revision, before, task), record, EventTypes(before, task), before, task, now)
  {
    var before := Before(log, record);
    SaveAppendsKept(log, record, task, revision, now);
    AllKept(log.events, KeyRevision(revision, before, task), record, EventTypes(before, task));
  }

  /** Event keys stay unique, whatever arrives. */
  ghost predicate UniqueKeys(events: seq<Event>) {
    forall j, k :: 0 <= j < k < |events| ==> events[j].key != events[k].key
  }

  lemma {:induction false} InsertAllKeepsUnique(events: seq<Event>, revision: RevisionKey, record: string,
                                                types: seq<string>,
                                                before: Option<Task>, after: Option<Task>, now: nat)
    requires UniqueKeys(events)
    ensures UniqueKeys(InsertAll(events, revision, record, types, before, after, now))
    decreases |types|
  {
    if types != [] {
      InsertAllKeepsUnique(Insert(events, NewEvent(revision, record, types[0], before, after, now)), revision, record,
        types[1..], before, after, now);
    }
  }

  lemma SaveKeepsUnique(log: Log, record: string, task: Option<Task>, revision: Option<Revision>, now: nat)
    requires UniqueKeys(log.events)
    ensures UniqueKeys(Save(log, record, task, revision, now).events)
  {
    var before := Before(log, record);
    InsertAllKeepsUnique(log.events, KeyRevision(revision, before, task), record, EventTypes(before, task), before,
      task, now);
  }

  /** A revision no event of the record carries yet cannot collide. */
  lemma FreshRevisionCannotCollide(log: Log, record: string, task: Option<Task>, revision: Revision)
    requires revision != Text("")
    requires forall k :: 0 <= k < |log.events| && log.events[k].key.record == record ==>
      log.events[k].key.revision != ByRevision(revision)
    ensures NoCollision(log, record, task, Some(revision))
  {
  }

  // ---------------------------------------------------------------- convergence

  datatype Arrival = Arrival(revision: int, task: Task, at: nat)

  function SaveArrival(log: Log, record: string, a: Arrival): Log {
    Save(log, record, Some(a.task), Some(Number(a.revision)), a.at)
  }

  function SaveArrivals(log: Log, record: string, arrivals: seq<Arrival>): Log {
    if arrivals == [] then log
    else SaveArrival(SaveArrivals(log, record, arrivals[..|arrivals| - 1]), record, arrivals[|arrivals| - 1])
  }

  ghost predicate DistinctRevisions(arrivals: seq<Arrival>) {
    forall j, k :: 0 <= j < k < |arrivals| ==> arrivals[j].revision != arrivals[k].revision
  }

  predicate Highest(arrivals: seq<Arrival>, a: Arrival) {
    a in arrivals && forall b :: b in arrivals ==> b.revision <= a.revision
  }

  predicate Holds(log: Log, record: string, a: Arrival) {
    record in log.states && log.states[record].task == a.task && log.states[record].revision == Some(Number(a.revision))
  }

  /** Whatever the order of arrival, the record ends with the highest revision and its snapshot. */
  lemma {:induction false} ArrivalsConverge(log: Log, record: string, arrivals: seq<Arrival>, a: Arrival)
    requires record !in log.states && DistinctRevisions(arrivals) && Highest(arrivals, a)
    ensures Holds(SaveArrivals(log, record, arrivals), record, a)
  {
    var n := |arrivals| - 1;
    var front, last := arrivals[..n], arrivals[n];
    var soFar := SaveArrivals(log, record, front);
    if n == 0 {
      assert front == [];
    } else if last == a {
      var b := Best(front);
      ArrivalsConverge(log, record, front, b);
      assert b in arrivals;
    } else {
      assert arrivals == front + [last];
      ArrivalsConverge(log, record, front, a);
      var j :| 0 <= j < n && front[j] == a;
      assert arrivals[j].revision != arrivals[n].revision;
    }
  }

  function Best(arrivals: seq<Arrival>): (a: Arrival)
    requires arrivals != []
    ensures Highest(arrivals, a)
  {
    if |arrivals| == 1 then arrivals[0]
    else
      var b := Best(arrivals[1..]);
      assert arrivals == [arrivals[0]] + arrivals[1..];
      if arrivals[0].revision > b.revision then arrivals[0] else b
  }

  /** Two orders of the same arrivals end in the same snapshot and revision. */
  lemma OrderDoesNotMatter(log: Log, record: string, first: seq<Arrival>, second: seq<Arrival>)
    requires record !in log.states && first != [] && DistinctRevisions(first) && DistinctRevisions(second)
    requires forall a :: a in first <==> a in second
    ensures var s := SaveArrivals(log, record, first).states;
      var t := SaveArrivals(log, record, second).states;
      record in s && record in t && s[record].task == t[record].task && s[record].revision == t[record].revision
  {
    var a := Best(first);
    ArrivalsConverge(log, record, first, a);
    ArrivalsConverge(log, record, second, a);
  }

  /** Replaying an arrival that was saved emits no event and changes no snapshot. */
  lemma ReplayIsSilent(log: Log, record: string, arrivals: seq<Arrival>, a: Arrival)
    requires record !in log.states && DistinctRevisions(arrivals) && a in arrivals
    ensures var saved := SaveArrivals(log, record, arrivals);
      var again := SaveArrival(saved, record, a);
      again.events == saved.events && again.states.Keys == saved.states.Keys && record in saved.states &&
      again.states[record].task == saved.states[record].task &&
        again.states[record].revision == saved.states[record].revision
  {
    var best := Best(arrivals);
    ArrivalsConverge(log, record, arrivals, best);
    if a != best {
      var j, k :| 0 <= j < |arrivals| && 0 <= k < |arrivals| && arrivals[j] == a && arrivals[k] == best;
      assert j != k && arrivals[j].revision != arrivals[k].revision;
    }
    assert SaveArrivals(log, record, arrivals).states.Keys + {record} == SaveArrivals(log, record,
      arrivals).states.Keys;
  }

  /** New content is rejected exactly when both revisions are integers and the new one is lower;
      accepted content brings its own revision, or none, with it. */
  lemma RevisionCanFall(log: Log, record: string, task: Task, revision: Option<Revision>, now: nat, stored: int)
    requires record in log.states && log.states[record].revision == Some(Number(stored))
    requires task != log.states[record].task
    ensures var after := Save(log, record, Some(task), revision, now).states[record];
      (after.revision == None <==> revision == None) &&
      (after.task != task <==> revision.Some? && revision.value.Number? && revision.value.value < stored)
  {
  }

  lemma ErasedRevisionAcceptsOlder(log: Log, record: string, task: Task, later: Task, stored: int, older: int, now: nat)
    requires record in log.states && log.states[record].revision == Some(Number(stored))
    requires task != log.states[record].task
    requires older < stored && later != task
    ensures var erased := Save(log, record, Some(task), None, now);
      Holds(Save(erased, record, Some(later), Some(Number(older)), now), record, Arrival(older, later, now))
  {
  }

  // ---------------------------------------------------------------- the tables, updated in place

  class EventStore {
    var events: seq<Event>
    var states: map<string, TaskState>

    ghost function View(): Log
      reads this
    {
      Log(events, states)
    }

    constructor ()
      ensures View() == Log([], map[])
    {
      events, states := [], map[];
    }

    method SaveTaskSnapshot(record: string, task: Option<Task>, revision: Option<Revision>, now: nat)
      returns (inserted: seq<string>)
      modifies this
      ensures View() == Save(old(View()), record, task, revision, now)
      ensures |events| == |old(events)| + |inserted|
      ensures forall k :: 0 <= k < |inserted| ==> events[|old(events)| + k].key.eventType == inserted[k]
    {
      inserted := [];
      var before := if record in states then Some(states[record].task) else None;
      if before.Some? && OlderRevision(revision, states[record].revision) { return; }
      if before.Some? && task == before {
        states := states[record := TaskState(task.value, if revision.Some? then revision else states[record].revision,
          now)];
        return;
      }
      var types := EventTypes(before, task);
      var key := KeyRevision(revision, before, task);
      var k := 0;
      assert types[0..] == types;
      while k < |types|
        invariant k <= |types| && states == old(states)
        invariant InsertAll(events, key, record, types[k..], before, task, now)
          == InsertAll(old(events), key, record, types, before, task, now)
        invariant |events| == |old(events)| + |inserted|
        invariant forall j :: 0 <= j < |inserted| ==> events[|old(events)| + j].key.eventType == inserted[j]
      {
        assert types[k..][0] == types[k] && types[k..][1..] == types[k + 1..];
        var e := NewEvent(key, record, types[k], before, task, now);
        if !HasKey(events, e.key) {
          events := events + [e];
          inserted := inserted + [types[k]];
        }
        k := k + 1;
      }
      states := if task == None then states - {record} else states[record := TaskState(task.value, revision, now)];
    }
  }
}
