/**
 Any interleaving of arriving snapshots, routing passes and catch-up passes over one board, each pass with the
 lifecycle and the agents of its moment.
 */
module TaskRuns {
  import opened Common
  import opened TaskEvents
  import opened TaskRouting
  import opened TaskPlanner

  datatype Act =
    | Arrive(record: string, task: Option<Task>, revision: Option<Revision>, at: nat)
    | RoutingPass(board: Board, order: seq<nat>)
    | CatchUpPass(board: Board, records: seq<string>)

  ghost predicate Possible(p: Plan, act: Act) {
    act.RoutingPass? ==> Pending(p.log.events, act.order)
  }

  function Do(p: Plan, act: Act): Plan
    requires Possible(p, act)
  {
    match act
    case Arrive(record, task, revision, at) => p.(log := Save(p.log, record, task, revision, at))
    case RoutingPass(board, order) => Pass(p, board, order)
    case CatchUpPass(board, records) => p.(rows := CatchUp(p, board, records))
  }

  ghost predicate RunOf(states: seq<Plan>, acts: seq<Act>) {
    |states| == |acts| + 1 && states[0] == Plan(Log([], map[]), {}) &&
    forall k :: 0 <= k < |acts| ==> Possible(states[k], acts[k]) && states[k + 1] == Do(states[k], acts[k])
  }

  // ---------------------------------------------------------------- what one act keeps

  /** The log only grows, and an event changes at most by leaving pending. */
  ghost predicate LogGrows(events: seq<Event>, events': seq<Event>) {
    |events| <= |events'| && forall i :: 0 <= i < |events| ==> Settles(events[i], events'[i])
  }

  predicate Settles(e: Event, e': Event) {
    e' == e.(routing := e'.routing) && (e.routing != Waiting ==> e' == e)
  }

  lemma SaveGrows(log: Log, record: string, task: Option<Task>, revision: Option<Revision>, at: nat)
    ensures LogGrows(log.events, Save(log, record, task, revision, at).events)
  {
    if Changes(log, record, task, revision) { SaveAppendsKept(log, record, task, revision, at); }
  }

  lemma PassGrows(p: Plan, board: Board, order: seq<nat>)
    requires Pending(p.log.events, order)
    ensures LogGrows(p.log.events, Pass(p, board, order).log.events) && p.rows <= Pass(p, board, order).rows
  {
    hide Decide;
    PassDoes(p, board, order);
  }

  lemma {:induction false} CatchUpGrows(p: Plan, board: Board, records: seq<string>)
    ensures p.rows <= CatchUp(p, board, records)
  {
    forall d | d in p.rows ensures d in CatchUp(p, board, records) { CatchUpDoes(p, board, records, d); }
  }

  lemma ActGrows(p: Plan, act: Act)
    requires Possible(p, act)
    ensures LogGrows(p.log.events, Do(p, act).log.events) && p.rows <= Do(p, act).rows
  {
    match act {
      case Arrive(record, task, revision, at) => SaveGrows(p.log, record, task, revision, at);
      case RoutingPass(board, order) => PassGrows(p, board, order);
      case CatchUpPass(board, records) => CatchUpGrows(p, board, records);
    }
  }

  lemma SameKeysStayUnique(events: seq<Event>, events': seq<Event>)
    requires UniqueKeys(events) && |events'| == |events| && LogGrows(events, events')
    ensures UniqueKeys(events')
  {
    forall j, k | 0 <= j < k < |events'| ensures events'[j].key != events'[k].key {
      assert Settles(events[j], events'[j]) && Settles(events[k], events'[k]);
    }
  }

  lemma ActKeepsUnique(p: Plan, act: Act)
    requires Possible(p, act) && UniqueKeys(p.log.events)
    ensures UniqueKeys(Do(p, act).log.events)
  {
    hide UniqueKeys, Save;
    match act {
      case Arrive(record, task, revision, at) => SaveKeepsUnique(p.log, record, task, revision, at);
      case RoutingPass(board, order) =>
        PassGrows(p, board, order);
        SameKeysStayUnique(p.log.events, Pass(p, board, order).log.events);
      case CatchUpPass(_, _) =>
    }
  }

  // ---------------------------------------------------------------- runs

  lemma GrowsTwice(events: seq<Event>, events1: seq<Event>, events2: seq<Event>)
    requires LogGrows(events, events1) && LogGrows(events1, events2)
    ensures LogGrows(events, events2)
  {
    forall i | 0 <= i < |events| ensures Settles(events[i], events2[i]) {
      assert Settles(events[i], events1[i]) && Settles(events1[i], events2[i]);
    }
  }

  /** Over every run no event is forgotten or rewritten, one that left pending never changes again, and no delivery
      is forgotten. */
  lemma {:induction false} RoutedForGood(states: seq<Plan>, acts: seq<Act>, j: nat, k: nat)
    requires RunOf(states, acts) && j <= k < |states|
    ensures LogGrows(states[j].log.events, states[k].log.events) && states[j].rows <= states[k].rows
  {
    hide Do, Possible, LogGrows;
    if j == k {
      NothingGrows(states[j].log.events);
    } else {
      RoutedForGood(states, acts, j, k - 1);
      ActGrows(states[k - 1], acts[k - 1]);
      GrowsTwice(states[j].log.events, states[k - 1].log.events, states[k].log.events);
    }
  }

  lemma NothingGrows(events: seq<Event>)
    ensures LogGrows(events, events)
  {
  }

  predicate LeavesPending(p: Plan, p': Plan, i: nat) {
    i < |p.log.events| && i < |p'.log.events| &&
    p.log.events[i].routing == Waiting && p'.log.events[i].routing != Waiting
  }

  lemma StaysRouted(states: seq<Plan>, acts: seq<Act>, j: nat, k: nat, i: nat)
    requires RunOf(states, acts) && j <= k < |states|
    requires i < |states[j].log.events| && states[j].log.events[i].routing != Waiting
    ensures i < |states[k].log.events| && states[k].log.events[i].routing != Waiting
  {
    RoutedForGood(states, acts, j, k);
    assert Settles(states[j].log.events[i], states[k].log.events[i]);
  }

  /** Over every run an event leaves pending at most once, and only in a routing pass. */
  lemma LeavesPendingOnce(states: seq<Plan>, acts: seq<Act>, j: nat, k: nat, i: nat)
    requires RunOf(states, acts) && j < |acts| && k < |acts|
    requires LeavesPending(states[j], states[j + 1], i) && LeavesPending(states[k], states[k + 1], i)
    ensures j == k && acts[k].RoutingPass?
  {
    hide Decide;
    if j < k { StaysRouted(states, acts, j + 1, k, i); }
    if k < j { StaysRouted(states, acts, k + 1, j, i); }
    if acts[k].Arrive? { SaveKeepsRouting(states[k].log, acts[k], i); }
  }

  lemma SaveKeepsRouting(log: Log, act: Act, i: nat)
    requires act.Arrive? && i < |log.events|
    ensures var events := Save(log, act.record, act.task, act.revision, act.at).events;
      i < |events| && events[i] == log.events[i]
  {
    if Changes(log, act.record, act.task, act.revision) {
      SaveAppendsKept(log, act.record, act.task, act.revision, act.at);
    }
  }

  lemma {:induction false} RunKeepsUnique(states: seq<Plan>, acts: seq<Act>, k: nat)
    requires RunOf(states, acts) && k < |states|
    ensures UniqueKeys(states[k].log.events)
  {
    hide Do, Possible, UniqueKeys;
    if k == 0 {
      EmptyIsUnique();
    } else {
      RunKeepsUnique(states, acts, k - 1);
      ActKeepsUnique(states[k - 1], acts[k - 1]);
    }
  }

  lemma EmptyIsUnique()
    ensures UniqueKeys([])
  {
  }

  /** In every run, what is pending right after a routing pass are exactly the current triggers that were pending and
      whose target role has no agent. */
  lemma PendingAfterEveryPass(states: seq<Plan>, acts: seq<Act>, k: nat, i: nat)
    requires RunOf(states, acts) && k < |acts| && acts[k].RoutingPass? && i < |states[k].log.events|
    ensures |states[k + 1].log.events| == |states[k].log.events|
    ensures states[k + 1].log.events[i].routing == Waiting <==>
      states[k].log.events[i].routing == Waiting && Unserved(states[k].log, acts[k].board, i)
  {
    hide Unserved, UniqueKeys, Decide, IsCurrent;
    RunKeepsUnique(states, acts, k);
    PendingAfterPass(states[k], acts[k].board, acts[k].order, i);
  }

  // ---------------------------------------------------------------- convergence

  /** Every snapshot of the record that arrives is a card with an integer revision. */
  ghost predicate Numbered(acts: seq<Act>, record: string) {
    forall k :: 0 <= k < |acts| && acts[k].Arrive? && acts[k].record == record ==>
      acts[k].task.Some? && acts[k].revision.Some? && acts[k].revision.value.Number?
  }

  /** The record's own arrivals, in the order in which they came. */
  function ArrivalsOf(acts: seq<Act>, record: string): seq<Arrival>
    requires Numbered(acts, record)
  {
    if acts == [] then []
    else
      var last := acts[|acts| - 1];
      ArrivalsOf(acts[..|acts| - 1], record) +
      if last.Arrive? && last.record == record then [Arrival(last.revision.value.value, last.task.value,
        last.at)] else []
  }

  predicate SameState(log: Log, log': Log, record: string) {
    (record in log.states <==> record in log'.states) &&
    (record in log.states ==> log.states[record] == log'.states[record])
  }

  lemma SaveSameState(log: Log, log': Log, record: string, a: Arrival)
    requires SameState(log, log', record)
    ensures SameState(SaveArrival(log, record, a), SaveArrival(log', record, a), record)
  {
  }

  lemma OthersKeepState(p: Plan, act: Act, record: string)
    requires Possible(p, act) && (act.Arrive? ==> act.record != record)
    ensures SameState(p.log, Do(p, act).log, record)
  {
    hide Decide;
    if act.RoutingPass? { PassDoes(p, act.board, act.order); }
  }

  /** Passes and the arrivals of other records leave a record's saved snapshot alone. */
  lemma {:induction false} OnlyOwnArrivalsCount(states: seq<Plan>, acts: seq<Act>, record: string, k: nat)
    requires RunOf(states, acts) && Numbered(acts, record) && k <= |acts|
    ensures SameState(states[k].log, SaveArrivals(Log([], map[]), record, ArrivalsOf(acts[..k], record)), record)
  {
    hide Save, Possible, SameState;
    if k == 0 {
      EmptyIsSame(record);
    } else {
      OnlyOwnArrivalsCount(states, acts, record, k - 1);
      var act := acts[k - 1];
      assert acts[..k][..k - 1] == acts[..k - 1] && acts[..k][k - 1] == act;
      var before := ArrivalsOf(acts[..k - 1], record);
      var saved := SaveArrivals(Log([], map[]), record, before);
      if act.Arrive? && act.record == record {
        var a := Arrival(act.revision.value.value, act.task.value, act.at);
        SaveSameState(states[k - 1].log, saved, record, a);
        assert (before + [a])[..|before|] == before;
      } else {
        assert ArrivalsOf(acts[..k], record) == before;
        OthersKeepState(states[k - 1], act, record);
        SameStateTwice(states[k].log, states[k - 1].log, saved, record);
      }
    }
  }

  lemma EmptyIsSame(record: string)
    ensures SameState(Log([], map[]), Log([], map[]), record)
  {
  }

  lemma SameStateTwice(log: Log, log1: Log, log2: Log, record: string)
    requires SameState(log1, log2, record) && SameState(log1, log, record)
    ensures SameState(log, log2, record)
  {
  }

  /** Over every run in which a record's snapshots arrive with distinct integer revisions, in any order and
      interleaved with anything else, the record ends with the highest revision and its snapshot. */
  lemma SnapshotsConverge(states: seq<Plan>, acts: seq<Act>, record: string, a: Arrival)
    requires RunOf(states, acts) && Numbered(acts, record)
    requires DistinctRevisions(ArrivalsOf(acts, record)) && Highest(ArrivalsOf(acts, record), a)
    ensures Holds(states[|acts|].log, record, a)
  {
    hide Save, Possible, Do;
    assert acts[..|acts|] == acts;
    OnlyOwnArrivalsCount(states, acts, record, |acts|);
    ArrivalsConverge(Log([], map[]), record, ArrivalsOf(acts, record), a);
  }
}
