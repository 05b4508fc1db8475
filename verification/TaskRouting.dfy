/**
 Which event of a record is its current dispatch trigger.  `states` are the lifecycle states that
 dispatch, each with its target rule; `order` is the order in which they are declared.
 */
module TaskRouting {
  import opened Common
  import opened TaskEvents

  datatype Dispatch = ToTaskRole | ToCoordinator

  type States = map<string, Dispatch>

  predicate HasSuffix(s: string, suffix: string) {
    |s| >= |suffix| && s[|s| - |suffix|..] == suffix
  }

  function Stem(s: string, suffix: string): (r: string)
    requires HasSuffix(s, suffix)
    ensures s == r + suffix
  {
    s[..|s| - |suffix|]
  }

  function RoleOf(t: Option<Task>): Option<string> {
    if t.Some? then t.value.role else None
  }

  predicate RoleChanged(e: Event) {
    RoleOf(e.before) != RoleOf(e.after)
  }

  /** The one test of dispatch_event_state for one state. */
  predicate Dispatches(states: States, key: string, e: Event) {
    key in states &&
    (e.key.eventType == Entered(key) ||
      (e.key.eventType == Updated(key) && states[key] == ToTaskRole && RoleChanged(e)))
  }

  /** dispatch_event_state: the state an event dispatches for. */
  function DispatchState(states: States, e: Event): Option<string> {
    var t := e.key.eventType;
    if HasSuffix(t, "_entered") then
      var key := Stem(t, "_entered");
      if key in states then Some(key) else None
    else if HasSuffix(t, "_updated") then
      var key := Stem(t, "_updated");
      if key in states && states[key] == ToTaskRole && RoleChanged(e) then Some(key) else None
    else None
  }

  /** An event dispatches for at most one state, whatever the states are called. */
  lemma DispatchMeaning(states: States, e: Event, key: string)
    ensures DispatchState(states, e) == Some(key) <==> Dispatches(states, key, e)
  {
    var t := e.key.eventType;
    if HasSuffix(t, "_entered") {
      EnteredOnly(states, e);
    } else if HasSuffix(t, "_updated") {
      UpdatedOnly(states, e);
    } else {
      NeitherSuffix(states, e);
    }
  }

  lemma SameStem(a: string, b: string, suffix: string)
    requires a + suffix == b + suffix
    ensures a == b
  {
    assert (a + suffix)[..|a|] == a && (b + suffix)[..|b|] == b;
  }

  lemma SuffixesDiffer(a: string, b: string)
    ensures a + "_entered" != b + "_updated"
  {
    var s, t := a + "_entered", b + "_updated";
    assert s[|s| - 3] == 'r' && t[|t| - 3] == 't';
  }

  lemma EnteredOnly(states: States, e: Event)
    requires HasSuffix(e.key.eventType, "_entered")
    ensures forall key :: Dispatches(states, key, e) ==> key == Stem(e.key.eventType, "_entered")
  {
    forall key | Dispatches(states, key, e) ensures key == Stem(e.key.eventType, "_entered") {
      SuffixesDiffer(Stem(e.key.eventType, "_entered"), key);
      SameStem(key, Stem(e.key.eventType, "_entered"), "_entered");
    }
  }

  lemma UpdatedOnly(states: States, e: Event)
    requires HasSuffix(e.key.eventType, "_updated")
    ensures forall key :: Dispatches(states, key, e) ==>
      key == Stem(e.key.eventType, "_updated") && e.key.eventType != Entered(key)
  {
    forall key | Dispatches(states, key, e)
      ensures key == Stem(e.key.eventType, "_updated") && e.key.eventType != Entered(key)
    {
      SuffixesDiffer(key, Stem(e.key.eventType, "_updated"));
      SameStem(key, Stem(e.key.eventType, "_updated"), "_updated");
    }
  }

  lemma NeitherSuffix(states: States, e: Event)
    requires !HasSuffix(e.key.eventType, "_entered") && !HasSuffix(e.key.eventType, "_updated")
    ensures forall key :: !Dispatches(states, key, e)
  {
    forall key ensures !Dispatches(states, key, e) {
      assert HasSuffix(Entered(key), "_entered") && HasSuffix(Updated(key), "_updated");
    }
  }

  /** The loop of the code, in declaration order, finds the same state. */
  method DispatchEventState(order: seq<string>, states: States, e: Event) returns (r: Option<string>)
    requires forall key :: key in states <==> key in order
    ensures r == DispatchState(states, e)
  {
    r := None;
    for k := 0 to |order|
      invariant forall j :: 0 <= j < k ==> !Dispatches(states, order[j], e)
    {
      DispatchMeaning(states, e, order[k]);
      if e.key.eventType == Entered(order[k]) { return Some(order[k]); }
      if e.key.eventType != Updated(order[k]) || states[order[k]] != ToTaskRole { continue; }
      if RoleOf(e.before) != RoleOf(e.after) { return Some(order[k]); }
    }
    var found := DispatchState(states, e);
    if found.Some? { DispatchMeaning(states, e, found.value); }
  }

  // ---------------------------------------------------------------- targets

  /** task_dispatch_target for a task in state `status`. */
  function Target(states: States, coordinator: string, status: Option<string>, role: Option<string>): Option<string> {
    if !(status.Some? && status.value in states) then None
    else match states[status.value]
      case ToTaskRole => if Truthy(role) then role else None
      case ToCoordinator => Some(coordinator)
  }

  // ---------------------------------------------------------------- the current trigger

  /** The state a record dispatches in right now. */
  function LiveState(log: Log, states: States, record: string): Option<string> {
    if record in log.states && log.states[record].task.status.Some? && log.states[record].task.status.value in states
    then log.states[record].task.status else None
  }

  predicate IsTrigger(states: States, record: string, key: string, e: Event) {
    e.key.record == record && DispatchState(states, e) == Some(key)
  }

  /** The newest event that passes a test. */
  function NewestWhere(events: seq<Event>, test: Event -> bool): (r: Option<nat>)
    ensures r.Some? ==> r.value < |events| && test(events[r.value])
    ensures r.Some? ==> forall k :: r.value < k < |events| ==> !test(events[k])
    ensures r == None ==> forall k :: 0 <= k < |events| ==> !test(events[k])
    decreases |events|
  {
    if events == [] then None
    else if test(events[|events| - 1]) then Some(|events| - 1)
    else NewestWhere(events[..|events| - 1], test)
  }

  /** The newest event of the record that dispatches for `key`. */
  function NewestTrigger(events: seq<Event>, states: States, record: string, key: string): (r: Option<nat>)
    ensures r.Some? ==> r.value < |events| && IsTrigger(states, record, key, events[r.value])
    ensures r.Some? ==> forall k :: r.value < k < |events| ==> !IsTrigger(states, record, key, events[k])
    ensures r == None ==> forall k :: 0 <= k < |events| ==> !IsTrigger(states, record, key, events[k])
  {
    NewestWhere(events, (e: Event) => IsTrigger(states, record, key, e))
  }

  function CurrentDispatch(log: Log, states: States, record: string): Option<nat> {
    var key := LiveState(log, states, record);
    if key == None then None else NewestTrigger(log.events, states, record, key.value)
  }

  /** current_dispatch as written: the candidates by type, newest first, the first that dispatches for the state. */
  method FindCurrentDispatch(log: Log, order: seq<string>, states: States, record: string) returns (r: Option<nat>)
    requires forall key :: key in states <==> key in order
    ensures r == CurrentDispatch(log, states, record)
  {
    r := None;
    if record !in log.states { return; }
    var status := log.states[record].task.status;
    if status == None || status.value !in states { return; }
    r := ScanTriggers(log.events, order, states, record, status.value);
  }

  method ScanTriggers(events: seq<Event>, order: seq<string>, states: States, record: string, key: string)
    returns (r: Option<nat>)
    requires forall k :: k in states <==> k in order
    ensures r == NewestTrigger(events, states, record, key)
  {
    hide IsTrigger;
    r := None;
    var k := |events|;
    while k > 0
      invariant 0 <= k <= |events|
      invariant forall j :: k <= j < |events| ==> !IsTrigger(states, record, key, events[j])
    {
      k := k - 1;
      var hit := TestTrigger(order, states, record, key, events[k]);
      if hit { return Some(k); }
    }
  }

  /** The candidate filter and the dispatch test of one event. */
  method TestTrigger(order: seq<string>, states: States, record: string, key: string, e: Event) returns (hit: bool)
    requires forall k :: k in states <==> k in order
    ensures hit == IsTrigger(states, record, key, e)
  {
    hit := false;
    if e.key.record == record && (e.key.eventType == Entered(key) || e.key.eventType == Updated(key)) {
      var found := DispatchEventState(order, states, e);
      hit := found == Some(key);
    } else {
      DispatchMeaning(states, e, key);
    }
  }

  // ---------------------------------------------------------------- a trigger stays true

  /** From its trigger on, everything logged of the record agrees with the saved snapshot on what the target depends
      on. */
  ghost predicate AgreesFrom(log: Log, states: States, record: string, j: nat)
    requires record in log.states && log.states[record].task.status.Some?
    requires log.states[record].task.status.value in states
  {
    var task := log.states[record].task;
    forall k :: j <= k < |log.events| && log.events[k].key.record == record ==> Agrees(states, task, log.events[k])
  }

  predicate Agrees(states: States, task: Task, e: Event)
    requires task.status.Some? && task.status.value in states
  {
    e.after.Some? && e.after.value.status == task.status &&
    (states[task.status.value] == ToTaskRole ==> e.after.value.role == task.role)
  }

  /** Every record in a dispatching state has a trigger from which on its log agrees with its snapshot. */
  ghost predicate Triggered(log: Log, states: States) {
    forall record :: LiveState(log, states, record).Some? ==> exists j :: GoodTrigger(log, states, record, j)
  }

  ghost predicate GoodTrigger(log: Log, states: States, record: string, j: nat) {
    LiveState(log, states, record).Some? && j < |log.events| &&
    IsTrigger(states, record, LiveState(log, states, record).value, log.events[j]) && AgreesFrom(log, states, record, j)
  }

  /** A status names no empty state. */
  predicate NamedStates(states: States) {
    "" !in states
  }

  lemma OtherRecordKeeps(log: Log, log': Log, states: States, record: string, added: seq<Event>, other: string, j: nat)
    requires log'.events == log.events + added && (forall e :: e in added ==> e.key.record == record)
    requires other != record && LiveState(log', states, other) == LiveState(log, states, other)
    requires other in log.states && other in log'.states && log'.states[other].task == log.states[other].task
    requires GoodTrigger(log, states, other, j)
    ensures GoodTrigger(log', states, other, j)
  {
    assert forall k :: |log.events| <= k < |log'.events| ==> log'.events[k] in added;
  }

  // ---------------------------------------------------------------- what a change appends

  /** The type of the event by which a record in state `status` gets its trigger. */
  function TriggerType(before: Option<Task>, status: string): string {
    if before.Some? && before.value.status == Some(status) then Updated(status) else Entered(status)
  }

  predicate SameTarget(states: States, before: Task, task: Task)
    requires task.status.Some? && task.status.value in states
  {
    before.status == task.status && (states[task.status.value] == ToTaskRole ==> before.role == task.role)
  }

  /** The saved snapshot dispatches and its target is not the one the record has already. */
  predicate NeedsTrigger(log: Log, states: States, record: string, task: Option<Task>) {
    task.Some? && task.value.status.Some? && task.value.status.value in states &&
    (Before(log, record).Some? ==> !SameTarget(states, Before(log, record).value, task.value))
  }

  /** What a caller can check before saving: a snapshot that needs a trigger gets it, its key being new. */
  predicate TriggerKept(log: Log, states: States, record: string, task: Option<Task>, revision: Option<Revision>) {
    Changes(log, record, task, revision) && NeedsTrigger(log, states, record, task) ==>
      var before := Before(log, record);
      !HasKey(log.events,
        EventKey(KeyRevision(revision, before, task), record, TriggerType(before, task.value.status.value)))
  }

  lemma TriggerTypeIsLast(before: Option<Task>, task: Task)
    requires task.status.Some? && task.status.value != ""
    ensures var types := EventTypes(before, Some(task));
      types != [] && types[|types| - 1] == TriggerType(before, task.status.value)
  {
  }

  lemma TypesApart(left: string, key: string)
    ensures Left(left) != Entered(key) && Left(left) != Updated(key)
    ensures "task_created" != Entered(key) && "task_created" != Updated(key)
  {
    var created, l, e, u := "task_created", Left(left), Entered(key), Updated(key);
    assert l[|l| - 1] == 't' && e[|e| - 1] == 'd' && u[|u| - 1] == 'd';
    assert created[|created| - 4] == 'a' && e[|e| - 4] == 'e';
    assert created[|created| - 5] == 'e' && u[|u| - 5] == 'd';
  }

  /** No other event of the change can be taken for the trigger. */
  lemma OnlyTriggerTypeDispatches(states: States, before: Option<Task>, task: Task, e: Event)
    requires task.status.Some? && task.status.value != "" && before != Some(task)
    requires e.key.eventType in EventTypes(before, Some(task)) && Dispatches(states, task.status.value, e)
    ensures e.key.eventType == TriggerType(before, task.status.value)
  {
    TypesApart(if before.Some? && before.value.status.Some? then before.value.status.value else "", task.status.value);
  }

  /** The trigger of a change that needs one dispatches. */
  lemma TriggerDispatches(states: States, before: Option<Task>, task: Task, e: Event)
    requires task.status.Some? && task.status.value in states
    requires before.Some? ==> !SameTarget(states, before.value, task)
    requires e.before == before && e.after == Some(task) && e.key.eventType == TriggerType(before, task.status.value)
    ensures DispatchState(states, e) == task.status
  {
    assert Dispatches(states, task.status.value, e);
    DispatchMeaning(states, e, task.status.value);
  }

  lemma AddedMeaning(log: Log, record: string, task: Option<Task>, revision: Option<Revision>, now: nat, e: Event)
    requires e in Added(log, record, task, revision, now)
    ensures var before := Before(log, record);
      e.key == EventKey(KeyRevision(revision, before, task), record, e.key.eventType) &&
      e.key.eventType in EventTypes(before, task) && e.before == before && e.after == task && !HasKey(log.events, e.key)
  {
    var before := Before(log, record);
    KeptMeaning(log.events, KeyRevision(revision, before, task), record, EventTypes(before, task), e.key.eventType);
  }

  // ---------------------------------------------------------------- a save keeps triggers true

  /** The record's own trigger: either the last event appended, or the one it had. */
  lemma OwnTrigger(log: Log, states: States, record: string, task: Task, revision: Option<Revision>, now: nat)
    requires NamedStates(states) && Triggered(log, states) && Changes(log, record, Some(task), revision)
    requires TriggerKept(log, states, record, Some(task), revision)
    requires task.status.Some? && task.status.value in states
    ensures exists j :: GoodTrigger(Save(log, record, Some(task), revision, now), states, record, j)
  {
    var log' := Save(log, record, Some(task), revision, now);
    var before := Before(log, record);
    SaveAppendsKept(log, record, Some(task), revision, now);
    if NeedsTrigger(log, states, record, Some(task)) {
      NewTrigger(log, states, record, task, revision, now);
      assert GoodTrigger(log', states, record, |log'.events| - 1);
    } else {
      assert LiveState(log, states, record).Some?;
      var j :| GoodTrigger(log, states, record, j);
      SameTrigger(log, log', states, record, before.value, task, Added(log, record, Some(task), revision, now), j);
    }
  }

  lemma NewTrigger(log: Log, states: States, record: string, task: Task, revision: Option<Revision>, now: nat)
    requires NamedStates(states) && Changes(log, record, Some(task), revision)
    requires TriggerKept(log, states, record, Some(task), revision) && NeedsTrigger(log, states, record, Some(task))
    ensures var log' := Save(log, record, Some(task), revision, now);
      log'.events != [] && GoodTrigger(log', states, record, |log'.events| - 1)
  {
    var before := Before(log, record);
    var added := Added(log, record, Some(task), revision, now);
    TriggerTypeIsLast(before, task);
    KeptLast(log.events, KeyRevision(revision, before, Some(task)), record, EventTypes(before, Some(task)));
    SaveAppendsKept(log, record, Some(task), revision, now);
    assert added != [];
    TriggerDispatches(states, before, task, added[|added| - 1]);
    assert Save(log, record, Some(task), revision, now).events[|log.events| + |added| - 1] == added[|added| - 1];
  }

  lemma SameTrigger(log: Log, log': Log, states: States, record: string, before: Task, task: Task, added: seq<Event>,
                    j: nat)
    requires GoodTrigger(log, states, record, j) && log'.events == log.events + added
    requires forall e :: e in added ==> e.after == Some(task)
    requires log.states[record].task == before && record in log'.states && log'.states[record].task == task
    requires task.status.Some? && task.status.value in states && SameTarget(states, before, task)
    ensures GoodTrigger(log', states, record, j)
  {
    forall k | j <= k < |log'.events| && log'.events[k].key.record == record
      ensures Agrees(states, task, log'.events[k])
    {
      if k < |log.events| {
        assert Agrees(states, before, log.events[k]);
      } else {
        assert log'.events[k] in added;
      }
    }
  }

  lemma UnchangedTrigger(log: Log, states: States, record: string, task: Option<Task>, revision: Option<Revision>,
                         now: nat, other: string)
    requires Triggered(log, states) && !Changes(log, record, task, revision)
    requires LiveState(Save(log, record, task, revision, now), states, other).Some?
    ensures exists j: nat :: GoodTrigger(Save(log, record, task, revision, now), states, other, j)
  {
    var log' := Save(log, record, task, revision, now);
    assert LiveState(log, states, other) == LiveState(log', states, other);
    var j :| GoodTrigger(log, states, other, j);
    assert GoodTrigger(log', states, other, j);
  }

  lemma OtherTrigger(log: Log, states: States, record: string, task: Option<Task>, revision: Option<Revision>, now: nat,
                     other: string)
    requires Triggered(log, states) && Changes(log, record, task, revision) && other != record
    requires LiveState(Save(log, record, task, revision, now), states, other).Some?
    ensures exists j: nat :: GoodTrigger(Save(log, record, task, revision, now), states, other, j)
  {
    var log' := Save(log, record, task, revision, now);
    SaveAppendsKept(log, record, task, revision, now);
    assert LiveState(log, states, other) == LiveState(log', states, other);
    var j :| GoodTrigger(log, states, other, j);
    OtherRecordKeeps(log, log', states, record, Added(log, record, task, revision, now), other, j);
  }

  lemma LiveIsSaved(log: Log, states: States, record: string, task: Option<Task>, revision: Option<Revision>, now: nat)
    requires Changes(log, record, task, revision)
    requires LiveState(Save(log, record, task, revision, now), states, record).Some?
    ensures task.Some? && task.value.status.Some? && task.value.status.value in states
  {
  }

  /** A snapshot whose trigger is kept keeps every record's trigger true. */
  lemma SaveKeepsTriggers(log: Log, states: States, record: string, task: Option<Task>, revision: Option<Revision>,
                          now: nat)
    requires NamedStates(states) && Triggered(log, states) && TriggerKept(log, states, record, task, revision)
    ensures Triggered(Save(log, record, task, revision, now), states)
  {
    hide Save, LiveState, Changes, TriggerKept, GoodTrigger, NamedStates;
    var log' := Save(log, record, task, revision, now);
    forall other | LiveState(log', states, other).Some? ensures exists j: nat :: GoodTrigger(log', states, other, j) {
      if !Changes(log, record, task, revision) {
        UnchangedTrigger(log, states, record, task, revision, now, other);
      } else if other == record {
        LiveIsSaved(log, states, record, task, revision, now);
        OwnTrigger(log, states, record, task.value, revision, now);
      } else {
        OtherTrigger(log, states, record, task, revision, now, other);
      }
    }
  }

  // ---------------------------------------------------------------- and only then

  function LastOf(events: seq<Event>, record: string): (r: Option<nat>)
    ensures r.Some? ==> r.value < |events| && events[r.value].key.record == record
    ensures r.Some? ==> forall k :: r.value < k < |events| ==> events[k].key.record != record
    ensures r == None ==> forall k :: 0 <= k < |events| ==> events[k].key.record != record
  {
    NewestWhere(events, (e: Event) => e.key.record == record)
  }

  lemma LastBeside(events: seq<Event>, added: seq<Event>, record: string)
    requires forall e :: e in added ==> e.key.record != record
    ensures LastOf(events + added, record) == LastOf(events, record)
  {
    hide LastOf;
    var all := events + added;
    assert forall k :: |events| <= k < |all| ==> all[k] in added;
    var last, last' := LastOf(events, record), LastOf(all, record);
    if last.Some? { assert all[last.value] == events[last.value]; }
    if last'.Some? { assert all[last'.value] == events[last'.value]; }
  }

  /** The newest event of the record shows the snapshot that is saved, or its deletion. */
  predicate LastIsSaved(log: Log, record: string) {
    var last := LastOf(log.events, record);
    if last == None then record !in log.states else log.events[last.value].after == Before(log, record)
  }

  /** When an older event is still a true trigger, the record's last event agrees with the change: it needed none. */
  lemma OldTriggerSuffices(log: Log, states: States, record: string, task: Task, revision: Option<Revision>, now: nat,
                           j: nat)
    requires LastIsSaved(log, record) && Changes(log, record, Some(task), revision) && j < |log.events|
    requires GoodTrigger(Save(log, record, Some(task), revision, now), states, record, j)
    ensures !NeedsTrigger(log, states, record, Some(task))
  {
    var log' := Save(log, record, Some(task), revision, now);
    SaveAppendsKept(log, record, Some(task), revision, now);
    assert log'.events[j] == log.events[j];
    var last := LastOf(log.events, record).value;
    assert j <= last && Agrees(states, task, log'.events[last]);
  }

  lemma AddedTriggerIsKept(log: Log, states: States, record: string, task: Task, revision: Option<Revision>, now: nat,
                           j: nat)
    requires NamedStates(states) && Changes(log, record, Some(task), revision)
    requires NeedsTrigger(log, states, record, Some(task)) && |log.events| <= j
    requires GoodTrigger(Save(log, record, Some(task), revision, now), states, record, j)
    ensures TriggerKept(log, states, record, Some(task), revision)
  {
    SaveAppendsKept(log, record, Some(task), revision, now);
    var e := Save(log, record, Some(task), revision, now).events[j];
    assert e in Added(log, record, Some(task), revision, now);
    AddedMeaning(log, record, Some(task), revision, now, e);
    DispatchMeaning(states, e, task.status.value);
    OnlyTriggerTypeDispatches(states, Before(log, record), task, e);
  }

  /** The exact condition: after a change that leaves a record in a dispatching state, the record has a true trigger
      if and only if the change did not need one or the key of its trigger was new. */
  lemma TriggerSurvivesIffKept(log: Log, states: States, record: string, task: Task, revision: Option<Revision>,
                               now: nat)
    requires NamedStates(states) && Triggered(log, states) && LastIsSaved(log, record)
    requires Changes(log, record, Some(task), revision) && task.status.Some? && task.status.value in states
    ensures (exists j: nat :: GoodTrigger(Save(log, record, Some(task), revision, now), states, record, j))
      <==> TriggerKept(log, states, record, Some(task), revision)
  {
    var log' := Save(log, record, Some(task), revision, now);
    if TriggerKept(log, states, record, Some(task), revision) { OwnTrigger(log, states, record, task, revision, now); }
    if j: nat :| GoodTrigger(log', states, record, j) && NeedsTrigger(log, states, record, Some(task)) {
      if j < |log.events| {
        OldTriggerSuffices(log, states, record, task, revision, now, j);
      } else {
        AddedTriggerIsKept(log, states, record, task, revision, now, j);
      }
    }
  }

  // ---------------------------------------------------------------- logs

  datatype Snapshot = Snapshot(record: string, task: Option<Task>, revision: Option<Revision>, at: nat)

  function SaveNext(log: Log, s: Snapshot): Log {
    Save(log, s.record, s.task, s.revision, s.at)
  }

  function SaveAll(snapshots: seq<Snapshot>): Log {
    if snapshots == [] then Log([], map[])
    else SaveNext(SaveAll(snapshots[..|snapshots| - 1]), snapshots[|snapshots| - 1])
  }

  /** Every snapshot that needed a trigger got it. */
  ghost predicate TriggersKept(snapshots: seq<Snapshot>, states: States) {
    forall n :: 0 <= n < |snapshots| ==>
      TriggerKept(SaveAll(snapshots[..n]), states, snapshots[n].record, snapshots[n].task, snapshots[n].revision)
  }

  /** No event was dropped by its key. */
  ghost predicate CollisionFree(snapshots: seq<Snapshot>) {
    forall n :: 0 <= n < |snapshots| ==>
      NoCollision(SaveAll(snapshots[..n]), snapshots[n].record, snapshots[n].task, snapshots[n].revision)
  }

  lemma CollisionFreeKeepsTriggers(snapshots: seq<Snapshot>, states: States)
    requires NamedStates(states) && CollisionFree(snapshots)
    ensures TriggersKept(snapshots, states)
  {
    forall n | 0 <= n < |snapshots|
      ensures TriggerKept(SaveAll(snapshots[..n]), states, snapshots[n].record, snapshots[n].task,
        snapshots[n].revision)
    {
      var log, s := SaveAll(snapshots[..n]), snapshots[n];
      if NeedsTrigger(log, states, s.record, s.task) { TriggerTypeIsLast(Before(log, s.record), s.task.value); }
    }
  }

  lemma SaveKeepsLast(log: Log, record: string, task: Option<Task>, revision: Option<Revision>, now: nat, other: string)
    requires NoCollision(log, record, task, revision) && LastIsSaved(log, other)
    ensures LastIsSaved(Save(log, record, task, revision, now), other)
  {
    var log' := Save(log, record, task, revision, now);
    if Changes(log, record, task, revision) {
      var before := Before(log, record);
      var added := Fresh(KeyRevision(revision, before, task), record, EventTypes(before, task), before, task, now);
      SaveAppends(log, record, task, revision, now);
      if added == [] {
        assert log'.events == log.events;
      } else if other == record {
        assert log'.events[|log'.events| - 1] == added[|added| - 1];
      } else {
        LastBeside(log.events, added, other);
      }
    }
  }

  /** As long as nothing collided, the newest event of every record shows its snapshot: so the exact condition applies
      to the first snapshot that collides. */
  lemma {:induction false} LogsShowLast(snapshots: seq<Snapshot>, record: string)
    requires CollisionFree(snapshots)
    ensures LastIsSaved(SaveAll(snapshots), record)
  {
    if snapshots != [] {
      var n := |snapshots| - 1;
      var front, s := snapshots[..n], snapshots[n];
      forall k | 0 <= k < n
        ensures NoCollision(SaveAll(front[..k]), front[k].record, front[k].task, front[k].revision)
      {
        assert front[..k] == snapshots[..k];
      }
      LogsShowLast(front, record);
      SaveKeepsLast(SaveAll(front), s.record, s.task, s.revision, s.at, record);
    }
  }

  /** The first collision of a log costs its record the trigger if and only if the snapshot needed one and the dropped
      event was the trigger; a dropped departure or update is harmless. */
  lemma FirstCollisionMatters(snapshots: seq<Snapshot>, s: Snapshot, states: States)
    requires NamedStates(states) && CollisionFree(snapshots) && s.task.Some?
    requires Changes(SaveAll(snapshots), s.record, s.task, s.revision)
    requires s.task.value.status.Some? && s.task.value.status.value in states
    ensures (exists j: nat :: GoodTrigger(SaveAll(snapshots + [s]), states, s.record, j))
      <==> TriggerKept(SaveAll(snapshots), states, s.record, s.task, s.revision)
  {
    hide Save, Changes, TriggerKept, GoodTrigger, Triggered, CollisionFree;
    assert (snapshots + [s])[..|snapshots|] == snapshots;
    assert SaveAll(snapshots + [s]) == SaveNext(SaveAll(snapshots), s);
    CollisionFreeKeepsTriggers(snapshots, states);
    LogsAreTriggered(snapshots, states);
    LogsShowLast(snapshots, s.record);
    TriggerSurvivesIffKept(SaveAll(snapshots), states, s.record, s.task.value, s.revision, s.at);
  }

  lemma {:induction false} LogsAreTriggered(snapshots: seq<Snapshot>, states: States)
    requires NamedStates(states) && TriggersKept(snapshots, states)
    ensures Triggered(SaveAll(snapshots), states)
  {
    if snapshots != [] {
      var n := |snapshots| - 1;
      var front, s := snapshots[..n], snapshots[n];
      forall k | 0 <= k < n
        ensures TriggerKept(SaveAll(front[..k]), states, front[k].record, front[k].task, front[k].revision)
      {
        assert front[..k] == snapshots[..k];
      }
      LogsAreTriggered(front, states);
      SaveKeepsTriggers(SaveAll(front), states, s.record, s.task, s.revision, s.at);
    }
  }

  /** For every log in which each snapshot that needed a trigger got it: a record in a dispatching state has a current
      trigger, every later event of the record keeps its status and, where the role is the target, its role, and the
      target the trigger named is the target of the live snapshot. */
  lemma CurrentTriggerIsTrue(snapshots: seq<Snapshot>, states: States, coordinator: string, record: string)
    requires NamedStates(states) && TriggersKept(snapshots, states)
    requires LiveState(SaveAll(snapshots), states, record).Some?
    ensures var log := SaveAll(snapshots);
      var current := CurrentDispatch(log, states, record);
      current.Some? && AgreesFrom(log, states, record, current.value) &&
      var e := log.events[current.value];
      var task := log.states[record].task;
      e.after.Some? && e.after.value.status == task.status &&
      Target(states, coordinator, e.after.value.status, e.after.value.role) == Target(states, coordinator, task.status,
        task.role)
  {
    var log := SaveAll(snapshots);
    LogsAreTriggered(snapshots, states);
    var j :| GoodTrigger(log, states, record, j);
    var current := CurrentDispatch(log, states, record);
    assert current.Some? && j <= current.value;
  }

  // ---------------------------------------------------------------- going back without a revision

  function Bare(record: string, task: Task, at: nat): Snapshot {
    Snapshot(record, Some(task), None, at)
  }

  /** A record goes from one snapshot to another and back, none of them with a revision. */
  function BackAndForth(record: string, here: Task, there: Task): seq<Snapshot> {
    [Bare(record, here, 0), Bare(record, there, 1), Bare(record, here, 2)]
  }

  function Once(record: string, here: Task): Log {
    Save(Log([], map[]), record, Some(here), None, 0)
  }

  function Twice(record: string, here: Task, there: Task): Log {
    Save(Once(record, here), record, Some(there), None, 1)
  }

  lemma BackAndForthLog(record: string, here: Task, there: Task)
    ensures SaveAll(BackAndForth(record, here, there)) == Save(Twice(record, here, there), record, Some(here), None, 2)
  {
    var all := BackAndForth(record, here, there);
    assert all[..2][..1] == all[..1] && all[..1][..0] == [];
    assert SaveAll(all[..1]) == SaveNext(SaveAll([]), all[0]);
    assert SaveAll(all[..2]) == SaveNext(SaveAll(all[..1]), all[1]);
  }

  /** The first two snapshots lose nothing. */
  lemma TwiceIsFaithful(states: States, record: string, here: Task, there: Task)
    requires NamedStates(states) && here != there && there.status.Some? && there.status.value in states
    ensures Triggered(Twice(record, here, there), states) && LastIsSaved(Twice(record, here, there), record)
  {
    var none, one, two := Log([], map[]), Once(record, here), Twice(record, here, there);
    SaveAppendsKept(none, record, Some(here), None, 0);
    SaveKeepsTriggers(none, states, record, Some(here), None, 0);
    OnceHolds(record, here);
    SaveKeepsTriggers(one, states, record, Some(there), None, 1);
    SaveAppendsKept(one, record, Some(there), None, 1);
    TriggerTypeIsLast(Some(here), there);
    KeptLast(one.events, BySnapshot(Some(there)), record, EventTypes(Some(here), Some(there)));
    var added := Added(one, record, Some(there), None, 1);
    assert two.events[|two.events| - 1] == added[|added| - 1];
  }

  /** Every event of the first snapshot is keyed by it. */
  lemma OnceHolds(record: string, here: Task)
    ensures var one := Once(record, here);
      (forall e :: e in one.events ==> e.key.revision == BySnapshot(Some(here))) &&
      (here.status.Some? && here.status.value != "" ==>
        HasKey(one.events, EventKey(BySnapshot(Some(here)), record, Entered(here.status.value))))
  {
    var none := Log([], map[]);
    SaveAppendsKept(none, record, Some(here), None, 0);
    if here.status.Some? && here.status.value != "" {
      TriggerTypeIsLast(None, here);
      KeptLast([], BySnapshot(Some(here)), record, EventTypes(None, Some(here)));
      var events := Once(record, here).events;
      assert events[|events| - 1].key == EventKey(BySnapshot(Some(here)), record, Entered(here.status.value));
    }
  }

  /** For any two snapshots in different dispatching states: on the way back the entry of the first state is dropped,
      and the trigger that is found lies before events that left the state. */
  lemma CollisionHidesTrigger(states: States, record: string, here: Task, there: Task)
    requires NamedStates(states) && here.status.Some? && there.status.Some? && here.status != there.status
    requires here.status.value in states && there.status.value in states
    ensures var log := SaveAll(BackAndForth(record, here, there));
      LiveState(log, states, record) == here.status && CurrentDispatch(log, states, record).Some? &&
      !AgreesFrom(log, states, record, CurrentDispatch(log, states, record).value)
  {
    var two := Twice(record, here, there);
    var log := SaveAll(BackAndForth(record, here, there));
    BackAndForthLog(record, here, there);
    TwiceIsFaithful(states, record, here, there);
    FirstEntryStays(states, record, here, there);
    TriggerSurvivesIffKept(two, states, record, here, None, 2);
    var current := CurrentDispatch(log, states, record);
    assert !GoodTrigger(log, states, record, current.value);
  }

  lemma FirstEntryStays(states: States, record: string, here: Task, there: Task)
    requires NamedStates(states) && here.status.Some? && here.status != there.status && here.status.value in states
    ensures var two := Twice(record, here, there);
      var log := Save(two, record, Some(here), None, 2);
      !TriggerKept(two, states, record, Some(here), None) && CurrentDispatch(log, states, record).Some?
  {
    var one, two := Once(record, here), Twice(record, here, there);
    var log := Save(two, record, Some(here), None, 2);
    var key := EventKey(BySnapshot(Some(here)), record, Entered(here.status.value));
    OnceHolds(record, here);
    SaveAppendsKept(one, record, Some(there), None, 1);
    SaveAppendsKept(two, record, Some(here), None, 2);
    var k :| 0 <= k < |one.events| && one.events[k].key == key;
    assert two.events[k].key == key && log.events[k].key == key;
    assert Dispatches(states, here.status.value, log.events[k]);
    DispatchMeaning(states, log.events[k], here.status.value);
  }
}
