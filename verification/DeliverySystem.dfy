/**
 The delivery protocol as a state machine: the database, the Codex peer and the daemon's
 threads, one step per transaction or per message.  Everything the threads read from the
 board, the executions or the Codex rollout is an argument of the step, so a run covers
 every answer those reads could give; `Enabled` states what the peer guarantees.
 */
module DeliverySystem {
  import opened Common
  import opened DeliveryRows
  import opened DeliveryClaims

  /** Codex's view of one client message id: submitted, held, or turned into exactly one turn. */
  datatype Mail = InFlight | Accepted | Turned(turn: nat, live: bool)

  /** How an execution ends, decided before its last write. */
  datatype Outcome =
    | ToDefer
    | ToWait(waiting: Status)
    | ToFinish(result: Option<TurnStatus>, ok: bool, retry: bool)
    | ToClaimed(ended: TurnStatus)

  datatype Phase =
    | Prepared | Ready | Called | Started(turn: nat)
    | Closing(outcome: Outcome, clear: bool)
    | Leaving

  datatype Worker = Worker(item: Item, phase: Phase)

  /** Where reconcile is with one delivery; `seen` is its copy of the row, stale by now. */
  datatype Visit = Look(seen: Row) | Probe(seen: Row) | Judge(seen: Row) | Unsure | Reread(seen: Row)

  datatype Listing = Listed(id: nat, seen: Row)

  datatype Reconciler = Idle | Between(queue: seq<Listing>) | Visiting(id: nat, visit: Visit, queue: seq<Listing>)

  /** `owner` records for which delivery each message id was issued, `begun` the turns that ever
      existed, and `exempt` the deliveries retried after claimed work or unresolved MCP failures. */
  datatype System = System(
    db: Db, mail: map<nat, Mail>, begun: set<nat>, owner: map<nat, nat>,
    workers: map<nat, Worker>, reconciler: Reconciler, exempt: set<nat>)

  datatype Failure = PermissionMissing | NoOwner | OtherError(terminal: bool)

  datatype WorkerMove =
    | CancelStaleWork
    | LoseContinuation(now: nat)
    | FailEarly(error: Failure)
    | EnterQueueing(now: nat)
    | Submit
    | Reject(error: Failure)
    | LoseContact
    | NoteQueued(now: nat)
    | NoteStarted(now: nat)
    | Return(status: TurnStatus, ok: bool, completed: bool, active: bool, current: bool)
    | Break
    | Clear
    | Close(now: nat)
    | Leave

  datatype ReconcileMove =
    | Begin(ids: seq<nat>, now: nat)
    | Skip
    | Open
    | Doubt
    | Materialize(rebind: bool, now: nat)
    | PassOn
    | FinishAcknowledged(ended: TurnStatus, now: nat)
    | Postpone(now: nat)
    | Unreachable(active: bool, now: nat)
    | Find(rebind: bool, now: nat)
    | StopStale(stopped: Option<TurnStatus>, now: nat)
    | SeeCompleted(ended: TurnStatus, active: bool, tools: bool, now: nat)
    | SeeEnded(ended: TurnStatus, active: bool, current: bool, stillCurrent: bool, now: nat)
    | ReadAgain
    | KeepQueued(now: nat)
    | EndClaimed(now: nat)
    | CancelVisit(withdraw: bool, allowStop: bool, now: nat)
    | ResetUnconfirmed(now: nat)
    | Abort

  datatype WorldStep =
    // the planner, the command line, the tool threads
    | Insert(id: nat, event: nat, agent: nat, revision: nat, session: nat, record: nat)
    | Replace(agent: nat, revision: nat)
    | Remove(agent: nat)
    | Poke(record: nat)
    | ToolWrites(executions: map<nat, Execution>)
    | Ack(id: nat, turn: nat)
    // the Codex peer
    | Accept(message: nat)
    | Start(message: nat, turn: nat)
    | End(message: nat)
    // the daemon
    | Crash
    | Restart(now: nat)
    | RetryFailed(ids: seq<nat>, current: set<nat>, tasks: map<nat, TaskView>, now: nat)
    | PermissionGranted
    | OwnerFound(session: nat)

  datatype Step =
    | World(event: WorldStep)
    | Schedule(exclude: set<nat>, ids: seq<nat>, limit: nat, board: Board, now: nat, uuids: map<nat, nat>)
    | Work(session: nat, move: WorkerMove)
    | Reconcile(step: ReconcileMove)

  // ---------------------------------------------------------------- evidence

  /** The turn a message id materialized into, as turn_id_for_client_message and find_turn report it. */
  predicate HasTurn(mail: map<nat, Mail>, m: nat) {
    m in mail && mail[m].Turned?
  }

  predicate LiveMail(mail: map<nat, Mail>, m: nat) {
    HasTurn(mail, m) && mail[m].live
  }

  /** turn_completed: the rollout holds this turn's completion, so the turn is over. */
  ghost predicate TurnOver(mail: map<nat, Mail>, turn: nat) {
    forall m :: HasTurn(mail, m) && mail[m].turn == turn ==> !mail[m].live
  }

  /** Statuses that only a terminal turn reports; an interrupted snapshot alone is not evidence. */
  predicate TerminalStatus(ts: TurnStatus) {
    ts == TurnCompleted || ts == TurnSuccess || ts == TurnFailed
  }

  predicate EndedStatus(ts: TurnStatus) {
    TerminalStatus(ts) || Interrupted(ts)
  }

  /** What Codex itself reports of a turn; the other statuses are TeamFlow's own markers. */
  predicate CodexStatus(ts: TurnStatus) {
    ts == InProgress || EndedStatus(ts)
  }

  predicate LeaseExpired(r: Row, now: nat) {
    r.startedAt == None || now >= r.startedAt.value + UNCONFIRMED_LEASE
  }

  // ---------------------------------------------------------------- worker

  function FailureOutcome(error: Failure): Outcome {
    match error
    case PermissionMissing => ToWait(WaitingPermission)
    case NoOwner => ToWait(WaitingSession)
    case OtherError(terminal) => ToFinish(None, false, !terminal)
  }

  /** What execute makes of a returned turn. */
  function Decide(status: TurnStatus, ok: bool, completed: bool, active: bool, current: bool, count: nat): Outcome {
    var reconciling := Interrupted(status) && !completed;
    if reconciling then ToDefer
    else if active && EndedStatus(status) then ToClaimed(status)
    else if !ok then ToFinish(Some(status), false, Interrupted(status) && count < MAX_ACCEPTED_TURNS && current)
    else ToFinish(Some(status), true, false)
  }

  function StartOutcome(s: System, w: Worker, now: nat): Txn
    requires HasTurn(s.mail, w.item.message)
  {
    MarkStarted(s.db, w.item.id, s.mail[w.item.message].turn, w.item.continuation, w.item.continuation.Some?, now)
  }

  ghost predicate WorkerEnabled(s: System, session: nat, move: WorkerMove) {
    session in s.workers &&
    var w := s.workers[session];
    var i := w.item.id;
    var m := w.item.message;
    i in s.db.rows &&
    match move
    case CancelStaleWork => w.phase.Prepared? && w.item.continuation == None
    case LoseContinuation(_) => w.phase.Prepared? && w.item.continuation.Some?
    case FailEarly(_) => w.phase.Prepared?
    case EnterQueueing(now) =>
      w.phase.Prepared? && MarkQueue(s.db, i, Queueing, w.item.continuation, now).Committed?
    case Submit => w.phase.Ready?
    // a failure other than an unknown acceptance means that nothing was accepted
    case Reject(_) => w.phase.Called? && m in s.mail && s.mail[m].InFlight?
    case LoseContact => w.phase.Called?
    case NoteQueued(now) =>
      w.phase.Called? && m in s.mail && !s.mail[m].InFlight? &&
      MarkQueue(s.db, i, Queued, w.item.continuation, now).Committed?
    case NoteStarted(_) => w.phase.Called? && HasTurn(s.mail, m)
    case Return(status, _, completed, _, _) =>
      w.phase.Started? && CodexStatus(status) &&
        (TerminalStatus(status) || completed ==> TurnOver(s.mail, w.phase.turn))
    case Break => w.phase.Started?
    case Clear => w.phase.Closing? && w.phase.clear
    case Close(_) => w.phase.Closing? && !w.phase.clear
    case Leave => w.phase.Leaving?
  }

  function ApplyWorker(s: System, session: nat, move: WorkerMove): System
    requires WorkerEnabled(s, session, move)
  {
    var w := s.workers[session];
    var i := w.item.id;
    var m := w.item.message;
    match move
    case CancelStaleWork => Advance(s.(db := CancelStale(s.db, i)), session, Leaving)
    case LoseContinuation(now) =>
      Advance(s.(db := CancelOrDefer(s.db, i, w.item.seen, Missing, false, now)), session,
        if CancelHits(s.db, i, w.item.seen, false) then Leaving else Closing(ToDefer, false))
    case FailEarly(error) => Advance(s, session, Closing(FailureOutcome(error), true))
    case EnterQueueing(now) =>
      Advance(s.(db := MarkQueue(s.db, i, Queueing, w.item.continuation, now).db), session, Ready)
    case Submit => Advance(s.(mail := s.mail[m := InFlight]), session, Called)
    case Reject(error) => Advance(s.(mail := s.mail - {m}), session, Closing(FailureOutcome(error), true))
    case LoseContact => Advance(s, session, Closing(ToDefer, false))
    case NoteQueued(now) => s.(db := MarkQueue(s.db, i, Queued, w.item.continuation, now).db)
    case NoteStarted(now) =>
      var t := StartOutcome(s, w, now);
      if t.Committed? then Advance(s.(db := t.db), session, Started(s.mail[m].turn))
      // an exception raised inside on_started is classified as a failure before the start
      else Advance(s, session, Closing(ToFinish(None, false, true), true))
    case Return(status, ok, completed, active, current) =>
      Advance(s, session, Closing(Decide(status, ok, completed, active, current, |s.db.rows[i].turns|), false))
    case Break => Advance(s, session, Closing(ToDefer, false))
    case Clear =>
      Advance(s.(db := ClearQueueing(s.db, i, w.item.continuation)), session, Closing(w.phase.outcome, false))
    case Close(now) => Advance(ApplyOutcome(s, w.item, w.phase.outcome, now), session, Leaving)
    case Leave => s.(workers := s.workers - {session})
  }

  function Advance(s: System, session: nat, phase: Phase): System
    requires session in s.workers
  {
    s.(workers := s.workers[session := s.workers[session].(phase := phase)])
  }

  function ApplyOutcome(s: System, item: Item, outcome: Outcome, now: nat): System {
    match outcome
    case ToDefer => s.(db := Defer(s.db, item.id, now))
    case ToWait(waiting) => s.(db := Wait(s.db, item.id, waiting, item.continuation.Some?))
    case ToFinish(result, ok, retry) => s.(db := Finish(s.db, item.id, result, ok, retry, false, now))
    case ToClaimed(ended) => RetryExempt(s, item.id, ended, now)
  }

  /** The two retries the accepted-turn cap does not govern. */
  function RetryExempt(s: System, id: nat, ended: TurnStatus, now: nat): System {
    s.(db := Finish(s.db, id, Some(ended), false, true, false, now), exempt := s.exempt + {id})
  }

  // ---------------------------------------------------------------- reconcile

  predicate IsDue(r: Row, now: nat) {
    r.status == Processing && (r.turn.Some? || r.message.Some?) && Due(r, now)
  }

  predicate ListedDue(db: Db, ids: seq<nat>, now: nat) {
    (forall k :: 0 <= k < |ids| ==> ids[k] in db.rows && IsDue(db.rows[ids[k]], now)) &&
    (forall j, k :: 0 <= j < k < |ids| ==> ids[j] != ids[k])
  }

  ghost predicate ReconcileEnabled(s: System, move: ReconcileMove) {
    var c := s.reconciler;
    match move
    case Begin(ids, now) => c.Idle? && ListedDue(s.db, ids, now)
    case Skip => c.Between? && (c.queue == [] || c.queue[0].seen.session in s.workers)
    case Open => c.Between? && c.queue != [] && c.queue[0].seen.session !in s.workers
    case Doubt => c.Visiting? && ((c.visit.Look? && QueuePending(c.visit.seen)) || c.visit.Probe? || c.visit.Judge?)
    case Materialize(rebind, _) =>
      c.Visiting? && c.visit.Look? && QueuePending(c.visit.seen) && CanFollow(s.mail, c.visit.seen, rebind)
    case PassOn => c.Visiting? && c.visit.Look? && !(QueuePending(c.visit.seen) && c.visit.seen.message.Some?)
    case FinishAcknowledged(ended, _) =>
      c.Visiting? && (c.visit.Probe? || c.visit.Judge? || c.visit.Reread?) && c.visit.seen.turn.Some? &&
      (ended == TurnCompleted || ended == TurnSuccess)
    case Postpone(_) => c.Visiting? && (c.visit.Probe? || c.visit.Judge? || c.visit.Reread?)
    case Unreachable(_, _) => c.Visiting? && c.visit.Probe?
    case Find(rebind, _) => c.Visiting? && c.visit.Probe? && CanFollow(s.mail, c.visit.seen, rebind)
    case StopStale(_, _) => c.Visiting? && c.visit.Judge?
    case SeeCompleted(ended, _, _, _) =>
      c.Visiting? && c.visit.Judge? && c.visit.seen.turn.Some? && (ended == TurnCompleted || ended == TurnSuccess) &&
      TurnOver(s.mail, c.visit.seen.turn.value)
    case SeeEnded(ended, _, _, _, _) =>
      // an interrupted turn gets here only with its rollout completion
      c.Visiting? && c.visit.Judge? && c.visit.seen.turn.Some? && (ended == TurnFailed || Interrupted(ended)) &&
      TurnOver(s.mail, c.visit.seen.turn.value)
    case ReadAgain => c.Visiting? && c.visit.Unsure?
    case KeepQueued(_) => c.Visiting? && c.visit.Reread? && QueuePending(c.visit.seen)
    case EndClaimed(_) =>
      c.Visiting? && c.visit.Reread? && !QueuePending(c.visit.seen) && c.visit.seen.turn.Some? &&
      TurnOver(s.mail, c.visit.seen.turn.value)
    case CancelVisit(withdraw, allowStop, _) =>
      c.Visiting? && c.visit.Reread? &&
      (QueuePending(c.visit.seen) ==> !allowStop) && (withdraw ==> QueuePending(c.visit.seen))
    case ResetUnconfirmed(now) =>
      c.Visiting? && c.visit.Reread? && !QueuePending(c.visit.seen) && c.visit.seen.turn == None &&
      LeaseExpired(c.visit.seen, now)
    case Abort => !c.Idle?
  }

  /** The delivery's message has a turn to bind to; only a recorded previous turn can be rebound. */
  predicate CanFollow(mail: map<nat, Mail>, seen: Row, rebind: bool) {
    seen.message.Some? && HasTurn(mail, seen.message.value) && (rebind ==> seen.turn.Some?)
  }

  function Follow(s: System, id: nat, seen: Row, rebind: bool, now: nat): Txn
    requires CanFollow(s.mail, seen, rebind)
  {
    MarkStarted(s.db, id, s.mail[seen.message.value].turn, if rebind then seen.turn else None, rebind, now)
  }

  function ApplyReconcile(s: System, move: ReconcileMove): System
    requires ReconcileEnabled(s, move)
  {
    var c := s.reconciler;
    match move
    case Begin(ids, _) => s.(reconciler := Between(seq(|ids|,
      k requires 0 <= k < |ids| => Listed(ids[k], s.db.rows[ids[k]]))))
    case Skip => s.(reconciler := if c.queue == [] then Idle else Between(c.queue[1..]))
    case Open => s.(reconciler := Visiting(c.queue[0].id, Look(c.queue[0].seen), c.queue[1..]))
    case Doubt => Turn(s, Unsure)
    case Materialize(rebind, now) =>
      var t := Follow(s, c.id, c.visit.seen, rebind, now);
      if t.RolledBack? then Turn(s, Unsure)
      else Turn(s.(db := t.db),
        Probe(c.visit.seen.(turn := Some(s.mail[c.visit.seen.message.value].turn), turnStatus := Some(InProgress))))
    case PassOn => Turn(s, Probe(c.visit.seen))
    case FinishAcknowledged(ended, now) => Next(s.(db := Finish(s.db, c.id, Some(ended), true, false, false, now)))
    case Postpone(now) => Next(s.(db := Defer(s.db, c.id, now)))
    case Unreachable(active, now) =>
      Next(s.(db :=
        if active && c.visit.seen.turn.Some? then FailClaimed(s.db, c.id, c.visit.seen.turn.value, Unavailable, now)
        else Finish(s.db, c.id, None, false, false, false, now)))
    case Find(rebind, now) =>
      var turn := Some(s.mail[c.visit.seen.message.value].turn);
      if c.visit.seen.turn == turn then Turn(s, Judge(c.visit.seen)) else
      var t := Follow(s, c.id, c.visit.seen, rebind, now);
      if t.RolledBack? then Turn(s, Unsure) else Turn(s.(db := t.db), Judge(c.visit.seen.(turn := turn)))
    case StopStale(stopped, now) =>
      Next(s.(db :=
        if stopped == None then Defer(s.db, c.id, now)
        else CancelOrDefer(s.db, c.id, c.visit.seen, stopped.value, true, now)))
    case SeeCompleted(ended, active, tools, now) =>
      if active || tools then Next(RetryExempt(s, c.id, ended, now))
      else Next(s.(db := Finish(s.db, c.id, Some(ended), true, false, false, now)))
    case SeeEnded(ended, active, current, stillCurrent, now) =>
      if active then Next(RetryExempt(s, c.id, ended, now))
      else if !current then Next(s.(db := CancelOrDefer(s.db, c.id, c.visit.seen, ended, true, now)))
      else Next(s.(db := Finish(s.db, c.id, Some(ended), false,
        Interrupted(ended) && c.id in s.db.rows && |s.db.rows[c.id].turns| < MAX_ACCEPTED_TURNS &&
          stillCurrent, false, now)))
    case ReadAgain =>
      if c.id in s.db.rows && s.db.rows[c.id].status == Processing then Turn(s, Reread(s.db.rows[c.id])) else Next(s)
    case KeepQueued(now) =>
      var t := MarkQueue(s.db, c.id, Queued, c.visit.seen.turn, now);
      if t.RolledBack? then s.(reconciler := Idle) else Next(s.(db := Defer(t.db, c.id, now)))
    case EndClaimed(now) => Next(RetryExempt(s, c.id, TurnCompleted, now))
    case CancelVisit(withdraw, allowStop, now) =>
      var hit := CancelHits(s.db, c.id, c.visit.seen, allowStop);
      var s' := s.(db := CancelOrDefer(s.db, c.id, c.visit.seen, Missing, allowStop, now));
      var m := c.visit.seen.message;
      Next(if hit && withdraw && m.Some? && m.value in s.mail && s.mail[m.value].Accepted?
           then s'.(mail := s.mail - {m.value}) else s')
    case ResetUnconfirmed(now) => Next(s.(db := Finish(s.db, c.id, Some(Unconfirmed), false, true, true, now)))
    case Abort => s.(reconciler := Idle)
  }

  function Turn(s: System, visit: Visit): System
    requires s.reconciler.Visiting?
  {
    s.(reconciler := s.reconciler.(visit := visit))
  }

  function Next(s: System): System
    requires s.reconciler.Visiting?
  {
    s.(reconciler := Between(s.reconciler.queue))
  }

  // ---------------------------------------------------------------- schedule

  function AddItems(s: System, items: seq<Item>): System
    decreases |items|
  {
    if items == [] then s else
    var it := items[0];
    AddItems(s.(owner := s.owner[it.message := it.id], workers := s.workers[it.seen.session := Worker(it, Prepared)]),
      items[1..])
  }

  function ApplySchedule(s: System, exclude: set<nat>, ids: seq<nat>, limit: nat, board: Board, now: nat,
                         uuids: map<nat, nat>): System
    requires forall k :: 0 <= k < |ids| ==> ids[k] in s.db.rows && ids[k] in uuids
  {
    var batch := ClaimBatch(s.db, exclude + s.workers.Keys, ids, limit, board, now, uuids);
    AddItems(s.(db := batch.db), batch.items)
  }

  // ---------------------------------------------------------------- steps

  predicate NotProcessing(rows: map<nat, Row>, agent: nat) {
    forall id :: id in rows && rows[id].agent == agent ==> rows[id].status != Processing
  }

  predicate WorldEnabled(s: System, event: WorldStep) {
    match event
    case Insert(id, event, agent, revision, _, _) => id !in s.db.rows && !HasDelivery(s.db.rows, event, agent, revision)
    case Replace(agent, _) => NotProcessing(s.db.rows, agent)
    case Remove(agent) => NotProcessing(s.db.rows, agent)
    case Poke(_) => true
    case ToolWrites(_) => true
    case Ack(_, _) => true
    case Accept(m) => m in s.mail && s.mail[m].InFlight?
    // a message id belongs to at most one turn, and a turn to at most one message id
    case Start(m, t) => m in s.mail && !s.mail[m].Turned? && t !in s.begun
    case End(m) => HasTurn(s.mail, m)
    case Crash => true
    case Restart(_) => true
    case RetryFailed(_, _, _, _) => s.reconciler.Idle?
    case PermissionGranted => s.reconciler.Idle?
    case OwnerFound(_) => true
  }

  function ApplyWorld(s: System, event: WorldStep): System
    requires WorldEnabled(s, event)
  {
    match event
    case Insert(id, event, agent, revision, session, record) =>
      s.(db := Put(s.db, id, NewRow(event, agent, revision, session, record)))
    case Replace(agent, revision) => s.(db := ReplaceSession(s.db, agent, revision))
    case Remove(agent) => s.(db := RemoveAgent(s.db, agent))
    case Poke(record) => s.(db := PokeQueued(s.db, record))
    case ToolWrites(executions) => s.(db := s.db.(executions := executions))
    case Ack(id, turn) => s.(db := Acknowledge(s.db, id, turn))
    case Accept(m) => s.(mail := s.mail[m := Accepted])
    case Start(m, t) => s.(mail := s.mail[m := Turned(t, true)], begun := s.begun + {t})
    case End(m) => s.(mail := s.mail[m := s.mail[m].(live := false)])
    case Crash => s.(workers := map[], reconciler := Idle)
    case Restart(now) => s.(db := Recover(s.db, now))
    case RetryFailed(ids, current, tasks, now) => s.(db := RecoverFailed(s.db, ids, current, tasks, now))
    case PermissionGranted => s.(db := DeliveryRows.ResumePermission(s.db))
    case OwnerFound(session) => s.(db := DeliveryRows.ResumeSession(s.db, session))
  }

  predicate ScheduleEnabled(s: System, ids: seq<nat>, limit: nat, now: nat, uuids: map<nat, nat>) {
    s.reconciler.Idle? && Selectable(s.db.rows, ids, limit, now) &&
    (forall k :: 0 <= k < |ids| ==> ids[k] in uuids && uuids[ids[k]] !in s.owner) &&
    (forall j, k :: 0 <= j < k < |ids| ==> uuids[ids[j]] != uuids[ids[k]])
  }

  ghost predicate Enabled(s: System, step: Step) {
    match step
    case World(event) => WorldEnabled(s, event)
    case Schedule(_, ids, limit, _, now, uuids) => ScheduleEnabled(s, ids, limit, now, uuids)
    case Work(session, move) => WorkerEnabled(s, session, move)
    case Reconcile(move) => ReconcileEnabled(s, move)
  }

  function Apply(s: System, step: Step): System
    requires Enabled(s, step)
  {
    match step
    case World(event) => ApplyWorld(s, event)
    case Schedule(exclude, ids, limit, board, now, uuids) => ApplySchedule(s, exclude, ids, limit, board, now, uuids)
    case Work(session, move) => ApplyWorker(s, session, move)
    case Reconcile(move) => ApplyReconcile(s, move)
  }

  ghost predicate Init(s: System) {
    s.db.rows == map[] && s.mail == map[] && s.begun == {} && s.owner == map[] &&
    s.workers == map[] && s.reconciler == Idle && s.exempt == {}
  }

  /** Recording a started turn does not raise: a continuation's previous turn still owns the active execution. */
  predicate RebindGranted(s: System, session: nat) {
    session in s.workers &&
    var it := s.workers[session].item;
    it.continuation.Some? ==> it.id in s.db.rows && OwnsExecution(s.db, s.db.rows[it.id], it.continuation.value)
  }

  /** The two hypotheses of the safety theorems: claims are made while the (event, agent) key of their UPDATE is
      unique among claimable rows, and recording a started turn does not raise. */
  ghost predicate Granted(s: System, step: Step) {
    (step.Schedule? ==> NoTwins(s.db.rows)) &&
    (step.Work? && step.move.NoteStarted? ==> RebindGranted(s, step.session))
  }

  ghost predicate Run(states: seq<System>, steps: seq<Step>) {
    |states| == |steps| + 1 && Init(states[0]) &&
    forall k :: 0 <= k < |steps| ==>
      Enabled(states[k], steps[k]) && states[k + 1] == Apply(states[k], steps[k])
  }

  ghost predicate GrantedRun(states: seq<System>, steps: seq<Step>) {
    Run(states, steps) && forall k :: 0 <= k < |steps| ==> Granted(states[k], steps[k])
  }
}
