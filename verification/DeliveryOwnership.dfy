/**
 What lifts the accepted-turn cap: only a read that found the delivery's turn to own the active execution, or a
 completion with failed MCP calls.  So a delivery to which neither happens stays under the cap.
 */
module DeliveryOwnership {
  import opened Common
  import opened DeliveryRows
  import opened DeliveryClaims
  import opened DeliverySystem
  import opened DeliveryInvariant
  import opened DeliverySafety
  import DeliveryActions
  import DeliveryBatch
  import DeliveryLedger

  // ---------------------------------------------------------------- what a step was told

  predicate ToldActive(move: ReconcileMove) {
    move.EndClaimed? || (move.SeeCompleted? && move.active) || (move.SeeEnded? && move.active)
  }

  /** The turn of delivery `i` that the step was told to own the active execution, if it was told so. */
  function ClaimedTurn(s: System, step: Step, i: nat): Option<nat> {
    match step
    case Work(session, Return(_, _, _, active, _)) =>
      if active && session in s.workers && s.workers[session].item.id == i && s.workers[session].phase.Started?
      then Some(s.workers[session].phase.turn) else None
    case Reconcile(move) =>
      if ToldActive(move) && s.reconciler.Visiting? && s.reconciler.id == i
         && (s.reconciler.visit.Judge? || s.reconciler.visit.Reread?)
      then s.reconciler.visit.seen.turn else None
    case _ => None
  }

  /** The step was told that the completed turn of delivery `i` left failed MCP calls behind. */
  predicate ToldTools(s: System, step: Step, i: nat) {
    step.Reconcile? && step.step.SeeCompleted? && step.step.tools && s.reconciler.Visiting? && s.reconciler.id == i
  }

  predicate Caused(s: System, step: Step, i: nat) {
    ClaimedTurn(s, step, i).Some? || ToldTools(s, step, i)
  }

  // ---------------------------------------------------------------- causes

  predicate EndsClaimed(s: System, session: nat, i: nat) {
    session in s.workers && s.workers[session].item.id == i &&
    s.workers[session].phase.Closing? && s.workers[session].phase.outcome.ToClaimed?
  }

  /** The cap is lifted for delivery `i`, or its worker is about to lift it. */
  ghost predicate Uncapped(s: System, i: nat) {
    i in s.exempt || exists session :: EndsClaimed(s, session, i)
  }

  ghost predicate CausedOrBefore(s: System, s': System, step: Step, i: nat) {
    Uncapped(s', i) ==> Uncapped(s, i) || Caused(s, step, i)
  }

  lemma WorkCause(s: System, session: nat, move: WorkerMove, i: nat)
    requires WorkerEnabled(s, session, move)
    ensures CausedOrBefore(s, ApplyWorker(s, session, move), Work(session, move), i)
  {
    hide MarkStarted, MarkQueue, Finish, Defer, Wait, CancelStale, CancelOrDefer, ClearQueueing, CancelHits;
    var s' := ApplyWorker(s, session, move);
    if Uncapped(s', i) && i !in s'.exempt {
      var other :| EndsClaimed(s', other, i);
      if other != session {
        assert EndsClaimed(s, other, i);
      } else if !move.Return? {
        assert EndsClaimed(s, session, i);
      }
    } else if i in s'.exempt && i !in s.exempt {
      assert EndsClaimed(s, session, i);
    }
  }

  lemma ReconcileCause(s: System, move: ReconcileMove, i: nat)
    requires ReconcileEnabled(s, move)
    ensures CausedOrBefore(s, ApplyReconcile(s, move), Reconcile(move), i)
  {
    hide MarkStarted, MarkQueue, Finish, Defer, CancelOrDefer, FailClaimed, CancelHits, TurnOver;
    var s' := ApplyReconcile(s, move);
    assert s'.workers == s.workers;
    if Uncapped(s', i) && i !in s'.exempt {
      var session :| EndsClaimed(s', session, i);
      assert EndsClaimed(s, session, i);
    }
  }

  lemma WorldCause(s: System, event: WorldStep, i: nat)
    requires WorldEnabled(s, event)
    ensures CausedOrBefore(s, ApplyWorld(s, event), World(event), i)
  {
    var s' := ApplyWorld(s, event);
    if Uncapped(s', i) && i !in s'.exempt {
      var session :| EndsClaimed(s', session, i);
      assert EndsClaimed(s, session, i);
    }
  }

  lemma ScheduleCause(s: System, step: Step, i: nat)
    requires step.Schedule? && Enabled(s, step)
    ensures CausedOrBefore(s, Apply(s, step), step, i)
  {
    hide ClaimLoop, AddItems;
    var s' := Apply(s, step);
    var batch := ClaimBatch(s.db, step.exclude + s.workers.Keys, step.ids, step.limit, step.board, step.now,
      step.uuids);
    DeliveryBatch.AddItemsFrame(s.(db := batch.db), batch.items);
    if Uncapped(s', i) && i !in s'.exempt {
      var session :| EndsClaimed(s', session, i);
      assert EndsClaimed(s, session, i);
    }
  }

  lemma StepCause(s: System, step: Step, i: nat)
    requires Enabled(s, step)
    ensures CausedOrBefore(s, Apply(s, step), step, i)
  {
    hide CausedOrBefore;
    match step {
      case World(event) => WorldCause(s, event, i);
      case Schedule(_, _, _, _, _, _) => ScheduleCause(s, step, i);
      case Work(session, move) => WorkCause(s, session, move, i);
      case Reconcile(move) => ReconcileCause(s, move, i);
    }
  }

  lemma {:induction false} UncappedHasCause(states: seq<System>, steps: seq<Step>, k: nat, i: nat)
    requires Run(states, steps) && k < |states| && Uncapped(states[k], i)
    ensures exists j :: 0 <= j < k && Caused(states[j], steps[j], i)
  {
    hide Enabled, Apply, Caused;
    if k > 0 {
      if Uncapped(states[k - 1], i) {
        UncappedHasCause(states, steps, k - 1, i);
      } else {
        StepCause(states[k - 1], steps[k - 1], i);
      }
    }
  }

  /** Whenever the cap does not govern a delivery, some earlier step was told that a turn of it owns the active
      execution, or that its turn completed with failed MCP calls. */
  lemma ExemptHasCause(states: seq<System>, steps: seq<Step>, k: nat, i: nat)
    requires Run(states, steps) && k < |states| && i in states[k].exempt
    ensures exists j :: 0 <= j < k && Caused(states[j], steps[j], i)
  {
    UncappedHasCause(states, steps, k, i);
  }

  // ---------------------------------------------------------------- true answers

  /** A turn a step is told about is one its delivery recorded. */
  lemma ClaimedTurnIsRecorded(s: System, step: Step, i: nat)
    requires Inv(s) && Enabled(s, step) && ClaimedTurn(s, step, i).Some?
    ensures i in s.db.rows && ClaimedTurn(s, step, i).value in s.db.rows[i].turns
  {
    if step.Work? {
      assert WorkerOk(s, step.session);
    } else {
      assert VisitOk(s, i, s.reconciler.visit);
    }
    assert RowOk(s, i);
  }

  lemma {:induction false} TurnStays(states: seq<System>, steps: seq<Step>, j: nat, k: nat, i: nat, t: nat)
    requires Run(states, steps) && j <= k < |states| && i in states[j].db.rows && t in states[j].db.rows[i].turns
    ensures i in states[k].db.rows && t in states[k].db.rows[i].turns
  {
    hide Enabled, Apply;
    if j < k {
      TurnStays(states, steps, j, k - 1, i, t);
      if steps[k - 1].World? && steps[k - 1].event.ToolWrites? {
        ToolsKeepRows(states[k - 1], steps[k - 1]);
      } else {
        DeliveryActions.StepIsOrderly(states, steps, k - 1);
        assert DeliveryActions.Same(states[k - 1].db.rows[i], states[k].db.rows[i]);
        assert t in states[k - 1].db.rows[i].turns.Keys;
      }
    }
  }

  lemma ToolsKeepRows(s: System, step: Step)
    requires step.World? && step.event.ToolWrites?
    ensures Enabled(s, step) && Apply(s, step).db.rows == s.db.rows
  {
  }

  /** The answer was read from the tables, at that step or before. */
  ghost predicate WasActive(states: seq<System>, j: nat, i: nat, t: nat)
    requires j < |states|
  {
    exists l: nat, tasks: map<nat, TaskView> :: l <= j && ActiveExecution(states[l].db, tasks, i, Some(t))
  }

  ghost predicate AnswersAreTrue(states: seq<System>, steps: seq<Step>, k: nat, i: nat)
    requires k <= |steps| <= |states|
  {
    forall j :: 0 <= j < k && ClaimedTurn(states[j], steps[j], i).Some? ==>
      WasActive(states, j, i, ClaimedTurn(states[j], steps[j], i).value)
  }

  /** At no time did a turn the delivery recorded own the active execution of its record. */
  ghost predicate NeverOwns(states: seq<System>, k: nat, i: nat)
    requires k < |states| && i in states[k].db.rows
  {
    forall l: nat, t :: l <= k && i in states[l].db.rows && t in states[k].db.rows[i].turns ==>
      !OwnsExecution(states[l].db, states[l].db.rows[i], t)
  }

  ghost predicate NeverFailsTools(states: seq<System>, steps: seq<Step>, k: nat, i: nat)
    requires k <= |steps| <= |states|
  {
    forall j :: 0 <= j < k ==> !ToldTools(states[j], steps[j], i)
  }

  /** A true answer that lifted the cap means that a recorded turn did own the active execution. */
  lemma CauseIsOwnership(states: seq<System>, steps: seq<Step>, j: nat, k: nat, i: nat)
    requires GrantedRun(states, steps) && j < k < |states| && AnswersAreTrue(states, steps, k, i)
    requires ClaimedTurn(states[j], steps[j], i).Some?
    ensures i in states[k].db.rows && !NeverOwns(states, k, i)
  {
    hide Enabled, Apply, ClaimedTurn;
    var t := ClaimedTurn(states[j], steps[j], i).value;
    RunKeepsInv(states, steps, j);
    ClaimedTurnIsRecorded(states[j], steps[j], i);
    TurnStays(states, steps, j, k, i, t);
    assert WasActive(states, j, i, t);
    var l: nat, tasks: map<nat, TaskView> :| l <= j && ActiveExecution(states[l].db, tasks, i, Some(t));
    assert OwnsExecution(states[l].db, states[l].db.rows[i], t);
  }

  /** A delivery none of whose turns ever owns its record's active execution, and that never completes with failed
      MCP calls, records at most three turns, and fewer wherever it may be submitted again. */
  lemma UnclaimedTurnsAreCapped(states: seq<System>, steps: seq<Step>, k: nat, i: nat)
    requires GrantedRun(states, steps) && k < |states| && i in states[k].db.rows
    requires AnswersAreTrue(states, steps, k, i) && NeverOwns(states, k, i) && NeverFailsTools(states, steps, k, i)
    ensures |states[k].db.rows[i].turns| <= MAX_ACCEPTED_TURNS
    ensures DeliveryLedger.Reclaimable(states[k].db.rows[i].status) ==>
      |states[k].db.rows[i].turns| < MAX_ACCEPTED_TURNS
  {
    hide Enabled, Apply, ClaimedTurn, ToldTools, AnswersAreTrue, NeverOwns;
    if i in states[k].exempt {
      ExemptHasCause(states, steps, k, i);
      var j :| 0 <= j < k && Caused(states[j], steps[j], i);
      CauseIsOwnership(states, steps, j, k, i);
    }
    DeliveryLedger.AcceptedTurnsAreCapped(states, steps, k, i);
  }
}
