/**
 One concrete run of a single delivery.  Its first steps show that the run theorems are not empty; the whole run
 shows what a rebind raced by a handover leads to: two running turns of one delivery.
 */
module DeliveryWitness {
  import opened Common
  import opened DeliveryRows
  import opened DeliveryClaims
  import opened DeliverySystem
  import DeliveryBatch

  const BOARD := Board({0}, {0}, map[])
  const ACTIVE := map[0 := Execution(0, 0, Some(9), true, 0)]
  const LIVE := map[7 := Turned(9, true)]
  const OVER := map[7 := Turned(9, false)]
  const BOTH := map[7 := Turned(9, false), 8 := Turned(11, true)]
  const FAILED := Closing(ToFinish(None, false, true), true)

  // the row through its three executions, under messages 7, 8 and 12
  const ROW := NewRow(0, 0, 0, 0, 0)
  const CLAIMED := ClaimedRow(ROW, 7, false, 0)
  const QUEUEING := CLAIMED.(turnStatus := Some(Queueing), nextAttempt := Some(RECHECK_DELAY))
  const RECORDED := QUEUEING.(turn := Some(9), turnStatus := Some(InProgress), turns := map[9 := false])
  const RETRIED := RECORDED.(status := Retry, turnStatus := Some(TurnCompleted), nextAttempt := Some(RetryDelay(1)))
  const CONTINUED := ClaimedRow(RETRIED, 8, true, 10)
  const QUEUEING_AGAIN := CONTINUED.(turnStatus := Some(Queueing), nextAttempt := Some(10 + RECHECK_DELAY))
  const CLEARED := CONTINUED.(nextAttempt := Some(10 + RECHECK_DELAY))
  const RACED := CONTINUED.(status := Retry, nextAttempt := Some(10 + RetryDelay(2)))
  const REPEATED := ClaimedRow(RACED, 12, false, 100)
  const QUEUEING_LAST := REPEATED.(turnStatus := Some(Queueing), nextAttempt := Some(100 + RECHECK_DELAY))

  function Fresh(db: Db): System {
    System(db, map[], {}, map[], map[], Idle, {})
  }

  function First(r: Row, executions: map<nat, Execution>, mail: map<nat, Mail>, begun: set<nat>, phase: Phase): System {
    System(Db(map[0 := r], executions), mail, begun, map[7 := 0], map[0 := Worker(Item(0, ROW, 7, None), phase)], Idle,
      {})
  }

  function Second(r: Row, executions: map<nat, Execution>, mail: map<nat, Mail>, begun: set<nat>,
                  phase: Phase): System {
    System(Db(map[0 := r], executions), mail, begun, map[7 := 0, 8 := 0],
      map[0 := Worker(Item(0, RETRIED, 8, Some(9)), phase)], Idle, {0})
  }

  function Third(r: Row, mail: map<nat, Mail>, begun: set<nat>, phase: Phase): System {
    System(Db(map[0 := r], map[]), mail, begun, map[7 := 0, 8 := 0, 12 := 0],
      map[0 := Worker(Item(0, RACED, 12, None), phase)], Idle, {0})
  }

  // the run, state by state
  const S0 := Fresh(Db(map[], map[]))
  const S1 := Fresh(Db(map[0 := ROW], map[]))
  const S2 := First(CLAIMED, map[], map[], {}, Prepared)
  const S3 := First(QUEUEING, map[], map[], {}, Ready)
  const S4 := First(QUEUEING, map[], map[7 := InFlight], {}, Called)
  const S5 := First(QUEUEING, map[], LIVE, {9}, Called)
  const S6 := First(RECORDED, map[], LIVE, {9}, Started(9))
  const S7 := First(RECORDED, ACTIVE, LIVE, {9}, Started(9))
  const S8 := First(RECORDED, ACTIVE, OVER, {9}, Started(9))
  const S9 := First(RECORDED, ACTIVE, OVER, {9}, Closing(ToClaimed(TurnCompleted), false))
  const S10 := First(RETRIED, ACTIVE, OVER, {9}, Leaving).(exempt := {0})
  const S11 := First(RETRIED, ACTIVE, OVER, {9}, Leaving).(exempt := {0}, workers := map[])
  const S12 := Second(CONTINUED, ACTIVE, OVER, {9}, Prepared)
  const S13 := Second(QUEUEING_AGAIN, ACTIVE, OVER, {9}, Ready)
  const S14 := Second(QUEUEING_AGAIN, ACTIVE, map[7 := Turned(9, false), 8 := InFlight], {9}, Called)
  const S15 := Second(QUEUEING_AGAIN, ACTIVE, BOTH, {9, 11}, Called)
  const S16 := Second(QUEUEING_AGAIN, map[], BOTH, {9, 11}, Called)
  const S17 := Second(QUEUEING_AGAIN, map[], BOTH, {9, 11}, FAILED)
  const S18 := Second(CLEARED, map[], BOTH, {9, 11}, FAILED.(clear := false))
  const S19 := Second(RACED, map[], BOTH, {9, 11}, Leaving)
  const S20 := Second(RACED, map[], BOTH, {9, 11}, Leaving).(workers := map[])
  const S21 := Third(REPEATED, BOTH, {9, 11}, Prepared)
  const S22 := Third(QUEUEING_LAST, BOTH, {9, 11}, Ready)
  const S23 := Third(QUEUEING_LAST, BOTH[12 := InFlight], {9, 11}, Called)
  const S24 := Third(QUEUEING_LAST, BOTH[12 := Turned(13, true)], {9, 11, 13}, Called)

  function At(n: nat): System {
    match n
    case 0 => S0
    case 1 => S1
    case 2 => S2
    case 3 => S3
    case 4 => S4
    case 5 => S5
    case 6 => S6
    case 7 => S7
    case 8 => S8
    case 9 => S9
    case 10 => S10
    case 11 => S11
    case 12 => S12
    case 13 => S13
    case 14 => S14
    case 15 => S15
    case 16 => S16
    case 17 => S17
    case 18 => S18
    case 19 => S19
    case 20 => S20
    case 21 => S21
    case 22 => S22
    case 23 => S23
    case _ => S24
  }

  function Move(n: nat): Step {
    match n
    case 0 => World(Insert(0, 0, 0, 0, 0, 0))
    case 1 => Schedule({}, [0], 1, BOARD, 0, map[0 := 7])
    case 2 => Work(0, EnterQueueing(0))
    case 3 => Work(0, Submit)
    case 4 => World(Start(7, 9))
    case 5 => Work(0, NoteStarted(0))
    // the agent claims the card, and its turn ends before a handover
    case 6 => World(ToolWrites(ACTIVE))
    case 7 => World(End(7))
    case 8 => Work(0, Return(TurnCompleted, true, true, true, true))
    case 9 => Work(0, Close(0))
    case 10 => Work(0, Leave)
    case 11 => Schedule({}, [0], 1, BOARD, 10, map[0 := 8])
    case 12 => Work(0, EnterQueueing(10))
    case 13 => Work(0, Submit)
    case 14 => World(Start(8, 11))
    // the card is handed over before the start of the continuation is recorded
    case 15 => World(ToolWrites(map[]))
    case 16 => Work(0, NoteStarted(10))
    case 17 => Work(0, Clear)
    case 18 => Work(0, Close(10))
    case 19 => Work(0, Leave)
    case 20 => Schedule({}, [0], 1, BOARD, 100, map[0 := 12])
    case 21 => Work(0, EnterQueueing(100))
    case 22 => Work(0, Submit)
    case _ => World(Start(12, 13))
  }

  function States(n: nat): seq<System> {
    seq(n + 1, k requires 0 <= k => At(k))
  }

  function Steps(n: nat): seq<Step> {
    seq(n, k requires 0 <= k => Move(k))
  }

  ghost predicate Leads(s: System, step: Step, s': System) {
    Enabled(s, step) && Apply(s, step) == s'
  }

  // ---------------------------------------------------------------- the steps

  lemma FirstClaim()
    ensures Leads(S1, Schedule({}, [0], 1, BOARD, 0, map[0 := 7]), S2) && NoTwins(S1.db.rows)
  {
    hide ClaimBatch, AddItems, WorkerEnabled, ApplyWorker, WorldEnabled, ApplyWorld, ReconcileEnabled, ApplyReconcile;
    DeliveryBatch.ClaimsOne(S1.db, {}, 0, BOARD, 0, 7);
    DeliveryBatch.AddsOne(S1.(db := S2.db), Item(0, ROW, 7, None));
    assert {} + S1.workers.Keys == {} && S1.db.rows[0 := CLAIMED] == map[0 := CLAIMED];
  }

  lemma SecondClaim()
    ensures Leads(S11, Schedule({}, [0], 1, BOARD, 10, map[0 := 8]), S12) && NoTwins(S11.db.rows)
  {
    hide ClaimBatch, AddItems, WorkerEnabled, ApplyWorker, WorldEnabled, ApplyWorld, ReconcileEnabled, ApplyReconcile;
    DeliveryBatch.ClaimsOne(S11.db, {}, 0, BOARD, 10, 8);
    DeliveryBatch.AddsOne(S11.(db := S12.db), Item(0, RETRIED, 8, Some(9)));
    assert {} + S11.workers.Keys == {} && S11.db.rows[0 := CONTINUED] == map[0 := CONTINUED];
  }

  lemma ThirdClaim()
    ensures Leads(S20, Schedule({}, [0], 1, BOARD, 100, map[0 := 12]), S21) && NoTwins(S20.db.rows)
  {
    hide ClaimBatch, AddItems, WorkerEnabled, ApplyWorker, WorldEnabled, ApplyWorld, ReconcileEnabled, ApplyReconcile;
    DeliveryBatch.ClaimsOne(S20.db, {}, 0, BOARD, 100, 12);
    DeliveryBatch.AddsOne(S20.(db := S21.db), Item(0, RACED, 12, None));
    assert {} + S20.workers.Keys == {} && S20.db.rows[0 := REPEATED] == map[0 := REPEATED];
  }

  lemma TableSteps()
    ensures Leads(S0, World(Insert(0, 0, 0, 0, 0, 0)), S1)
    ensures Leads(S6, World(ToolWrites(ACTIVE)), S7)
    ensures Leads(S15, World(ToolWrites(map[])), S16)
  {
    hide ReconcileEnabled, ApplyReconcile, ScheduleEnabled, ApplySchedule, RetryDelay, WorkerEnabled, ApplyWorker;
  }

  lemma FirstTurn()
    ensures Leads(S4, World(Start(7, 9)), S5)
    ensures Leads(S7, World(End(7)), S8)
  {
    hide ReconcileEnabled, ApplyReconcile, ScheduleEnabled, ApplySchedule, RetryDelay, WorkerEnabled, ApplyWorker;
  }

  lemma LaterTurns()
    ensures Leads(S14, World(Start(8, 11)), S15)
    ensures Leads(S23, World(Start(12, 13)), S24)
  {
    hide ReconcileEnabled, ApplyReconcile, ScheduleEnabled, ApplySchedule, RetryDelay, WorkerEnabled, ApplyWorker;
  }

  lemma FirstSubmission()
    ensures Leads(S2, Work(0, EnterQueueing(0)), S3)
    ensures Leads(S3, Work(0, Submit), S4)
  {
    hide ReconcileEnabled, ApplyReconcile, ScheduleEnabled, ApplySchedule, RetryDelay, WorldEnabled, ApplyWorld;
  }

  lemma FirstStart()
    ensures Leads(S5, Work(0, NoteStarted(0)), S6)
  {
    hide ReconcileEnabled, ApplyReconcile, ScheduleEnabled, ApplySchedule, RetryDelay, WorldEnabled, ApplyWorld;
  }

  lemma FirstEnd()
    ensures Leads(S8, Work(0, Return(TurnCompleted, true, true, true, true)), S9)
    ensures Leads(S9, Work(0, Close(0)), S10)
  {
    hide ReconcileEnabled, ApplyReconcile, ScheduleEnabled, ApplySchedule, RetryDelay, WorldEnabled, ApplyWorld;
  }

  lemma FirstLeave()
    ensures Leads(S10, Work(0, Leave), S11)
  {
    hide ReconcileEnabled, ApplyReconcile, ScheduleEnabled, ApplySchedule, RetryDelay, WorldEnabled, ApplyWorld;
  }

  lemma SecondSubmission()
    ensures Leads(S12, Work(0, EnterQueueing(10)), S13)
    ensures Leads(S13, Work(0, Submit), S14)
  {
    hide ReconcileEnabled, ApplyReconcile, ScheduleEnabled, ApplySchedule, RetryDelay, WorldEnabled, ApplyWorld;
  }

  lemma RacedStart()
    ensures Leads(S16, Work(0, NoteStarted(10)), S17)
    ensures Leads(S17, Work(0, Clear), S18)
  {
    hide ReconcileEnabled, ApplyReconcile, ScheduleEnabled, ApplySchedule, RetryDelay, WorldEnabled, ApplyWorld;
  }

  lemma SecondEnd()
    ensures Leads(S18, Work(0, Close(10)), S19)
    ensures Leads(S19, Work(0, Leave), S20)
  {
    hide ReconcileEnabled, ApplyReconcile, ScheduleEnabled, ApplySchedule, RetryDelay, WorldEnabled, ApplyWorld;
  }

  lemma ThirdSubmission()
    ensures Leads(S21, Work(0, EnterQueueing(100)), S22)
    ensures Leads(S22, Work(0, Submit), S23)
  {
    hide ReconcileEnabled, ApplyReconcile, ScheduleEnabled, ApplySchedule, RetryDelay, WorldEnabled, ApplyWorld;
  }

  /** Each step leads on, and each but the raced one is granted. */
  lemma AllLead(n: nat)
    requires n < 24
    ensures Leads(At(n), Move(n), At(n + 1)) && (n != 16 ==> Granted(At(n), Move(n)))
  {
    hide Leads, NoTwins, RebindGranted;
    FirstClaim();
    SecondClaim();
    ThirdClaim();
    TableSteps();
    FirstTurn();
    LaterTurns();
    FirstSubmission();
    FirstStart();
    FirstEnd();
    FirstLeave();
    SecondSubmission();
    RacedStart();
    SecondEnd();
    ThirdSubmission();
    FirstStartIsGranted();
  }

  lemma FirstStartIsGranted()
    ensures RebindGranted(S5, 0)
  {
  }

  /** The hypotheses can be met: a granted run reaches a live turn that its delivery has recorded. */
  lemma LiveTurnIsReachable()
    ensures GrantedRun(States(6), Steps(6))
    ensures LiveMail(S6.mail, 7) && S6.owner[7] == 0 && S6.db.rows[0].status == Processing
    ensures S6.db.rows[0].turn == Some(S6.mail[7].turn)
  {
    hide Enabled, Apply, Granted, Move;
    forall k | 0 <= k < 6
      ensures Enabled(At(k), Move(k)) && Apply(At(k), Move(k)) == At(k + 1) && Granted(At(k), Move(k))
    {
      AllLead(k);
    }
  }

  /** When only the recording of one start raises, a run reaches two live turns of one delivery. */
  lemma RacedRunHasTwoLiveTurns()
    ensures Run(States(24), Steps(24)) && forall k :: 0 <= k < 24 && k != 16 ==> Granted(States(24)[k], Steps(24)[k])
    ensures LiveMail(S24.mail, 8) && LiveMail(S24.mail, 12) && S24.owner[8] == S24.owner[12]
    ensures S24.mail[8].turn != S24.mail[12].turn
  {
    hide Enabled, Apply, Granted, Move;
    forall k | 0 <= k < 24
      ensures Enabled(At(k), Move(k)) && Apply(At(k), Move(k)) == At(k + 1) && (k != 16 ==> Granted(At(k), Move(k)))
    {
      AllLead(k);
    }
  }
}
