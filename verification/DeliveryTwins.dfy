/**
 What the key of the claim UPDATE can do.  A session replacement leaves a waiting row of the old revision behind;
 when the permission comes, claiming the new revision's row claims both, also on a session that is in use.  There is
 such a run for every event, agent, record and pair of sessions.
 */
module DeliveryTwins {
  import opened Common
  import opened DeliveryRows
  import opened DeliveryClaims
  import opened DeliverySystem
  import opened DeliveryInvariant
  import DeliveryBatch

  /** Agent `agent` moves from session `first` to session `second` while its delivery of `event` waits; afterwards
      another agent gets the first session. */
  datatype Handover = Handover(event: nat, agent: nat, record: nat, first: nat, second: nat)

  const BOARD := Board({0, 1, 2}, {0, 1, 2}, map[])
  const DENIED := Closing(ToWait(WaitingPermission), true)

  function OldRow(h: Handover): Row {
    NewRow(h.event, h.agent, 0, h.first, h.record)
  }

  function ParkedRow(h: Handover): Row {
    ClaimedRow(OldRow(h), 7, false, 0).(status := WaitingPermission, startedAt := None)
  }

  function SuccessorRow(h: Handover): Row {
    NewRow(h.event, h.agent, 1, h.second, h.record)
  }

  function OtherRow(h: Handover): Row {
    NewRow(h.event + 1, h.agent + 1, 0, h.first, h.record)
  }

  function Table(rows: map<nat, Row>): Db {
    Db(rows, map[])
  }

  /** The old row alone, with its worker in this phase. */
  function Held(h: Handover, r: Row, phase: Phase): System {
    System(Table(map[0 := r]), map[], {}, map[7 := 0], map[h.first := Worker(Item(0, OldRow(h), 7, None), phase)], Idle,
      {})
  }

  function Parked(rows: map<nat, Row>): System {
    System(Table(rows), map[], {}, map[7 := 0], map[], Idle, {})
  }

  /** The other agent works on the first session. */
  function Busy(h: Handover, parked: Row, successor: Row): System {
    System(Table(map[0 := parked, 1 := successor, 2 := ClaimedRow(OtherRow(h), 8, false, 0)]), map[], {},
      map[7 := 0, 8 := 2],
      map[h.first := Worker(Item(2, OtherRow(h), 8, None), Prepared)], Idle, {})
  }

  function At(h: Handover, n: nat): System {
    match n
    case 0 => System(Table(map[]), map[], {}, map[], map[], Idle, {})
    case 1 => System(Table(map[0 := OldRow(h)]), map[], {}, map[], map[], Idle, {})
    case 2 => Held(h, ClaimedRow(OldRow(h), 7, false, 0), Prepared)
    case 3 => Held(h, ClaimedRow(OldRow(h), 7, false, 0), DENIED)
    case 4 => Held(h, ClaimedRow(OldRow(h), 7, false, 0), DENIED.(clear := false))
    case 5 => Held(h, ParkedRow(h), Leaving)
    case 6 => Parked(map[0 := ParkedRow(h)])
    case 7 => Parked(map[0 := ParkedRow(h)])
    case 8 => Parked(map[0 := ParkedRow(h), 1 := SuccessorRow(h)])
    case 9 => Parked(map[0 := ParkedRow(h), 1 := SuccessorRow(h), 2 := OtherRow(h)])
    case 10 => Busy(h, ParkedRow(h), SuccessorRow(h))
    case 11 => Busy(h, Resume(ParkedRow(h)), SuccessorRow(h))
    case _ => Busy(h, ClaimedRow(Resume(ParkedRow(h)), 9, false, 0), ClaimedRow(SuccessorRow(h), 9, false, 0))
  }

  function Move(h: Handover, n: nat): Step {
    match n
    case 0 => World(Insert(0, h.event, h.agent, 0, h.first, h.record))
    case 1 => Schedule({}, [0], 1, BOARD, 0, map[0 := 7])
    case 2 => Work(h.first, FailEarly(PermissionMissing))
    case 3 => Work(h.first, Clear)
    case 4 => Work(h.first, Close(0))
    case 5 => Work(h.first, Leave)
    // the agent gets another session; the planner adds the row of the new revision, and a row of another agent
    case 6 => World(Replace(h.agent, 0))
    case 7 => World(Insert(1, h.event, h.agent, 1, h.second, h.record))
    case 8 => World(Insert(2, h.event + 1, h.agent + 1, 0, h.first, h.record))
    case 9 => Schedule({}, [2], 1, BOARD, 0, map[2 := 8])
    case 10 => World(PermissionGranted)
    case _ => Schedule({}, [1], 1, BOARD, 0, map[1 := 9])
  }

  ghost predicate Leads(h: Handover, n: nat) {
    Enabled(At(h, n), Move(h, n)) && Apply(At(h, n), Move(h, n)) == At(h, n + 1)
  }

  // ---------------------------------------------------------------- the claims

  lemma OldIsClaimed(h: Handover)
    ensures Leads(h, 1) && NoTwins(At(h, 1).db.rows)
  {
    hide ClaimBatch, AddItems, WorkerEnabled, ApplyWorker, WorldEnabled, ApplyWorld, ReconcileEnabled, ApplyReconcile;
    var s := At(h, 1);
    DeliveryBatch.ClaimsOne(s.db, {}, 0, BOARD, 0, 7);
    DeliveryBatch.AddsOne(s.(db := At(h, 2).db), Item(0, OldRow(h), 7, None));
    assert {} + s.workers.Keys == {};
    assert s.db.rows[0 := ClaimedRow(OldRow(h), 7, false, 0)] == At(h, 2).db.rows;
  }

  lemma OtherIsFree(h: Handover)
    ensures NoTwins(At(h, 9).db.rows) && ProcessingSessions(At(h, 9).db.rows) == {}
  {
  }

  lemma OtherIsClaimed(h: Handover)
    ensures Leads(h, 9)
  {
    hide ClaimBatch, AddItems, WorkerEnabled, ApplyWorker, WorldEnabled, ApplyWorld, ReconcileEnabled, ApplyReconcile;
    hide NoTwins, ProcessingSessions;
    var s := At(h, 9);
    OtherIsFree(h);
    DeliveryBatch.ClaimsOne(s.db, {}, 2, BOARD, 0, 8);
    DeliveryBatch.AddsOne(s.(db := At(h, 10).db), Item(2, OtherRow(h), 8, None));
    assert {} + s.workers.Keys == {};
    assert s.db.rows[2 := ClaimedRow(OtherRow(h), 8, false, 0)] == At(h, 10).db.rows;
  }

  lemma KeyHitsBoth(h: Handover)
    ensures Hits(At(h, 11).db.rows, SuccessorRow(h), 0) == {0, 1}
  {
  }

  lemma ClaimRewritesBoth(h: Handover)
    ensures ClaimKey(At(h, 11).db, SuccessorRow(h), 9, false, 0) == At(h, 12).db
  {
    assert ClaimKey(At(h, 11).db, SuccessorRow(h), 9, false, 0).rows == At(h, 12).db.rows;
  }

  /** The claim of the new revision's row hits the old one too, and returns neither. */
  lemma BothAreHit(h: Handover, reserved: set<nat>)
    requires h.second !in reserved
    ensures ClaimOne(At(h, 11).db, reserved, 1, SuccessorRow(h), BOARD, 0, 9) == Claim(At(h, 12).db, None)
  {
    hide Hits, ClaimKey, At;
    KeyHitsBoth(h);
    ClaimRewritesBoth(h);
  }

  lemma SecondIsFree(h: Handover)
    requires h.first != h.second
    ensures h.second !in {h.first} + ProcessingSessions(At(h, 11).db.rows)
  {
  }

  lemma BothAreClaimed(h: Handover)
    requires h.first != h.second
    ensures ClaimBatch(At(h, 11).db, {h.first}, [1], 1, BOARD, 0, map[1 := 9]) == Batch(At(h, 12).db, [])
  {
    hide ClaimOne, ProcessingSessions;
    SecondIsFree(h);
    BothAreHit(h, {h.first} + ProcessingSessions(At(h, 11).db.rows));
    assert [1][1..] == [];
  }

  lemma TwinsAreClaimed(h: Handover)
    requires h.first != h.second
    ensures Leads(h, 11)
  {
    hide ClaimBatch, WorkerEnabled, ApplyWorker, WorldEnabled, ApplyWorld, ReconcileEnabled, ApplyReconcile;
    BothAreClaimed(h);
    assert {} + At(h, 11).workers.Keys == {h.first};
  }

  // ---------------------------------------------------------------- the other steps

  lemma WaitingLeads(h: Handover, n: nat)
    requires 2 <= n < 4
    ensures Leads(h, n)
  {
    hide ReconcileEnabled, ApplyReconcile, ScheduleEnabled, ApplySchedule, WorldEnabled, ApplyWorld, RetryDelay;
  }

  lemma ParkingLeads(h: Handover, n: nat)
    requires 4 <= n < 6
    ensures Leads(h, n)
  {
    hide ReconcileEnabled, ApplyReconcile, ScheduleEnabled, ApplySchedule, WorldEnabled, ApplyWorld, RetryDelay;
    assert Held(h, ParkedRow(h), Leaving).workers - {h.first} == map[];
  }

  lemma InsertLeads(h: Handover, n: nat)
    requires n == 0 || n == 7 || n == 8
    ensures Leads(h, n)
  {
    hide ReconcileEnabled, ApplyReconcile, ScheduleEnabled, ApplySchedule, WorkerEnabled, ApplyWorker;
  }

  lemma ReplaceLeads(h: Handover)
    ensures Leads(h, 6)
  {
    hide ReconcileEnabled, ApplyReconcile, ScheduleEnabled, ApplySchedule, WorkerEnabled, ApplyWorker;
    assert ReplaceSession(At(h, 6).db, h.agent, 0).rows == At(h, 6).db.rows;
  }

  lemma PermissionResumesOld(h: Handover)
    ensures ResumePermission(At(h, 10).db) == At(h, 11).db
  {
    assert ResumePermission(At(h, 10).db).rows == At(h, 11).db.rows;
  }

  lemma PermissionLeads(h: Handover)
    ensures Leads(h, 10)
  {
    hide ReconcileEnabled, ApplyReconcile, ScheduleEnabled, ApplySchedule, WorkerEnabled, ApplyWorker;
    hide ResumePermission, ClaimedRow;
    PermissionResumesOld(h);
  }

  lemma AllLead(h: Handover, n: nat)
    requires n < 12 && h.first != h.second
    ensures Leads(h, n) && (n < 11 ==> Granted(At(h, n), Move(h, n)))
  {
    hide Leads, NoTwins;
    OldIsClaimed(h);
    OtherIsClaimed(h);
    OtherIsFree(h);
    if n == 11 {
      TwinsAreClaimed(h);
    } else if n == 0 || n == 7 || n == 8 {
      InsertLeads(h, n);
    } else if n == 6 {
      ReplaceLeads(h);
    } else if n == 10 {
      PermissionLeads(h);
    } else if n == 2 || n == 3 {
      WaitingLeads(h, n);
    } else if n == 4 || n == 5 {
      ParkingLeads(h, n);
    }
  }

  function States(h: Handover): seq<System> {
    seq(13, k requires 0 <= k => At(h, k))
  }

  function Steps(h: Handover): seq<Step> {
    seq(12, k requires 0 <= k => Move(h, k))
  }

  lemma HandoverRuns(h: Handover)
    requires h.first != h.second
    ensures Run(States(h), Steps(h)) && forall k :: 0 <= k < 11 ==> Granted(States(h)[k], Steps(h)[k])
  {
    hide Enabled, Apply, Granted, Move;
    forall k | 0 <= k < 12
      ensures Enabled(At(h, k), Move(h, k)) && Apply(At(h, k), Move(h, k)) == At(h, k + 1)
      ensures k < 11 ==> Granted(At(h, k), Move(h, k))
    {
      AllLead(h, k);
    }
  }

  /** For every handover: up to its last step the run meets the hypotheses and ends with two claimable rows of one
      event and agent, so they are not an invariant. */
  lemma ReplacementLeavesTwins(h: Handover)
    requires h.first != h.second
    ensures Run(States(h), Steps(h)) && forall k :: 0 <= k < 11 ==> Granted(States(h)[k], Steps(h)[k])
    ensures !NoTwins(States(h)[11].db.rows)
  {
    HandoverRuns(h);
    var rows := At(h, 11).db.rows;
    assert SameKey(rows[0], rows[1]) && Claimable(rows[0].status) && Claimable(rows[1].status);
  }

  /** One claim of such a table puts two claimed deliveries on one session. */
  lemma TwinsShareSession(h: Handover)
    requires h.first != h.second
    ensures Run(States(h), Steps(h)) && States(h)[12] == Apply(States(h)[11], Steps(h)[11])
    ensures !SessionsExclusive(States(h)[12].db.rows)
  {
    HandoverRuns(h);
    var rows := At(h, 12).db.rows;
    assert rows[0].session == rows[2].session && rows[0].status == rows[2].status == Processing;
  }
}
