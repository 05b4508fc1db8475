/**
 The driver in the form of the code: the sessions and workers it keeps, and how the flags of one
 execution decide its last write.
 */
module DeliveryRuntime {
  import opened Common
  import opened DeliveryRows
  import opened DeliveryClaims
  import opened DeliverySystem
  import opened DeliveryStore
  import DeliveryBatch

  /** What became of the call: a result with what was then read about its turn, a queued message, an
      exception, or an acceptance that is unknown. */
  datatype Call =
    | Returned(status: TurnStatus, ok: bool, completed: bool, active: bool, current: bool)
    | HeldInQueue
    | Raised(error: Failure)
    | AcceptanceUnknown

  /** The last writes of an execution, as the protocol's outcomes; `clear` drops the queueing mark first. */
  function Concluded(call: Call, turnStarted: bool, count: nat): (Outcome, bool) {
    match call
    case Returned(status, ok, completed, active, current) => (Decide(status, ok, completed, active, current, count),
      false)
    case HeldInQueue => (ToDefer, false)
    case AcceptanceUnknown => (ToDefer, false)
    case Raised(error) => if turnStarted then (ToDefer, false) else (FailureOutcome(error), true)
  }

  /** Permission and owner failures come only before a turn starts, and only a started turn returns a result. */
  predicate CallContract(call: Call, turnStarted: bool) {
    (call.Returned? ==> turnStarted) && (turnStarted && call.Raised? ==> call.error.OtherError?)
  }

  class Runtime {
    var activeSessions: set<nat>
    var workers: map<nat, Worker>

    constructor ()
      ensures activeSessions == {} && workers == map[]
    {
      activeSessions, workers := {}, map[];
    }

    /** schedule: claim under the lock, then start one worker per returned delivery. */
    method Schedule(store: Store, keeper: set<nat>, ids: seq<nat>, limit: nat, board: Board, now: nat,
                    uuids: map<nat, nat>,
                    ghost s: System)
      requires s.db == store.View() && s.workers == workers && activeSessions == workers.Keys
      requires forall k :: 0 <= k < |ids| ==> ids[k] in s.db.rows && ids[k] in uuids
      modifies this, store`rows
      ensures store.View() == ApplySchedule(s, keeper, ids, limit, board, now, uuids).db
      ensures workers == ApplySchedule(s, keeper, ids, limit, board, now, uuids).workers
      ensures activeSessions == workers.Keys
    {
      assert keeper + activeSessions == keeper + s.workers.Keys;
      var items := store.ClaimTaskDeliveries(keeper + activeSessions, ids, limit, board, now, uuids);
      ghost var t := s.(db := store.View());
      ghost var done := AddItems(t, items);
      var k := 0;
      assert items[0..] == items;
      while k < |items|
        invariant k <= |items| && activeSessions == workers.Keys
        invariant t.workers == workers && AddItems(t, items[k..]) == done
        modifies this
      {
        var session := items[k].seen.session;
        activeSessions := activeSessions + {session};
        workers := workers[session := Worker(items[k], Prepared)];
        assert items[k..][0] == items[k] && items[k..][1..] == items[k + 1..];
        t := t.(owner := t.owner[items[k].message := items[k].id], workers := workers);
        k := k + 1;
      }
      DeliveryBatch.AddItemsFrame(s.(db := store.View()), items);
    }

    /** The end of execute: the flags it gathered choose which transactions run. */
    method Conclude(store: Store, item: Item, call: Call, turnStarted: bool, now: nat)
      requires item.id in store.rows && CallContract(call, turnStarted)
      modifies store
      ensures var (outcome, clear) := Concluded(call, turnStarted, |old(store.rows)[item.id].turns|);
        var cleared := if clear then ClearQueueing(old(store.View()), item.id,
          item.continuation) else old(store.View());
        store.View() == Conclusion(cleared, item, outcome, now)
    {
      var retry, failed, acceptanceUnknown, waitingPermission, waitingSession := false, false, false, false, false;
      var claimedTurnEnded, turnReconciling := false, false;
      match call {
        case Returned(status, ok, completed, active, current) =>
          turnReconciling := Interrupted(status) && !completed;
          if active && EndedStatus(status) {
            claimedTurnEnded := !turnReconciling;
            failed := true;
          } else if turnReconciling {
            failed := true;
          } else if !ok {
            retry := Interrupted(status) && |store.rows[item.id].turns| < MAX_ACCEPTED_TURNS && current;
          }
        case HeldInQueue =>
          acceptanceUnknown, failed := true, true;
        case AcceptanceUnknown =>
          acceptanceUnknown, failed := true, true;
        case Raised(error) =>
          failed := true;
          waitingPermission := error.PermissionMissing?;
          waitingSession := error.NoOwner?;
          retry := !waitingPermission && !turnStarted && !(error.OtherError? && error.terminal);
      }
      if !turnStarted && !acceptanceUnknown { store.ClearTaskDeliveryQueueing(item.id, item.continuation); }
      var reconciling := turnReconciling || (failed && (turnStarted || acceptanceUnknown) && !claimedTurnEnded);
      if waitingPermission {
        store.MarkWaiting(item.id, WaitingPermission, item.continuation.Some?);
      } else if waitingSession {
        store.MarkWaiting(item.id, WaitingSession, item.continuation.Some?);
      } else if reconciling {
        store.DeferReconciliation(item.id, now);
      } else if claimedTurnEnded {
        store.FinishTaskDelivery(item.id, Some(call.status), false, true, false, now);
      } else {
        var result := if call.Returned? then Some(call.status) else None;
        store.FinishTaskDelivery(item.id, result, !failed && call.Returned? && call.ok, retry, false, now);
      }
    }
  }

  /** The database part of the protocol's last write. */
  ghost function Conclusion(db: Db, item: Item, outcome: Outcome, now: nat): Db {
    ApplyOutcome(System(db, map[], {}, map[], map[], Idle, {}), item, outcome, now).db
  }
}
