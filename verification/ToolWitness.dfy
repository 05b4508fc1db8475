/**
 Where the promises of admission end: a call that made its last checks under another lock may still execute.
 For any two calls that lock different things there is such a run, and for calls under one lock there is none.
 */
module ToolWitness {
  import opened Common
  import opened ToolRuntime

  const DONE := ToolResult(true, true)
  const EMPTY := Tables(map[], map[], map[])

  predicate OtherLocks(p: Request, q: Request) {
    LockOf(p).Some? && LockOf(q).Some? && LockOf(p) != LockOf(q)
  }

  function LockName(q: Request): LockKey
    requires LockOf(q).Some?
  {
    LockOf(q).value
  }

  function GrantOf(q: Request): Grant {
    Grant(q.invocation, q.session, q.turn, q.tool, q.input, GRANT_SECONDS)
  }

  function Held(p: Request, q: Request): map<LockKey, nat>
    requires OtherLocks(p, q)
  {
    map[LockName(p) := 0, LockName(q) := 1]
  }

  function Cached(p: Request): Tables {
    CacheResult(EMPTY, p, LockOf(p), DONE, 0)
  }

  /** The first call alone. */
  function Alone(p: Request, phase: Phase, locks: map<LockKey, nat>): State {
    State(0, EMPTY, locks, map[0 := Thread(p, phase)], {0}, {0}, {})
  }

  /** The first call is about to run its tool while the second is admitted. */
  function Beside(p: Request, q: Request, locks: map<LockKey, nat>, phase: Phase, popped: set<nat>): State {
    State(0, EMPTY, locks, map[0 := Thread(p, Phase.Ready), 1 := Thread(q, phase)], popped, {0, 1}, {})
  }

  /** The second call waits while the first runs and leaves. */
  function Behind(p: Request, q: Request, tables: Tables, phase: Phase): State
    requires OtherLocks(p, q)
  {
    State(0, tables, Held(p, q), map[0 := Thread(p, phase), 1 := Thread(q, Phase.Ready)], {0, 1}, {0, 1}, {})
  }

  /** The first call has left; the second is on its way. */
  function After(p: Request, q: Request, phase: Phase): State
    requires OtherLocks(p, q)
  {
    var seals := if p.turn.Some? then {Seal(TurnKey(p.session, p.turn.value), LockOf(p), SEAL_SECONDS)} else {};
    State(0, SealTurn(Cached(p), p, DONE, 0), map[LockName(q) := 1], map[1 := Thread(q, phase)], {0, 1}, {0, 1}, seals)
  }

  function At(p: Request, q: Request, n: nat): State
    requires OtherLocks(p, q)
  {
    var mine := map[LockName(p) := 0];
    match n
    case 0 => State(0, EMPTY, map[], map[], {}, {}, {})
    case 1 => State(0, EMPTY, map[], map[0 := Thread(p, Granting(0, GrantOf(p)))], {}, {0}, {})
    case 2 => State(0, EMPTY.(grants := map[0 := GrantOf(p)]), map[], map[], {}, {0}, {})
    case 3 => Alone(p, Popped(Some(GrantOf(p))), map[])
    case 4 => Alone(p, Validated, map[])
    case 5 => Alone(p, Looked, map[])
    case 6 => Alone(p, Opened, map[])
    case 7 => Alone(p, Locked, mine)
    case 8 => Alone(p, LockedLooked, mine)
    case 9 => Alone(p, Phase.Ready, mine)
    case 10 => Beside(p, q, mine, Granting(1, GrantOf(q)), {0})
    case 11 =>
      State(0, EMPTY.(grants := map[1 := GrantOf(q)]), mine, map[0 := Thread(p, Phase.Ready)], {0}, {0, 1}, {})
    case 12 => Beside(p, q, mine, Popped(Some(GrantOf(q))), {0, 1})
    case 13 => Beside(p, q, mine, Validated, {0, 1})
    case 14 => Beside(p, q, mine, Looked, {0, 1})
    case 15 => Beside(p, q, mine, Opened, {0, 1})
    case 16 => Beside(p, q, Held(p, q), Locked, {0, 1})
    case 17 => Beside(p, q, Held(p, q), LockedLooked, {0, 1})
    case 18 => Behind(p, q, EMPTY, Phase.Ready)
    case 19 => Behind(p, q, EMPTY, Ran(DONE))
    case 20 => Behind(p, q, Cached(p), CachedOne(DONE))
    case 21 => After(p, q, Phase.Ready)
    case _ => After(p, q, Ran(DONE))
  }

  function Move(p: Request, q: Request, n: nat): Step {
    match n
    case 0 => Authorize(0, 0, 0, p)
    case 1 => Hand(0)
    case 2 => Pop(0, 0, p)
    case 3 => Validate(0)
    case 4 => Look(0)
    case 5 => CheckOpen(0)
    case 6 => Enter(0)
    case 7 => LookAgain(0)
    case 8 => CheckAgain(0)
    case 9 => Authorize(1, 0, 1, q)
    case 10 => Hand(1)
    case 11 => Pop(1, 1, q)
    case 12 => Validate(1)
    case 13 => Look(1)
    case 14 => CheckOpen(1)
    case 15 => Enter(1)
    case 16 => LookAgain(1)
    case 17 => CheckAgain(1)
    case 18 => Execute(0, DONE)
    case 19 => Cache(0)
    case 20 => Return(0)
    case _ => Execute(1, DONE)
  }

  ghost predicate Leads(p: Request, q: Request, k: nat)
    requires OtherLocks(p, q)
  {
    Enabled(At(p, q, k), Move(p, q, k)) && Apply(At(p, q, k), Move(p, q, k)) == At(p, q, k + 1)
  }

  lemma FirstGetsGrant(p: Request, q: Request, k: nat)
    requires OtherLocks(p, q) && k < 3
    ensures Leads(p, q, k)
  {
    assert map[0 := GrantOf(p)] - {0} == map[];
    assert map[0 := Thread(p, Granting(0, GrantOf(p)))] - {0} == map[];
  }

  lemma FirstLooks(p: Request, q: Request, k: nat)
    requires OtherLocks(p, q) && 3 <= k < 6
    ensures Leads(p, q, k)
  {
  }

  lemma FirstLocks(p: Request, q: Request, k: nat)
    requires OtherLocks(p, q) && 6 <= k < 9
    ensures Leads(p, q, k)
  {
  }

  lemma SecondGetsGrant(p: Request, q: Request, k: nat)
    requires OtherLocks(p, q) && 9 <= k < 12
    ensures Leads(p, q, k)
  {
    assert map[1 := GrantOf(q)] - {1} == map[];
    var ready := Thread(p, Phase.Ready);
    assert map[0 := ready, 1 := Thread(q, Granting(1, GrantOf(q)))] - {1} == map[0 := ready];
  }

  lemma SecondLooks(p: Request, q: Request, k: nat)
    requires OtherLocks(p, q) && 12 <= k < 15
    ensures Leads(p, q, k)
  {
  }

  lemma SecondLocks(p: Request, q: Request, k: nat)
    requires OtherLocks(p, q) && 15 <= k < 18
    ensures Leads(p, q, k)
  {
  }

  lemma BothRun(p: Request, q: Request, k: nat)
    requires OtherLocks(p, q) && 18 <= k < 22 && k != 20
    ensures Leads(p, q, k)
  {
  }

  lemma FirstReturns(p: Request, q: Request)
    requires OtherLocks(p, q)
    ensures Leads(p, q, 20)
  {
    var ready := Thread(q, Phase.Ready);
    assert map[0 := Thread(p, CachedOne(DONE)), 1 := ready] - {0} == map[1 := ready];
    assert Held(p, q) - {LockName(p)} == map[LockName(q) := 1];
    if p.turn.Some? {
      var seal := Seal(TurnKey(p.session, p.turn.value), LockOf(p), SEAL_SECONDS);
      assert {} + {seal} == {seal};
    }
  }

  lemma AllLead(p: Request, q: Request, k: nat)
    requires OtherLocks(p, q) && k < 22
    ensures Leads(p, q, k)
  {
    hide Leads;
    if k < 3 {
      FirstGetsGrant(p, q, k);
    } else if k < 6 {
      FirstLooks(p, q, k);
    } else if k < 9 {
      FirstLocks(p, q, k);
    } else if k < 12 {
      SecondGetsGrant(p, q, k);
    } else if k < 15 {
      SecondLooks(p, q, k);
    } else if k < 18 {
      SecondLocks(p, q, k);
    } else if k == 20 {
      FirstReturns(p, q);
    } else {
      BothRun(p, q, k);
    }
  }

  function States(p: Request, q: Request): seq<State>
    requires OtherLocks(p, q)
  {
    seq(23, k requires 0 <= k => At(p, q, k))
  }

  function Steps(p: Request, q: Request): seq<Step> {
    seq(22, k requires 0 <= k => Move(p, q, k))
  }

  /** Both calls pass their last checks before the first one runs, caches its result and seals its turn. */
  lemma OvertakingRun(p: Request, q: Request)
    requires OtherLocks(p, q)
    ensures RunOf(States(p, q), Steps(p, q))
  {
    hide Enabled, Apply, Move;
    forall k | 0 <= k < 22
      ensures Enabled(At(p, q, k), Move(p, q, k)) && Apply(At(p, q, k), Move(p, q, k)) == At(p, q, k + 1)
    {
      AllLead(p, q, k);
    }
  }

  // ---------------------------------------------------------------- exactly when

  /** At step `i` call `p` cached its result and at step `j`, before that was evicted, call `q` executed. */
  ghost predicate RepeatsAt(states: seq<State>, steps: seq<Step>, p: Request, q: Request, i: nat, j: nat) {
    RunOf(states, steps) && i < j < |steps| && steps[i].Cache? && steps[j].Execute? &&
    states[i].threads[steps[i].thread].request == p && states[j].threads[steps[j].thread].request == q &&
    forall k :: i < k <= j ==> p.invocation in states[k].tables.results
  }

  ghost predicate MayRepeat(p: Request, q: Request) {
    exists states, steps, i: nat, j: nat :: RepeatsAt(states, steps, p, q, i, j)
  }

  /** At step `i` call `p` sealed its turn and at step `j`, before that ran out, call `q` executed. */
  ghost predicate SlipsAt(states: seq<State>, steps: seq<Step>, p: Request, q: Request, i: nat, j: nat) {
    RunOf(states, steps) && i < j < |steps| && steps[i].Return? && steps[j].Execute? &&
    states[i].threads[steps[i].thread].request == p && states[j].threads[steps[j].thread].request == q &&
    Seals(p, states[i].threads[steps[i].thread].phase.result) && states[j].now < states[i].now + SEAL_SECONDS
  }

  ghost predicate MaySlip(p: Request, q: Request) {
    exists states, steps, i: nat, j: nat :: SlipsAt(states, steps, p, q, i, j)
  }

  lemma OvertakesCache(p: Request, q: Request)
    requires OtherLocks(p, q) && p.invocation == q.invocation
    ensures RepeatsAt(States(p, q), Steps(p, q), p, q, 19, 21)
  {
    hide RunOf;
    OvertakingRun(p, q);
  }

  lemma OvertakesSeal(p: Request, q: Request)
    requires OtherLocks(p, q) && p.session == q.session && p.turn == q.turn && p.turn.Some?
    ensures SlipsAt(States(p, q), Steps(p, q), p, q, 20, 21)
  {
    hide RunOf;
    OvertakingRun(p, q);
  }

  lemma RepeatNeedsOtherLock(states: seq<State>, steps: seq<Step>, p: Request, q: Request, i: nat, j: nat)
    requires p.invocation == q.invocation && LockOf(q).Some? && RepeatsAt(states, steps, p, q, i, j)
    ensures LockOf(p) != LockOf(q)
  {
    hide RunOf;
    if LockOf(p) == LockOf(q) {
      CachedCallRunsOnce(states, steps, i, j, steps[i].thread, steps[j].thread, steps[j].result);
    }
  }

  lemma SlipNeedsOtherLock(states: seq<State>, steps: seq<Step>, p: Request, q: Request, i: nat, j: nat)
    requires p.session == q.session && p.turn == q.turn && LockOf(q).Some? && SlipsAt(states, steps, p, q, i, j)
    ensures LockOf(p) != LockOf(q)
  {
    hide RunOf;
    if LockOf(p) == LockOf(q) {
      SealedTurnStaysClosed(states, steps, i, j, steps[i].thread, steps[j].thread, steps[j].result);
    }
  }

  /** A call can execute although the result that a call of its invocation cached is still there if and only if the
      two lock different things. */
  lemma RepeatsIffOtherLock(p: Request, q: Request)
    requires p.invocation == q.invocation && LockOf(p).Some? && LockOf(q).Some?
    ensures MayRepeat(p, q) <==> LockOf(p) != LockOf(q)
  {
    hide RepeatsAt;
    if MayRepeat(p, q) {
      var states: seq<State>, steps: seq<Step>, i: nat, j: nat :| RepeatsAt(states, steps, p, q, i, j);
      RepeatNeedsOtherLock(states, steps, p, q, i, j);
    }
    if LockOf(p) != LockOf(q) { OvertakesCache(p, q); }
  }

  /** Call `q` executes although the cached result would have answered it. */
  ghost predicate IgnoresHitAt(states: seq<State>, steps: seq<Step>, p: Request, q: Request, i: nat, j: nat) {
    RepeatsAt(states, steps, p, q, i, j) && LookUp(states[j].tables, q).Hit?
  }

  lemma OvertakesHit(p: Request, q: Request)
    requires OtherLocks(p, q) && p.invocation == q.invocation
    requires p.session == q.session && p.tool == q.tool && p.input == q.input
    ensures IgnoresHitAt(States(p, q), Steps(p, q), p, q, 19, 21)
  {
    hide RunOf;
    OvertakesCache(p, q);
  }

  /** The same call can execute a second time in the face of its own cached answer if and only if its repetition
      locks something else. */
  lemma IgnoresHitIffOtherLock(p: Request, q: Request)
    requires p.invocation == q.invocation && p.session == q.session && p.tool == q.tool && p.input == q.input
    requires LockOf(p).Some? && LockOf(q).Some?
    ensures (exists states, steps, i: nat, j: nat :: IgnoresHitAt(states, steps, p, q, i, j)) <==>
      LockOf(p) != LockOf(q)
  {
    hide RepeatsAt;
    if states: seq<State>, steps: seq<Step>, i: nat, j: nat :| IgnoresHitAt(states, steps, p, q, i, j) {
      RepeatNeedsOtherLock(states, steps, p, q, i, j);
    }
    if LockOf(p) != LockOf(q) { OvertakesHit(p, q); }
  }

  /** A call of a sealed turn can execute before the seal runs out if and only if it and the call that sealed the
      turn lock different things: the same tool in two workspaces, a task tool and a runtime tool of one
      workspace, or runtime tools of two records. */
  lemma SlipsIffOtherLock(p: Request, q: Request)
    requires p.session == q.session && p.turn == q.turn && p.turn.Some? && LockOf(p).Some? && LockOf(q).Some?
    ensures MaySlip(p, q) <==> LockOf(p) != LockOf(q)
  {
    hide SlipsAt;
    if MaySlip(p, q) {
      var states: seq<State>, steps: seq<Step>, i: nat, j: nat :| SlipsAt(states, steps, p, q, i, j);
      SlipNeedsOtherLock(states, steps, p, q, i, j);
    }
    if LockOf(p) != LockOf(q) { OvertakesSeal(p, q); }
  }
}
