/**
 Tool admission as threads over shared tables: single-use grants, a result cache, locks and sealed turns.
 Every atomic section of a call is one step; any number of calls interleave under one clock.
 */
module ToolRuntime {
  import opened Common

  datatype Kind = ReadOnly | Mutating | Runtime

  /** One tool call as its caller presents it. */
  datatype Request = Request(invocation: nat, session: nat, turn: Option<nat>, tool: nat, kind: Kind, input: nat,
    workspace: nat, record: nat)

  datatype Grant = Grant(invocation: nat, session: nat, turn: Option<nat>, tool: nat, input: nat, expires: nat)

  datatype ToolResult = ToolResult(ok: bool, endTurn: bool)

  /** Mutating tools lock their workspace, runtime tools one record of it. */
  datatype LockKey = TaskLock(workspace: nat) | RuntimeLock(workspace: nat, record: nat)

  datatype TurnKey = TurnKey(session: nat, turn: nat)

  /** A cached result; `writers` are the locks under which it was written since it is there without a gap. */
  datatype Entry = Entry(session: nat, tool: nat, input: nat, result: ToolResult, expires: nat, writers: set<LockKey>)

  /** A seal that was set: which turn, under which lock, until when. */
  datatype Seal = Seal(turn: TurnKey, lock: Option<LockKey>, expires: nat)

  datatype Tables = Tables(grants: map<nat, Grant>, results: map<nat, Entry>, closed: map<TurnKey, nat>)

  const GRANT_SECONDS := 60
  const RESULT_SECONDS := 300
  const SEAL_SECONDS := 3600

  // ---------------------------------------------------------------- sections on the tables

  /** authorize drops what has expired. */
  function Evict(t: Tables, at: nat): Tables {
    Tables(map k | k in t.grants && t.grants[k].expires > at :: t.grants[k],
           map k | k in t.results && t.results[k].expires > at :: t.results[k],
           map k | k in t.closed && t.closed[k] > at :: t.closed[k])
  }

  predicate Sealed(t: Tables, q: Request, now: nat) {
    q.kind != ReadOnly && q.turn.Some? && TurnKey(q.session, q.turn.value) in t.closed &&
    t.closed[TurnKey(q.session, q.turn.value)] > now
  }

  /** A sealed turn is refused, except for a call whose result is already cached. */
  predicate Refused(t: Tables, q: Request) {
    q.kind != ReadOnly && q.turn.Some? && TurnKey(q.session, q.turn.value) in t.closed && q.invocation !in t.results
  }

  predicate GrantMatches(g: Option<Grant>, q: Request, now: nat) {
    g.Some? && g.value.expires > now && g.value.invocation == q.invocation && g.value.tool == q.tool &&
      g.value.input == q.input
  }

  datatype Lookup = Miss | Hit(result: ToolResult) | Mismatch

  function LookUp(t: Tables, q: Request): Lookup {
    if q.invocation !in t.results then Miss
    else
      var e := t.results[q.invocation];
      if e.session != q.session || e.tool != q.tool || e.input != q.input then Mismatch else Hit(e.result)
  }

  function CacheResult(t: Tables, q: Request, lock: Option<LockKey>, result: ToolResult, now: nat): Tables {
    var kept := if q.invocation in t.results then t.results[q.invocation].writers else {};
    var writer := if lock.Some? then {lock.value} else {};
    t.(results := t.results[q.invocation := Entry(q.session, q.tool, q.input, result, now + RESULT_SECONDS,
      kept + writer)])
  }

  predicate Seals(q: Request, result: ToolResult) {
    result.ok && result.endTurn && q.turn.Some?
  }

  function SealTurn(t: Tables, q: Request, result: ToolResult, now: nat): Tables {
    if Seals(q, result) then t.(closed := t.closed[TurnKey(q.session, q.turn.value) := now + SEAL_SECONDS]) else t
  }

  function LockOf(q: Request): Option<LockKey> {
    match q.kind
    case ReadOnly => None
    case Mutating => Some(TaskLock(q.workspace))
    case Runtime => Some(RuntimeLock(q.workspace, q.record))
  }

  // ---------------------------------------------------------------- threads

  datatype Phase =
    | Granting(token: nat, grant: Grant)
    | Popped(found: Option<Grant>) | Validated | Looked | Opened
    | Locked | LockedLooked | Ready | Ran(result: ToolResult) | CachedOne(result: ToolResult)

  datatype Thread = Thread(request: Request, phase: Phase)

  /** `popped` and `issued` are the tokens ever taken and handed out, `seals` every seal ever set. */
  datatype State = State(
    now: nat, tables: Tables, locks: map<LockKey, nat>, threads: map<nat, Thread>,
    popped: set<nat>, issued: set<nat>, seals: set<Seal>)

  datatype Step =
    | Tick(seconds: nat)
    | Authorize(thread: nat, at: nat, token: nat, request: Request)
    | Hand(thread: nat)
    | Pop(thread: nat, token: nat, request: Request)
    | Validate(thread: nat)
    | Look(thread: nat)
    | CheckOpen(thread: nat)
    | Enter(thread: nat)
    | LookAgain(thread: nat)
    | CheckAgain(thread: nat)
    | Execute(thread: nat, result: ToolResult)
    | Cache(thread: nat)
    | Return(thread: nat)
    | Raise(thread: nat)

  /** The phases in which a call that needs a lock holds it. */
  predicate Holding(p: Phase) {
    p.Locked? || p.LockedLooked? || p.Ready? || p.Ran? || p.CachedOne?
  }

  predicate At(s: State, i: nat, p: Phase -> bool) {
    i in s.threads && p(s.threads[i].phase)
  }

  predicate Enabled(s: State, step: Step) {
    match step
    case Tick(_) => true
    case Authorize(i, at, token, q) => i !in s.threads && at <= s.now && token !in s.issued
    case Hand(i) => At(s, i, (p: Phase) => p.Granting?)
    case Pop(i, _, _) => i !in s.threads
    case Validate(i) => At(s, i, (p: Phase) => p.Popped?) &&
      GrantMatches(s.threads[i].phase.found, s.threads[i].request, s.now)
                        && s.threads[i].request.session == s.threads[i].phase.found.value.session
                        && s.threads[i].request.turn == s.threads[i].phase.found.value.turn
    case Look(i) => At(s, i, (p: Phase) => p.Validated?) && LookUp(s.tables, s.threads[i].request) == Miss
    case CheckOpen(i) => At(s, i, (p: Phase) => p.Looked?) && !Sealed(s.tables, s.threads[i].request, s.now)
    case Enter(i) => At(s, i, (p: Phase) => p.Opened?) &&
      var lock := LockOf(s.threads[i].request);
      (lock.Some? ==> lock.value !in s.locks)
    case LookAgain(i) => At(s, i, (p: Phase) => p.Locked?) && LookUp(s.tables, s.threads[i].request) == Miss
    case CheckAgain(i) => At(s, i, (p: Phase) => p.LockedLooked?) && !Sealed(s.tables, s.threads[i].request, s.now)
    case Execute(i, _) => At(s, i, (p: Phase) => p.Ready?)
    case Cache(i) => At(s, i, (p: Phase) => p.Ran?)
    case Return(i) => At(s, i, (p: Phase) => p.CachedOne?)
    // a failed check, a cached answer or an exception ends the call wherever it is
    case Raise(i) => i in s.threads
  }

  function Go(s: State, i: nat, phase: Phase): State
    requires i in s.threads
  {
    s.(threads := s.threads[i := s.threads[i].(phase := phase)])
  }

  /** Leaving a call releases its lock. */
  function Leave(s: State, i: nat): State
    requires i in s.threads
  {
    var t := s.threads[i];
    var lock := LockOf(t.request);
    s.(threads := s.threads - {i}, locks := if Holding(t.phase) && lock.Some? then s.locks - {lock.value} else s.locks)
  }

  function Apply(s: State, step: Step): State
    requires Enabled(s, step)
  {
    match step
    case Tick(seconds) => s.(now := s.now + seconds)
    case Authorize(i, at, token, q) =>
      var tables := Evict(s.tables, at);
      if Refused(tables, q) then s.(tables := tables, issued := s.issued + {token})
      else s.(tables := tables, issued := s.issued + {token},
              threads := s.threads[i := Thread(q, Granting(token,
                Grant(q.invocation, q.session, q.turn, q.tool, q.input, at + GRANT_SECONDS)))])
    case Hand(i) =>
      var p := s.threads[i].phase;
      Leave(s.(tables := s.tables.(grants := s.tables.grants[p.token := p.grant])), i)
    case Pop(i, token, q) =>
      var found := if token in s.tables.grants then Some(s.tables.grants[token]) else None;
      s.(tables := s.tables.(grants := s.tables.grants - {token}),
        popped := if found.Some? then s.popped + {token} else s.popped,
         threads := s.threads[i := Thread(q, Popped(found))])
    case Validate(i) => Go(s, i, Validated)
    case Look(i) => Go(s, i, Looked)
    case CheckOpen(i) => Go(s, i, Opened)
    case Enter(i) =>
      var lock := LockOf(s.threads[i].request);
      // a read-only call runs without a lock and without looking again
      if lock == None then Go(s, i, Ready) else Go(s.(locks := s.locks[lock.value := i]), i, Locked)
    case LookAgain(i) => Go(s, i, LockedLooked)
    case CheckAgain(i) => Go(s, i, Ready)
    case Execute(i, result) => Go(s, i, Ran(result))
    case Cache(i) =>
      var q := s.threads[i].request;
      var result := s.threads[i].phase.result;
      Go(s.(tables := CacheResult(s.tables, q, LockOf(q), result, s.now)), i, CachedOne(result))
    case Return(i) =>
      var q := s.threads[i].request;
      var result := s.threads[i].phase.result;
      var sealed := s.(tables := SealTurn(s.tables, q, result, s.now),
        seals := if Seals(q, result) then s.seals + {Seal(TurnKey(q.session, q.turn.value), LockOf(q),
          s.now + SEAL_SECONDS)} else s.seals);
      Leave(sealed, i)
    case Raise(i) => Leave(s, i)
  }

  ghost predicate Init(s: State) {
    s.tables == Tables(map[], map[], map[]) && s.locks == map[] && s.threads == map[] &&
    s.popped == {} && s.issued == {} && s.seals == {}
  }

  ghost predicate RunOf(states: seq<State>, steps: seq<Step>) {
    |states| == |steps| + 1 && Init(states[0]) &&
    forall k :: 0 <= k < |steps| ==> Enabled(states[k], steps[k]) && states[k + 1] == Apply(states[k], steps[k])
  }

  // ---------------------------------------------------------------- invariant

  ghost predicate HoldsLock(s: State, i: nat)
    requires i in s.threads
  {
    var lock := LockOf(s.threads[i].request);
    Holding(s.threads[i].phase) && lock.Some? ==> lock.value in s.locks && s.locks[lock.value] == i
  }

  /** After its second look no result of its invocation was written under its lock. */
  predicate NotAnswered(s: State, q: Request) {
    LockOf(q).Some? && q.invocation in s.tables.results ==> LockOf(q).value !in s.tables.results[q.invocation].writers
  }

  /** No seal of its turn set under its lock is still in force. */
  ghost predicate NotSealed(s: State, q: Request) {
    LockOf(q).Some? && q.turn.Some? ==>
      forall seal :: seal in s.seals && seal.turn == TurnKey(q.session, q.turn.value) && seal.lock == LockOf(q)
        ==> seal.expires <= s.now
  }

  ghost predicate ThreadOk(s: State, i: nat)
    requires i in s.threads
  {
    var t := s.threads[i];
    HoldsLock(s, i) &&
    (t.phase.LockedLooked? || t.phase.Ready? ==> NotAnswered(s, t.request)) &&
    (t.phase.Ready? ==> NotSealed(s, t.request)) &&
    (t.phase.Granting? ==> t.phase.token in s.issued && t.phase.token !in s.popped && t.phase.token !in s.tables.grants)
  }

  ghost predicate SealsInForce(s: State) {
    (forall seal :: seal in s.seals ==> seal.expires <= s.now + SEAL_SECONDS) &&
    (forall seal :: seal in s.seals && seal.expires > s.now ==> InForce(s, seal))
  }

  predicate InForce(s: State, seal: Seal) {
    seal.turn in s.tables.closed && s.tables.closed[seal.turn] >= seal.expires
  }

  ghost predicate TokensOk(s: State) {
    s.popped <= s.issued && s.tables.grants.Keys <= s.issued && s.popped !! s.tables.grants.Keys &&
    (forall i, j :: i in s.threads && j in s.threads && i != j && s.threads[i].phase.Granting? &&
      s.threads[j].phase.Granting?
      ==> s.threads[i].phase.token != s.threads[j].phase.token)
  }

  ghost predicate Inv(s: State) {
    (forall i :: i in s.threads ==> ThreadOk(s, i)) && SealsInForce(s) && TokensOk(s)
  }

  // ---------------------------------------------------------------- every step keeps it

  /** A step of one thread, seen by another: what the other relies on is left alone. */
  ghost predicate Quiet(s: State, s': State, j: nat)
    requires j in s.threads
  {
    var q := s.threads[j].request;
    j in s'.threads && s'.threads[j] == s.threads[j] && s'.now >= s.now &&
    (HoldsLock(s, j) ==> HoldsLock(s', j)) &&
    (Holding(s.threads[j].phase) && HoldsLock(s, j) && NotAnswered(s, q) ==> NotAnswered(s', q)) &&
    (Holding(s.threads[j].phase) && HoldsLock(s, j) && NotSealed(s, q) ==> NotSealed(s', q)) &&
    s.issued <= s'.issued && (s.threads[j].phase.Granting? ==>
      (s.threads[j].phase.token !in s'.popped - s.popped &&
        s.threads[j].phase.token !in s'.tables.grants.Keys - s.tables.grants.Keys))
  }

  lemma QuietKeeps(s: State, s': State, j: nat)
    requires j in s.threads && ThreadOk(s, j) && Quiet(s, s', j)
    ensures ThreadOk(s', j)
  {
  }

  /** The thread that moved is fine, and everybody else saw a quiet step. */
  lemma OneMoved(s: State, s': State, i: nat)
    requires Inv(s) && SealsInForce(s') && TokensOk(s')
    requires forall j :: j in s'.threads ==> j == i || (j in s.threads && Quiet(s, s', j))
    requires i in s'.threads ==> ThreadOk(s', i)
    ensures Inv(s')
  {
    forall j | j in s'.threads ensures ThreadOk(s', j) {
      if j != i { QuietKeeps(s, s', j); }
    }
  }

  lemma TickKeeps(s: State, seconds: nat)
    requires Inv(s)
    ensures Inv(s.(now := s.now + seconds))
  {
    var s' := s.(now := s.now + seconds);
    forall j | j in s'.threads ensures ThreadOk(s', j) { assert ThreadOk(s, j); }
  }

  /** Only the thread's own phase moved. */
  lemma GoKeeps(s: State, i: nat, phase: Phase)
    requires Inv(s) && i in s.threads && !phase.Granting?
    requires Holding(phase) ==> Holding(s.threads[i].phase) || LockOf(s.threads[i].request) == None
    requires ThreadOk(Go(s, i, phase), i)
    ensures Inv(Go(s, i, phase))
  {
    var s' := Go(s, i, phase);
    forall j | j in s'.threads && j != i ensures Quiet(s, s', j) { }
    OneMoved(s, s', i);
  }

  lemma LeaveKeeps(s: State, i: nat)
    requires Inv(s) && i in s.threads
    ensures Inv(Leave(s, i))
  {
    var s' := Leave(s, i);
    assert HoldsLock(s, i) by { assert ThreadOk(s, i); }
    forall j | j in s'.threads ensures Quiet(s, s', j) {
      assert ThreadOk(s, j);
    }
    OneMoved(s, s', i);
  }

  /** Eviction forgets only what has expired. */
  lemma EvictKeeps(s: State, at: nat, token: nat)
    requires Inv(s) && at <= s.now
    ensures Inv(s.(tables := Evict(s.tables, at), issued := s.issued + {token}))
  {
    var s' := s.(tables := Evict(s.tables, at), issued := s.issued + {token});
    forall j | j in s'.threads ensures ThreadOk(s', j) {
      assert ThreadOk(s, j);
    }
  }

  lemma AuthorizeKeeps(s: State, i: nat, at: nat, token: nat, q: Request)
    requires Inv(s) && Enabled(s, Authorize(i, at, token, q))
    ensures Inv(Apply(s, Authorize(i, at, token, q)))
  {
    EvictKeeps(s, at, token);
    var evicted := s.(tables := Evict(s.tables, at), issued := s.issued + {token});
    if !Refused(evicted.tables, q) {
      var s' := Apply(s, Authorize(i, at, token, q));
      forall j | j in s'.threads && j != i
        ensures Quiet(evicted, s', j) && s'.threads[j] == s.threads[j]
      {
        assert ThreadOk(s, j);
      }
      OneMoved(evicted, s', i);
    }
  }

  lemma HandKeeps(s: State, i: nat)
    requires Inv(s) && Enabled(s, Hand(i))
    ensures Inv(Apply(s, Hand(i)))
  {
    var s' := Apply(s, Hand(i));
    assert ThreadOk(s, i);
    forall j | j in s'.threads ensures Quiet(s, s', j) { assert ThreadOk(s, j); }
    OneMoved(s, s', i);
  }

  lemma PopKeeps(s: State, i: nat, token: nat, q: Request)
    requires Inv(s) && Enabled(s, Pop(i, token, q))
    ensures Inv(Apply(s, Pop(i, token, q)))
  {
    var s' := Apply(s, Pop(i, token, q));
    forall j | j in s'.threads && j != i ensures Quiet(s, s', j) { assert ThreadOk(s, j); }
    OneMoved(s, s', i);
  }

  lemma EnterKeeps(s: State, i: nat)
    requires Inv(s) && Enabled(s, Enter(i))
    ensures Inv(Apply(s, Enter(i)))
  {
    var s' := Apply(s, Enter(i));
    if LockOf(s.threads[i].request) == None {
      GoKeeps(s, i, Ready);
    } else {
      forall j | j in s'.threads && j != i ensures Quiet(s, s', j) { assert ThreadOk(s, j); }
      OneMoved(s, s', i);
    }
  }

  /** The second look, under the lock, finds no answer: none was written under this lock since. */
  lemma LookAgainKeeps(s: State, i: nat)
    requires Inv(s) && Enabled(s, LookAgain(i))
    ensures Inv(Apply(s, LookAgain(i)))
  {
    assert ThreadOk(s, i);
    GoKeeps(s, i, LockedLooked);
  }

  /** The second check finds the turn open: every seal of it has run out. */
  lemma CheckAgainKeeps(s: State, i: nat)
    requires Inv(s) && Enabled(s, CheckAgain(i))
    ensures Inv(Apply(s, CheckAgain(i)))
  {
    assert ThreadOk(s, i);
    var q := s.threads[i].request;
    assert NotSealed(s, q);
    GoKeeps(s, i, Ready);
  }

  /** Caching writes under the caller's own lock, which no other thread inside its critical section holds. */
  lemma CacheKeeps(s: State, i: nat)
    requires Inv(s) && Enabled(s, Cache(i))
    ensures Inv(Apply(s, Cache(i)))
  {
    var s' := Apply(s, Cache(i));
    assert ThreadOk(s, i);
    forall j | j in s'.threads && j != i ensures Quiet(s, s', j) {
      assert ThreadOk(s, j);
      if Holding(s.threads[j].phase) && LockOf(s.threads[j].request).Some? { DifferentLocks(s, i, j); }
    }
    OneMoved(s, s', i);
  }

  lemma DifferentLocks(s: State, i: nat, j: nat)
    requires i in s.threads && j in s.threads && i != j && HoldsLock(s, i) && HoldsLock(s, j)
    requires Holding(s.threads[i].phase) && Holding(s.threads[j].phase) && LockOf(s.threads[j].request).Some?
    ensures LockOf(s.threads[i].request) != LockOf(s.threads[j].request)
  {
  }

  lemma ReturnKeeps(s: State, i: nat)
    requires Inv(s) && Enabled(s, Return(i))
    ensures Inv(Apply(s, Return(i)))
  {
    var s' := Apply(s, Return(i));
    assert ThreadOk(s, i);
    forall j | j in s'.threads ensures Quiet(s, s', j) {
      assert ThreadOk(s, j);
      if Holding(s.threads[j].phase) && LockOf(s.threads[j].request).Some? { DifferentLocks(s, i, j); }
    }
    OneMoved(s, s', i);
  }

  lemma StepKeeps(s: State, step: Step)
    requires Inv(s) && Enabled(s, step)
    ensures Inv(Apply(s, step))
  {
    match step {
      case Tick(seconds) => TickKeeps(s, seconds);
      case Authorize(i, at, token, q) => AuthorizeKeeps(s, i, at, token, q);
      case Hand(i) => HandKeeps(s, i);
      case Pop(i, token, q) => PopKeeps(s, i, token, q);
      case Validate(i) => GoKeeps(s, i, Validated);
      case Look(i) => GoKeeps(s, i, Looked);
      case CheckOpen(i) => GoKeeps(s, i, Opened);
      case Enter(i) => EnterKeeps(s, i);
      case LookAgain(i) => LookAgainKeeps(s, i);
      case CheckAgain(i) => CheckAgainKeeps(s, i);
      case Execute(i, result) => assert ThreadOk(s, i); GoKeeps(s, i, Ran(result));
      case Cache(i) => CacheKeeps(s, i);
      case Return(i) => ReturnKeeps(s, i);
      case Raise(i) => LeaveKeeps(s, i);
    }
  }

  lemma {:induction false} RunKeeps(states: seq<State>, steps: seq<Step>, k: nat)
    requires RunOf(states, steps) && k < |states|
    ensures Inv(states[k])
  {
    if k > 0 {
      RunKeeps(states, steps, k - 1);
      StepKeeps(states[k - 1], steps[k - 1]);
    }
  }

  // ---------------------------------------------------------------- what admission promises

  /** A result cached under a lock stays, with that lock among its writers, until it is evicted. */
  lemma EntryStays(s: State, step: Step, invocation: nat, lock: LockKey)
    requires Enabled(s, step) && invocation in s.tables.results && lock in s.tables.results[invocation].writers
    requires invocation in Apply(s, step).tables.results
    ensures lock in Apply(s, step).tables.results[invocation].writers
  {
  }

  lemma {:induction false} EntryStaysCached(states: seq<State>, steps: seq<Step>, i: nat, j: nat, invocation: nat,
                                            lock: LockKey)
    requires RunOf(states, steps) && i <= j < |states|
    requires forall k :: i <= k <= j ==> invocation in states[k].tables.results
    requires lock in states[i].tables.results[invocation].writers
    ensures lock in states[j].tables.results[invocation].writers
  {
    hide Enabled, Apply;
    if i < j {
      assert invocation in states[j].tables.results;
      EntryStaysCached(states, steps, i, j - 1, invocation, lock);
      EntryStays(states[j - 1], steps[j - 1], invocation, lock);
    }
  }

  /** A call that needs a lock is not executed again for its invocation while the result that a call under the
      same lock cached has not been evicted. */
  lemma CachedCallRunsOnce(states: seq<State>, steps: seq<Step>, i: nat, j: nat, first: nat, second: nat,
                           result: ToolResult)
    requires RunOf(states, steps) && i < j < |steps| && steps[i] == Cache(first) && steps[j] == Execute(second, result)
    requires var p, q := states[i].threads[first].request, states[j].threads[second].request;
      p.invocation == q.invocation && LockOf(p) == LockOf(q) && LockOf(q).Some?
    ensures exists k :: i < k <= j && states[j].threads[second].request.invocation !in states[k].tables.results
  {
    var q := states[j].threads[second].request;
    RunKeeps(states, steps, j);
    assert ThreadOk(states[j], second);
    if forall k :: i < k <= j ==> q.invocation in states[k].tables.results {
      EntryStaysCached(states, steps, i + 1, j, q.invocation, LockOf(q).value);
    }
  }

  lemma {:induction false} SealStays(states: seq<State>, steps: seq<Step>, i: nat, j: nat, seal: Seal)
    requires RunOf(states, steps) && i <= j < |states| && seal in states[i].seals
    ensures seal in states[j].seals && states[j].now >= states[i].now
  {
    if i < j { SealStays(states, steps, i, j - 1, seal); }
  }

  /** Once a call returned end_turn, no call of that session and turn under the same lock executes before the seal runs
      out. */
  lemma SealedTurnStaysClosed(states: seq<State>, steps: seq<Step>, i: nat, j: nat, first: nat, second: nat,
                              result: ToolResult)
    requires RunOf(states, steps) && i < j < |steps| && steps[i] == Return(first) && steps[j] == Execute(second, result)
    requires var p, q := states[i].threads[first].request, states[j].threads[second].request;
      Seals(p, states[i].threads[first].phase.result) &&
      q.session == p.session && q.turn == p.turn && LockOf(p) == LockOf(q) && LockOf(q).Some?
    ensures states[j].now >= states[i].now + SEAL_SECONDS
  {
    var q := states[j].threads[second].request;
    var seal := Seal(TurnKey(q.session, q.turn.value), LockOf(q), states[i].now + SEAL_SECONDS);
    assert seal in states[i + 1].seals;
    SealStays(states, steps, i + 1, j, seal);
    RunKeeps(states, steps, j);
    assert ThreadOk(states[j], second);
    assert NotSealed(states[j], q);
  }

  /** Any call, under whatever lock, that checks its turn after the seal is refused until the seal runs out. */
  lemma CheckSeesSeal(states: seq<State>, steps: seq<Step>, i: nat, j: nat, first: nat, second: nat)
    requires RunOf(states, steps) && i < j < |steps| && steps[i] == Return(first)
    requires steps[j] == CheckOpen(second) || steps[j] == CheckAgain(second)
    requires var p, q := states[i].threads[first].request, states[j].threads[second].request;
      Seals(p, states[i].threads[first].phase.result) && q.session == p.session && q.turn == p.turn &&
        q.kind != ReadOnly
    ensures states[j].now >= states[i].now + SEAL_SECONDS
  {
    var p, q := states[i].threads[first].request, states[j].threads[second].request;
    var seal := Seal(TurnKey(q.session, q.turn.value), LockOf(p), states[i].now + SEAL_SECONDS);
    assert seal in states[i + 1].seals;
    SealStays(states, steps, i + 1, j, seal);
    RunKeeps(states, steps, j);
    assert SealsInForce(states[j]);
  }

  lemma {:induction false} PoppedStays(states: seq<State>, steps: seq<Step>, i: nat, j: nat, token: nat)
    requires RunOf(states, steps) && i <= j < |states| && token in states[i].popped
    ensures token in states[j].popped
  {
    if i < j { PoppedStays(states, steps, i, j - 1, token); }
  }

  /** A grant is good for one call: of two calls with one token the later finds nothing. */
  lemma GrantIsSingleUse(states: seq<State>, steps: seq<Step>, i: nat, j: nat, first: nat, second: nat, token: nat,
                         p: Request, q: Request)
    requires RunOf(states, steps) && i < j < |steps| && steps[i] == Pop(first, token, p)
    requires steps[j] == Pop(second, token, q)
    requires token in states[i].tables.grants
    ensures token !in states[j].tables.grants
  {
    assert token in states[i + 1].popped;
    PoppedStays(states, steps, i + 1, j, token);
    RunKeeps(states, steps, j);
  }

  // ---------------------------------------------------------------- the tables, updated in place

  class Admission {
    var grants: map<nat, Grant>
    var results: map<nat, Entry>
    var closed: map<TurnKey, nat>

    ghost function View(): Tables
      reads this
    {
      Tables(grants, results, closed)
    }

    constructor ()
      ensures View() == Tables(map[], map[], map[])
    {
      grants, results, closed := map[], map[], map[];
    }

    /** authorize up to its check; false stands for the exception. */
    method AuthorizeCheck(q: Request, at: nat) returns (open: bool)
      modifies this
      ensures View() == Evict(old(View()), at)
      ensures open <==> !Refused(View(), q)
    {
      grants := map k | k in grants && grants[k].expires > at :: grants[k];
      results := map k | k in results && results[k].expires > at :: results[k];
      closed := map k | k in closed && closed[k] > at :: closed[k];
      open := true;
      if q.turn.Some? && q.kind != ReadOnly {
        open := !(TurnKey(q.session, q.turn.value) in closed && q.invocation !in results);
      }
    }

    method PopGrant(token: nat) returns (found: Option<Grant>)
      modifies this`grants
      ensures found == if token in old(grants) then Some(old(grants)[token]) else None
      ensures grants == old(grants) - {token}
    {
      found := None;
      if token in grants {
        found := Some(grants[token]);
        grants := grants - {token};
      } else {
        assert grants - {token} == grants;
      }
    }

    method CachedResult(q: Request) returns (r: Lookup)
      ensures r == LookUp(View(), q)
    {
      if q.invocation !in results { return Miss; }
      var e := results[q.invocation];
      if e.session != q.session || e.tool != q.tool || e.input != q.input { return Mismatch; }
      r := Hit(e.result);
    }

    method ValidateTurnOpen(q: Request, now: nat) returns (open: bool)
      ensures open <==> !Sealed(View(), q, now)
    {
      if q.kind == ReadOnly || q.turn == None { return true; }
      var key := TurnKey(q.session, q.turn.value);
      open := !(key in closed && closed[key] > now);
    }

    method Remember(q: Request, lock: Option<LockKey>, result: ToolResult, now: nat)
      modifies this`results
      ensures View() == CacheResult(old(View()), q, lock, result, now)
    {
      var kept := if q.invocation in results then results[q.invocation].writers else {};
      var writers := kept + if lock.Some? then {lock.value} else {};
      results := results[q.invocation := Entry(q.session, q.tool, q.input, result, now + RESULT_SECONDS, writers)];
    }

    method SealTurnIfRequested(q: Request, result: ToolResult, now: nat)
      modifies this`closed
      ensures View() == SealTurn(old(View()), q, result, now)
    {
      if !result.ok || !result.endTurn || q.turn == None { return; }
      closed := closed[TurnKey(q.session, q.turn.value) := now + SEAL_SECONDS];
    }
  }
}
