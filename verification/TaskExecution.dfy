/**
 The execution of a task as the tools see it: activity claims it, a confirmed stop ends it, and the facts
 that guarded rules ask for are read from it.
 */
module TaskExecution {
  import opened Common
  import opened TaskFields
  import opened WorkflowDefinition
  import opened WorkflowActions

  /** The one row of a record; `stopped` rows are receipts. */
  datatype Execution = Execution(agent: string, session: string, turn: Option<string>, active: bool)

  type Executions = map<string, Execution>

  /** A successful tool result about a card: its record, status and agent as the tool returned them. */
  datatype Activity = Activity(record: string, executing: bool, taskAgent: Value, agent: string, session: string,
    turn: Option<string>)

  /** sync_activity: the agent of an executing card claims its execution; a card that left those states loses it. */
  function Sync(table: Executions, a: Activity): Executions {
    if a.executing && a.taskAgent == Text(a.agent) then
      var kept := if a.record in table then table[a.record].turn else None;
      table[a.record := Execution(a.agent, a.session, if a.turn.Some? then a.turn else kept, true)]
    else if !a.executing then table - {a.record}
    else table
  }

  /** What a stop request read before it interrupted the turn. */
  datatype Receipt = Receipt(record: string, agent: string, session: string, turn: string)

  predicate Matches(table: Executions, r: Receipt) {
    r.record in table && table[r.record] == Execution(r.agent, r.session, Some(r.turn), true)
  }

  /** The guarded UPDATE that records a stop after the turn was interrupted. */
  function RecordStop(table: Executions, r: Receipt): Executions {
    if Matches(table, r) then table[r.record := table[r.record].(active := false)] else table
  }

  /** The rebinding UPDATE of a continuation. */
  function RebindTurn(table: Executions, r: Receipt, turn: string): Executions {
    if Matches(table, r) then table[r.record := table[r.record].(turn := Some(turn))] else table
  }

  datatype Move = DoSync(activity: Activity) | DoStop(receipt: Receipt) | DoRebind(receipt: Receipt, turn: string)

  function Apply(table: Executions, m: Move): Executions {
    match m
    case DoSync(a) => Sync(table, a)
    case DoStop(r) => RecordStop(table, r)
    case DoRebind(r, turn) => RebindTurn(table, r, turn)
  }

  function ApplyAll(table: Executions, moves: seq<Move>): Executions {
    if moves == [] then table else Apply(ApplyAll(table, moves[..|moves| - 1]), moves[|moves| - 1])
  }

  /** The move is activity of the agent that the record's executing card names. */
  predicate ClaimsRecord(m: Move, record: string) {
    m.DoSync? && m.activity.record == record && m.activity.executing && m.activity.taskAgent == Text(m.activity.agent)
  }

  predicate ReleasesRecord(m: Move, record: string) {
    m.DoSync? && m.activity.record == record && !m.activity.executing
  }

  /** The last claim of the record among the moves is number `k`, and nothing released the record since. */
  ghost predicate LastClaim(moves: seq<Move>, record: string, k: nat) {
    k < |moves| && ClaimsRecord(moves[k], record) &&
    forall j :: k < j < |moves| ==> !ClaimsRecord(moves[j], record) && !ReleasesRecord(moves[j], record)
  }

  ghost predicate LastClaimedBy(moves: seq<Move>, record: string, k: nat, e: Execution) {
    LastClaim(moves, record, k) && e.agent == moves[k].activity.agent && e.session == moves[k].activity.session
  }

  /** However activity, stops and rebinds interleave, an active execution belongs to the agent and session whose
      activity claimed the record last, and the card has not left its execution states since. */
  lemma {:induction false} ActiveIsLastClaim(moves: seq<Move>, record: string)
    requires record in ApplyAll(map[], moves) && ApplyAll(map[], moves)[record].active
    ensures exists k: nat :: LastClaimedBy(moves, record, k, ApplyAll(map[], moves)[record])
  {
    var n := |moves| - 1;
    if ClaimsRecord(moves[n], record) {
      assert LastClaimedBy(moves, record, n, ApplyAll(map[], moves)[record]);
    } else {
      ActiveIsLastClaim(moves[..n], record);
      var k: nat :| LastClaimedBy(moves[..n], record, k, ApplyAll(map[], moves[..n])[record]);
      assert moves[k] == moves[..n][k];
      assert forall j :: k < j < n ==> moves[j] == moves[..n][j];
      assert LastClaimedBy(moves, record, k, ApplyAll(map[], moves)[record]);
    }
  }

  /** The last move that left the record at this turn was made for this turn. */
  predicate BringsTurn(m: Move, r: Receipt) {
    match m
    case DoSync(a) => a.record == r.record && a.agent == r.agent && a.session == r.session &&
      (a.turn == Some(r.turn) || a.turn == None)
    case DoStop(_) => false
    case DoRebind(q, turn) => q.record == r.record && q.agent == r.agent && q.session == r.session && turn == r.turn
  }

  /** A late stop never revokes a newer turn: when the record was moved to another turn after the stop read it, the
      stop writes nothing unless a later move brought the very turn back. */
  lemma {:induction false} LateStopNeedsItsTurn(table: Executions, moves: seq<Move>, r: Receipt)
    requires !Matches(table, r) && Matches(ApplyAll(table, moves), r)
    ensures exists k :: 0 <= k < |moves| && BringsTurn(moves[k], r)
  {
    if moves != [] {
      var n := |moves| - 1;
      if Matches(ApplyAll(table, moves[..n]), r) {
        LateStopNeedsItsTurn(table, moves[..n], r);
        var k :| 0 <= k < n && BringsTurn(moves[..n][k], r);
        assert moves[k] == moves[..n][k];
      } else {
        assert BringsTurn(moves[n], r);
      }
    }
  }

  // ---------------------------------------------------------------- the facts of guarded rules

  /** What runtime_facts asks about the executing agent. */
  datatype Executor = Gone | OtherHarness | Codex(session: string, serving: bool, unavailable: bool)

  predicate Stopped(table: Executions, record: string, agent: string, session: string) {
    record in table && table[record].agent == agent && table[record].session == session &&
    !table[record].active && table[record].turn.Some?
  }

  predicate GuardedState(def: Definition, status: Option<string>) {
    status.Some? &&
    exists key :: key in def.actions &&
      exists r :: r in def.actions[key].rules && r.guards != [] && status.value in r.sources
  }

  /** runtime_facts for a card whose executor was looked up. */
  function RuntimeFacts(def: Definition, table: Executions, record: string, task: Task,
                        executor: Executor): set<Guard> {
    if !GuardedState(def, StatusOf(task)) then {}
    else if TextOf(Get(task, AgentId)) == "" then
      if record in table && table[record].active then {} else {ExecutorUnavailable, ExecutionStopped}
    else match executor
      case Gone => {ExecutorUnavailable, ExecutionStopped}
      case OtherHarness => {}
      case Codex(session, serving, unavailable) =>
        if Stopped(table, record, TextOf(Get(task, AgentId)), session) then {ExecutionStopped}
        else if serving then {}
        else if unavailable then {ExecutorUnavailable, ExecutionStopped}
        else {}
  }

  predicate Lost(task: Task, executor: Executor) {
    TextOf(Get(task, AgentId)) != "" &&
      (executor.Gone? || (executor.Codex? && !executor.serving && executor.unavailable))
  }

  /** While a record has an active execution its card counts as stopped only if the executor is lost for good. */
  lemma ActiveIsNotStopped(def: Definition, table: Executions, record: string, task: Task, executor: Executor)
    requires record in table && table[record].active
    requires ExecutionStopped in RuntimeFacts(def, table, record, task, executor)
    ensures Lost(task, executor)
  {
  }

  lemma {:induction false} GuardsAreMet(guards: seq<Guard>, facts: set<Guard>, g: Guard)
    requires FirstMissing(guards, facts) == None && g in guards
    ensures g in facts
  {
    if guards[0] != g { GuardsAreMet(guards[1..], facts, g); }
  }

  lemma ValidatedGuards(a: Assignment, def: Definition, r: Rule, before: Option<Task>, payload: Task, facts: set<Guard>)
    requires ValidateRule(a, def, r, before, payload, facts) == None
    ensures FirstMissing(r.guards, facts) == None
  {
  }

  /** No rule that waits for the execution to stop is accepted while the record's execution is active,
      unless its executor is lost for good. */
  lemma GuardedActionWaits(a: Assignment, def: Definition, key: ActionKey, table: Executions, record: string,
                           task: Task, payload: Task,
                           variant: Option<string>, confirmed: bool, executor: Executor)
    requires key in def.actions && record in table && table[record].active
    requires var facts := RuntimeFacts(def, table, record, task, executor);
      var result := PrepareExisting(a, def, key, task, payload, variant, confirmed, facts);
      result.Ok? && !result.value.applied && ExecutionStopped in result.value.rule.guards
    ensures Lost(task, executor)
  {
    var facts := RuntimeFacts(def, table, record, task, executor);
    var p := PrepareExisting(a, def, key, task, payload, variant, confirmed, facts).value;
    AcceptedRule(a, def, key, task, payload, variant, confirmed, facts);
    ValidatedGuards(a, def, p.rule, Some(task), payload, facts);
    GuardsAreMet(p.rule.guards, facts, ExecutionStopped);
    ActiveIsNotStopped(def, table, record, task, executor);
  }

  // ---------------------------------------------------------------- the table, updated in place

  class ExecutionTable {
    var rows: Executions

    constructor ()
      ensures rows == map[]
    {
      rows := map[];
    }

    method SyncActivity(a: Activity)
      modifies this
      ensures rows == Sync(old(rows), a)
    {
      if a.executing && a.taskAgent == Text(a.agent) {
        if a.record !in rows {
          rows := rows[a.record := Execution(a.agent, a.session, a.turn, true)];
        } else {
          var r := rows[a.record];
          rows := rows[a.record := r.(agent := a.agent, session := a.session, active := true,
            turn := if a.turn.Some? then a.turn else r.turn)];
        }
      } else if !a.executing {
        rows := rows - {a.record};
      }
    }

    /** The last write of stop_execution; false stands for the conflict it reports. */
    method ConfirmStop(r: Receipt) returns (hit: bool)
      modifies this
      ensures hit <==> Matches(old(rows), r)
      ensures rows == RecordStop(old(rows), r)
    {
      hit := r.record in rows && rows[r.record].agent == r.agent && rows[r.record].session == r.session
             && rows[r.record].turn == Some(r.turn) && rows[r.record].active;
      if hit { rows := rows[r.record := rows[r.record].(active := false)]; }
    }
  }
}
