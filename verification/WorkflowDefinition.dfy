/** A workflow definition and the validator that accepts it. */
module WorkflowDefinition {
  import opened Common
  import opened TaskFields
  import opened StateGraph

  datatype ActionKey = Create | Update | Route | Claim | Submit | Block | Review | Cancel

  datatype Actor = Coordinator | TaskRole | AssignedAgent

  datatype Guard = ExecutorUnavailable | ExecutionStopped

  datatype Prefix = Prefix(field: Field, prefix: string)

  datatype Rule = Rule(
    key: string, actors: seq<Actor>, roles: seq<string>, sources: seq<string>, to: Option<string>,
    writable: seq<Field>, requiredInputs: seq<Field>, requiredTask: seq<Field>,
    defaults: map<Field, Value>, fixed: map<Field, Value>, prefixes: seq<Prefix>,
    actorFields: seq<Field>, clear: seq<Field>, fieldValues: map<Field, seq<Value>>, guards: seq<Guard>)

  datatype Action = Action(confirmation: bool, rules: seq<Rule>)

  datatype State = State(dispatches: bool, required: seq<Field>)

  datatype Definition = Definition(
    states: map<string, State>, initial: string, terminal: set<string>, completion: set<string>,
    coordinator: string, roles: set<string>, taskTypes: map<string, string>, waitingTargets: set<string>,
    actions: map<ActionKey, Action>)

  const ACTION_KEYS: seq<ActionKey> := [Create, Update, Route, Claim, Submit, Block, Review, Cancel]

  predicate Distinct<T(==)>(xs: seq<T>) {
    forall j, k :: 0 <= j < k < |xs| ==> xs[j] != xs[k]
  }

  /** The option fields and the keys they accept. */
  function Options(def: Definition, f: Field): Option<set<string>> {
    match f
    case Status => Some(def.states.Keys)
    case Type => Some(def.taskTypes.Keys)
    case Priority => Some({"P0", "P1", "P2", "P3"})
    case Role => Some(def.roles)
    case WaitingOn => Some(def.waitingTargets)
    case DeliveryMode => Some({"standard", "repository"})
    case _ => None
  }

  predicate OptionOk(def: Definition, f: Field, v: Value) {
    var options := Options(def, f);
    options.Some? && f != DeliveryMode ==> v.Text? && v.text in options.value
  }

  predicate GuardSupported(action: ActionKey, guard: Guard) {
    match guard
    case ExecutorUnavailable => action == Route
    case ExecutionStopped => action == Route || action == Cancel
  }

  // ---------------------------------------------------------------- one rule

  predicate ActorsOk(def: Definition, r: Rule) {
    r.actors != [] && Distinct(r.actors) && Distinct(r.roles) && forall role :: role in r.roles ==> role in def.roles
  }

  predicate StatesOk(def: Definition, action: ActionKey, r: Rule) {
    Distinct(r.sources) && (forall s :: s in r.sources ==> s in def.states && s !in def.terminal) &&
    match action
    case Create => r.sources == [] && r.to == Some(def.initial)
    case Update => r.sources != [] && r.to == None
    case _ => r.sources != [] && r.to.Some? && r.to.value in def.states
  }

  predicate FieldList(fields: seq<Field>) {
    Distinct(fields) && forall f :: f in fields ==> Known(f)
  }

  predicate WritesOk(r: Rule) {
    FieldList(r.writable) && FieldList(r.requiredInputs) && FieldList(r.requiredTask) && FieldList(r.clear) &&
    (forall f :: f in r.writable ==> DirectlyWritable(f)) &&
    (forall f :: f in r.requiredInputs ==> f in r.writable) &&
    (forall f :: f in r.clear ==> Clearable(f)) &&
    (forall f :: f in r.defaults ==> DirectlyWritable(f)) &&
    (forall f :: f in r.fixed ==> DirectlyWritable(f)) &&
    (forall p :: p in r.prefixes ==> p.field in r.writable && Strip(p.prefix) != "") &&
    (forall j, k :: 0 <= j < k < |r.prefixes| ==> r.prefixes[j].field != r.prefixes[k].field) &&
    Distinct(r.actorFields) && (forall f :: f in r.actorFields ==> f == AgentName || f == AgentId)
  }

  predicate ValuesOk(def: Definition, r: Rule) {
    (forall f :: f in r.defaults ==> OptionOk(def, f, r.defaults[f])) &&
    (forall f :: f in r.fixed ==> OptionOk(def, f, r.fixed[f])) &&
    (forall f :: f in r.fieldValues ==> f in r.writable && AllowedOk(def, f, r.fieldValues[f]))
  }

  predicate AllowedOk(def: Definition, f: Field, values: seq<Value>) {
    values != [] && forall v :: v in values ==> v.Text? && v.text != "" && OptionOk(def, f, v)
  }

  predicate GuardsOk(action: ActionKey, r: Rule) {
    Distinct(r.guards) && forall g :: g in r.guards ==> GuardSupported(action, g)
  }

  /** _validate_action_rule. */
  predicate ValidRule(def: Definition, action: ActionKey, r: Rule) {
    ActorsOk(def, r) && StatesOk(def, action, r) && WritesOk(r) && ValuesOk(def, r) && GuardsOk(action, r)
  }

  // ---------------------------------------------------------------- the lifecycle

  predicate KeysOk(rules: seq<Rule>) {
    rules != [] && forall j, k :: 0 <= j < k < |rules| ==> rules[j].key != rules[k].key
  }

  predicate ActionOk(def: Definition, key: ActionKey, a: Action) {
    (a.confirmation ==> key == Cancel) && KeysOk(a.rules) && (key == Create ==> |a.rules| == 1) &&
    forall r :: r in a.rules ==> ValidRule(def, key, r)
  }

  predicate LifecycleOk(def: Definition) {
    def.coordinator in def.roles && (forall t :: t in def.taskTypes ==> def.taskTypes[t] in def.roles) &&
    (forall s :: s in def.states ==> Strip(s) != "" && FieldList(def.states[s].required)) &&
    def.initial in def.states && def.terminal != {} && def.terminal <= def.states.Keys &&
    def.completion != {} && def.completion <= def.terminal && def.initial !in def.terminal &&
    (forall s :: s in def.terminal ==> !def.states[s].dispatches) &&
    (forall k: ActionKey :: k in def.actions)
  }

  predicate Moves(key: ActionKey) {
    key != Create && key != Update
  }

  /** A rule that takes a task from one state to another. */
  predicate MovesBy(def: Definition, key: ActionKey, r: Rule, s: string, d: string) {
    Moves(key) && key in def.actions && r in def.actions[key].rules && s in r.sources && r.to == Some(d)
  }

  ghost predicate Moved(def: Definition, s: string, d: string) {
    exists key, r :: MovesBy(def, key, r, s, d)
  }

  /** The edges the validator collects. */
  ghost predicate CollectedEdges(def: Definition, edges: Edges) {
    edges.Keys == def.states.Keys &&
    (forall s, d :: Edge(edges, s, d) <==> Moved(def, s, d))
  }

  ghost predicate GraphOk(def: Definition) {
    exists edges :: CollectedEdges(def, edges) && EveryStateEntered(edges, def.initial) &&
      EveryOpenStateEnds(edges, def.terminal)
  }

  predicate RulesOk(def: Definition)
    requires LifecycleOk(def)
  {
    forall key: ActionKey :: ActionOk(def, key, def.actions[key])
  }

  ghost predicate Valid(def: Definition) {
    LifecycleOk(def) && RulesOk(def) && GraphOk(def)
  }

  // ---------------------------------------------------------------- collecting the edges

  function EdgeSet(def: Definition, s: string): set<string> {
    set key, r, d | key in def.actions.Keys && r in def.actions[key].rules && d in def.states.Keys &&
      MovesBy(def, key, r, s, d) :: d
  }

  function EdgesOf(def: Definition): Edges {
    map s | s in def.states :: EdgeSet(def, s)
  }

  lemma RuleIsValid(def: Definition, key: ActionKey, r: Rule)
    requires LifecycleOk(def) && RulesOk(def) && key in def.actions && r in def.actions[key].rules
    ensures ValidRule(def, key, r)
  {
    assert ActionOk(def, key, def.actions[key]);
  }

  lemma MoveIsDeclared(def: Definition, key: ActionKey, r: Rule, s: string, d: string)
    requires LifecycleOk(def) && RulesOk(def) && MovesBy(def, key, r, s, d)
    ensures s in def.states && s !in def.terminal && d in def.states
  {
    RuleIsValid(def, key, r);
    assert StatesOk(def, key, r);
  }

  lemma EdgeMember(def: Definition, s: string, d: string)
    requires LifecycleOk(def) && RulesOk(def)
    ensures d in EdgeSet(def, s) <==> Moved(def, s, d)
    ensures Moved(def, s, d) ==> s in def.states && d in def.states
  {
    if Moved(def, s, d) {
      var key, r :| MovesBy(def, key, r, s, d);
      MoveIsDeclared(def, key, r, s, d);
    }
  }

  lemma EdgesAreCollected(def: Definition)
    requires LifecycleOk(def) && RulesOk(def)
    ensures CollectedEdges(def, EdgesOf(def)) && Closed(EdgesOf(def))
  {
    forall s, d ensures Edge(EdgesOf(def), s, d) <==> Moved(def, s, d) {
      EdgeMember(def, s, d);
    }
    forall s, d | Edge(EdgesOf(def), s, d) ensures d in EdgesOf(def) {
      EdgeMember(def, s, d);
    }
  }

  function IndexOf(key: ActionKey): (i: nat)
    ensures i < |ACTION_KEYS| && ACTION_KEYS[i] == key
  {
    match key
    case Create => 0
    case Update => 1
    case Route => 2
    case Claim => 3
    case Submit => 4
    case Block => 5
    case Review => 6
    case Cancel => 7
  }

  lemma SameEdges(def: Definition, a: Edges, b: Edges)
    requires CollectedEdges(def, a) && CollectedEdges(def, b)
    ensures a == b
  {
    forall s | s in a ensures a[s] == b[s] {
      forall d ensures d in a[s] <==> d in b[s] {
        assert Edge(a, s, d) <==> Edge(b, s, d);
      }
    }
  }

  /** A move by a rule that the nested loops have already visited. */
  ghost predicate Visited(def: Definition, i: nat, j: nat, s: string, d: string)
    requires LifecycleOk(def)
  {
    exists a: nat, b: nat :: At(def, a, b) && (a < i || (a == i && b < j)) &&
      MovesBy(def, ACTION_KEYS[a], def.actions[ACTION_KEYS[a]].rules[b], s, d)
  }

  ghost predicate At(def: Definition, a: nat, b: nat)
    requires LifecycleOk(def)
  {
    a < |ACTION_KEYS| && b < |def.actions[ACTION_KEYS[a]].rules|
  }

  lemma VisitedAll(def: Definition, s: string, d: string)
    requires LifecycleOk(def)
    ensures Visited(def, |ACTION_KEYS|, 0, s, d) <==> Moved(def, s, d)
  {
    if Moved(def, s, d) {
      var key, r :| MovesBy(def, key, r, s, d);
      var b :| 0 <= b < |def.actions[key].rules| && def.actions[key].rules[b] == r;
      assert At(def, IndexOf(key), b);
    }
  }

  lemma VisitedNext(def: Definition, i: nat, j: nat, s: string, d: string)
    requires LifecycleOk(def) && At(def, i, j)
    ensures Visited(def, i, j + 1, s, d)
      <==> Visited(def, i, j, s, d) || MovesBy(def, ACTION_KEYS[i], def.actions[ACTION_KEYS[i]].rules[j], s, d)
  {
    if Visited(def, i, j + 1, s, d) {
      var a: nat, b: nat :| At(def, a, b) && (a < i || (a == i && b < j + 1))
        && MovesBy(def, ACTION_KEYS[a], def.actions[ACTION_KEYS[a]].rules[b], s, d);
    }
  }

  lemma VisitedAction(def: Definition, i: nat, s: string, d: string)
    requires LifecycleOk(def) && i < |ACTION_KEYS|
    ensures Visited(def, i + 1, 0, s, d) <==> Visited(def, i, |def.actions[ACTION_KEYS[i]].rules|, s, d)
  {
    if Visited(def, i + 1, 0, s, d) {
      var a: nat, b: nat :| At(def, a, b) && (a < i + 1 || (a == i + 1 && b < 0))
        && MovesBy(def, ACTION_KEYS[a], def.actions[ACTION_KEYS[a]].rules[b], s, d);
    }
  }

  /** The nested loops that collect the edges. */
  method CollectEdges(def: Definition) returns (edges: Edges)
    requires LifecycleOk(def) && RulesOk(def)
    ensures edges == EdgesOf(def)
  {
    edges := map s | s in def.states :: {};
    for i := 0 to |ACTION_KEYS|
      invariant edges.Keys == def.states.Keys && forall s, d :: Edge(edges, s, d) <==> Visited(def, i, 0, s, d)
    {
      edges := CollectAction(def, i, edges);
      forall s, d ensures Edge(edges, s, d) <==> Visited(def, i + 1, 0, s, d) { VisitedAction(def, i, s, d); }
    }
    forall s, d ensures Edge(edges, s, d) <==> Moved(def, s, d) { VisitedAll(def, s, d); }
    EdgesAreCollected(def);
    SameEdges(def, edges, EdgesOf(def));
  }

  method CollectAction(def: Definition, i: nat, before: Edges) returns (edges: Edges)
    requires LifecycleOk(def) && RulesOk(def) && i < |ACTION_KEYS| && before.Keys == def.states.Keys
    requires forall s, d :: Edge(before, s, d) <==> Visited(def, i, 0, s, d)
    ensures edges.Keys == def.states.Keys
    ensures forall s, d :: Edge(edges, s, d) <==> Visited(def, i, |def.actions[ACTION_KEYS[i]].rules|, s, d)
  {
    edges := before;
    var key := ACTION_KEYS[i];
    var rules := def.actions[key].rules;
    for j := 0 to |rules|
      invariant edges.Keys == def.states.Keys && forall s, d :: Edge(edges, s, d) <==> Visited(def, i, j, s, d)
    {
      ghost var seen := edges;
      RuleIsValid(def, key, rules[j]);
      if Moves(key) { edges := CollectRule(edges, rules[j].sources, rules[j].to.value); }
      forall s, d ensures Edge(edges, s, d) <==> Visited(def, i, j + 1, s, d) { VisitedNext(def, i, j, s, d); }
    }
  }

  method CollectRule(before: Edges, sources: seq<string>, destination: string) returns (edges: Edges)
    requires forall s :: s in sources ==> s in before
    ensures edges.Keys == before.Keys
    ensures forall s, d :: Edge(edges, s, d) <==> Edge(before, s, d) || (s in sources && d == destination)
  {
    edges := before;
    for k := 0 to |sources|
      invariant edges.Keys == before.Keys
      invariant forall s, d :: Edge(edges, s, d) <==> Edge(before, s, d) || (s in sources[..k] && d == destination)
    {
      edges := edges[sources[k] := edges[sources[k]] + {destination}];
      assert sources[..k + 1] == sources[..k] + [sources[k]];
    }
    assert sources[..|sources|] == sources;
  }

  /** validate_workflow_definition, as far as the lifecycle goes. */
  method Validate(def: Definition) returns (ok: bool)
    ensures ok <==> Valid(def)
  {
    if !LifecycleOk(def) { return false; }
    ok := ValidateRules(def);
    if !ok { return; }
    EdgesAreCollected(def);
    var edges := CollectEdges(def);
    var verdict := ValidateStateGraph(edges, def.initial, def.terminal);
    ok := verdict == Accepted;
    if GraphOk(def) {
      ghost var other :| CollectedEdges(def, other) && EveryStateEntered(other, def.initial) &&
        EveryOpenStateEnds(other, def.terminal);
      SameEdges(def, edges, other);
    }
  }

  method ValidateRules(def: Definition) returns (ok: bool)
    requires LifecycleOk(def)
    ensures ok <==> RulesOk(def)
  {
    for k := 0 to |ACTION_KEYS|
      invariant forall j :: 0 <= j < k ==> ActionOk(def, ACTION_KEYS[j], def.actions[ACTION_KEYS[j]])
    {
      if !ActionOk(def, ACTION_KEYS[k], def.actions[ACTION_KEYS[k]]) {
        return false;
      }
    }
    forall key: ActionKey ensures ActionOk(def, key, def.actions[key]) {
      assert ActionOk(def, ACTION_KEYS[IndexOf(key)], def.actions[ACTION_KEYS[IndexOf(key)]]);
    }
    ok := true;
  }
}
