/** The interpreter of a workflow definition: which rule applies, what it writes, and what every accepted action keeps.
    */
module WorkflowActions {
  import opened Common
  import opened TaskFields
  import opened WorkflowDefinition
  import opened StateGraph

  datatype Assignment = Assignment(role: string, agentId: string, agentName: string)

  datatype Error =
    | ConfirmationRequired | InvalidOption | InvalidState | PermissionDenied
    | InvalidFields | InvalidValue | MissingFields | TaskNotReady | PreconditionFailed(guard: Guard)

  datatype Prepared = Prepared(rule: Rule, patch: Task, applied: bool)

  // ---------------------------------------------------------------- what a rule demands

  function Destination(r: Rule): Option<string> {
    if r.to.Some? && r.to.value != "" then r.to else None
  }

  predicate ActorMatches(a: Assignment, def: Definition, actor: Actor, task: Option<Task>) {
    match actor
    case Coordinator => a.role == def.coordinator
    case TaskRole => task.Some? && Get(task.value, Role) == Text(a.role)
    case AssignedAgent => task.Some? && Get(task.value, AgentId) == Text(a.agentId)
  }

  predicate RuleActorAllowed(a: Assignment, def: Definition, r: Rule, task: Option<Task>) {
    (r.roles == [] || a.role in r.roles) && exists k :: 0 <= k < |r.actors| && ActorMatches(a, def, r.actors[k], task)
  }

  predicate RuleValuesAllowed(r: Rule, payload: Task) {
    forall f :: f in r.fieldValues && f in payload ==> payload[f] in r.fieldValues[f]
  }

  function RequiredTaskFields(def: Definition, r: Rule, merged: Task): seq<Field> {
    var key := if Destination(r).Some? then Destination(r) else StatusOf(merged);
    r.requiredTask + if key.Some? && key.value in def.states then def.states[key.value].required else []
  }

  function StatusOf(task: Task): Option<string> {
    match Get(task, Status)
    case Text(s) => Some(s)
    case _ => None
  }

  // ---------------------------------------------------------------- the patch

  function PrefixOne(patch: Task, p: Prefix): Task {
    var value := Get(patch, p.field);
    if Blank(value) || p.prefix <= Str(value) then patch else patch[p.field := Text(p.prefix + Str(value))]
  }

  function ApplyPrefixes(patch: Task, prefixes: seq<Prefix>): Task
    decreases |prefixes|
  {
    if prefixes == [] then patch else ApplyPrefixes(PrefixOne(patch, prefixes[0]), prefixes[1..])
  }

  function ActorValue(a: Assignment, f: Field): Value {
    if f == AgentName then Text(a.agentName) else Text(a.agentId)
  }

  function BindFields(patch: Task, a: Assignment, fields: seq<Field>): Task
    decreases |fields|
  {
    if fields == [] then patch else BindFields(patch[fields[0] := ActorValue(a, fields[0])], a, fields[1..])
  }

  function Cleared(patch: Task, fields: seq<Field>): Task
    decreases |fields|
  {
    if fields == [] then patch else Cleared(patch[fields[0] := Null], fields[1..])
  }

  function StatusMap(r: Rule): Task {
    if Destination(r).Some? then map[Status := Text(Destination(r).value)] else map[]
  }

  function ActionPatch(a: Assignment, r: Rule, payload: Task): Task {
    var filled := ApplyPrefixes(r.defaults + payload + r.fixed, r.prefixes);
    Cleared(BindFields(filled, a, r.actorFields), r.clear) + StatusMap(r)
  }

  /** action_patch as written: one dictionary, filled in order. */
  method BuildPatch(a: Assignment, r: Rule, payload: Task) returns (patch: Task)
    ensures patch == ActionPatch(a, r, payload)
  {
    hide ApplyPrefixes, BindFields, Cleared;
    patch := r.defaults + payload + r.fixed;
    patch := AddPrefixes(patch, r.prefixes);
    patch := BindActor(patch, a, r.actorFields);
    patch := ClearFields(patch, r.clear);
    if r.to.Some? && r.to.value != "" { patch := patch[Status := Text(r.to.value)]; }
  }

  method AddPrefixes(start: Task, prefixes: seq<Prefix>) returns (patch: Task)
    ensures patch == ApplyPrefixes(start, prefixes)
  {
    patch := start;
    assert prefixes[0..] == prefixes;
    for k := 0 to |prefixes|
      invariant ApplyPrefixes(patch, prefixes[k..]) == ApplyPrefixes(start, prefixes)
    {
      assert prefixes[k..][0] == prefixes[k] && prefixes[k..][1..] == prefixes[k + 1..];
      var p := prefixes[k];
      var value := Get(patch, p.field);
      if !Blank(value) && !(p.prefix <= Str(value)) { patch := patch[p.field := Text(p.prefix + Str(value))]; }
    }
  }

  method BindActor(start: Task, a: Assignment, fields: seq<Field>) returns (patch: Task)
    ensures patch == BindFields(start, a, fields)
  {
    patch := start;
    assert fields[0..] == fields;
    for k := 0 to |fields|
      invariant BindFields(patch, a, fields[k..]) == BindFields(start, a, fields)
    {
      assert fields[k..][0] == fields[k] && fields[k..][1..] == fields[k + 1..];
      patch := patch[fields[k] := if fields[k] == AgentName then Text(a.agentName) else Text(a.agentId)];
    }
  }

  method ClearFields(start: Task, fields: seq<Field>) returns (patch: Task)
    ensures patch == Cleared(start, fields)
  {
    patch := start;
    assert fields[0..] == fields;
    for k := 0 to |fields|
      invariant Cleared(patch, fields[k..]) == Cleared(start, fields)
    {
      assert fields[k..][0] == fields[k] && fields[k..][1..] == fields[k + 1..];
      patch := patch[fields[k] := Null];
    }
  }

  // ---------------------------------------------------------------- validate_rule

  predicate HasAll(payload: Task, fields: seq<Field>) {
    forall f :: f in fields ==> !Blank(Get(payload, f))
  }

  predicate ValuesValid(def: Definition, patch: Task) {
    forall f :: f in patch && Options(def, f).Some? && !Blank(patch[f]) ==>
      patch[f].Text? && patch[f].text in Options(def, f).value
  }

  predicate OnlyWrites(payload: Task, r: Rule) {
    forall f :: f in payload ==> f in r.writable
  }

  function MissingGuard(r: Rule, facts: set<Guard>): Option<Guard> {
    FirstMissing(r.guards, facts)
  }

  function FirstMissing(guards: seq<Guard>, facts: set<Guard>): Option<Guard> {
    if guards == [] then None else if guards[0] !in facts then Some(guards[0]) else FirstMissing(guards[1..], facts)
  }

  function ValidateRule(a: Assignment, def: Definition, r: Rule, task: Option<Task>, payload: Task,
                        facts: set<Guard>): Option<Error> {
    var patch := ActionPatch(a, r, payload);
    var merged := (if task.Some? then task.value else map[]) + patch;
    if !RuleActorAllowed(a, def, r, task) then Some(PermissionDenied)
    else if !OnlyWrites(payload, r) || (exists f :: f in payload && DeliveryManaged(f)) then Some(InvalidFields)
    else if !HasAll(payload, r.requiredInputs) then Some(MissingFields)
    else if !RuleValuesAllowed(r, payload) then Some(InvalidValue)
    else if !ValuesValid(def, patch) then Some(InvalidValue)
    else if !HasAll(merged, RequiredTaskFields(def, r, merged)) then Some(TaskNotReady)
    else if MissingGuard(r, facts).Some? then Some(PreconditionFailed(MissingGuard(r, facts).value))
    else None
  }

  // ---------------------------------------------------------------- prepare

  function Filter(p: Rule -> bool, xs: seq<Rule>): (r: seq<Rule>)
    ensures forall x :: x in r <==> x in xs && p(x)
  {
    if xs == [] then []
    else (if p(xs[0]) then [xs[0]] else []) + Filter(p, xs[1..])
  }

  predicate ShowsTransition(a: Assignment, def: Definition, r: Rule, task: Task, payload: Task) {
    Destination(r).Some? && StatusOf(task) == Destination(r) && RuleActorAllowed(a, def, r, Some(task)) &&
    OnlyWrites(payload, r) && RuleValuesAllowed(r, payload) && Shows(task, ActionPatch(a, r, payload))
  }

  predicate Shows(task: Task, expected: Task) {
    forall f :: f in expected ==> SameValue(Get(task, f), expected[f])
  }

  predicate ShowsUpdate(a: Assignment, def: Definition, r: Rule, task: Task, payload: Task) {
    RuleActorAllowed(a, def, r, Some(task)) && OnlyWrites(payload, r) && Shows(task, payload)
  }

  function FirstRule(rules: seq<Rule>, p: Rule -> bool): (r: Option<Rule>)
    ensures r.Some? ==> r.value in rules && p(r.value)
    ensures r == None ==> forall x :: x in rules ==> !p(x)
  {
    if rules == [] then None else if p(rules[0]) then Some(rules[0]) else FirstRule(rules[1..], p)
  }

  /** matching_applied_rule. */
  function MatchingApplied(a: Assignment, def: Definition, rules: seq<Rule>, task: Task,
                           payload: Task): (r: Option<Rule>)
    ensures r.Some? ==> r.value in rules
  {
    var moved := FirstRule(rules, (r: Rule) => ShowsTransition(a, def, r, task, payload));
    if moved.Some? then moved
    else if rules != [] && forall r :: r in rules ==> r.to == None
    then FirstRule(rules, (r: Rule) => ShowsUpdate(a, def, r, task, payload))
    else None
  }

  /** All rules of the action, or the ones a variant names. */
  function Candidates(action: Action, variant: Option<string>): seq<Rule> {
    if variant.Some? then Filter((r: Rule) => r.key == variant.value, action.rules) else action.rules
  }

  /** The rule that applies now: the first one left by the successive filters, if it validates. */
  function PrepareNew(a: Assignment, def: Definition, rules: seq<Rule>, task: Task, payload: Task,
                      facts: set<Guard>): Result<Prepared, Error> {
    var status := StatusOf(task);
    var sourced := Filter((r: Rule) => status.Some? && status.value in r.sources, rules);
    var allowed := Filter((r: Rule) => RuleActorAllowed(a, def, r, Some(task)), sourced);
    var writable := Filter((r: Rule) => OnlyWrites(payload, r), allowed);
    var valued := Filter((r: Rule) => RuleValuesAllowed(r, payload), writable);
    if sourced == [] then Err(InvalidState)
    else if allowed == [] then Err(PermissionDenied)
    else if writable == [] then Err(InvalidFields)
    else if valued == [] then Err(InvalidValue)
    else
      var error := ValidateRule(a, def, valued[0], Some(task), payload, facts);
      if error.Some? then Err(error.value) else Ok(Prepared(valued[0], ActionPatch(a, valued[0], payload), false))
  }

  function PrepareExisting(a: Assignment, def: Definition, key: ActionKey, task: Task, payload: Task,
                           variant: Option<string>,
                           confirmed: bool, facts: set<Guard>): Result<Prepared, Error>
    requires key in def.actions
  {
    var rules := Candidates(def.actions[key], variant);
    if def.actions[key].confirmation && !confirmed then Err(ConfirmationRequired)
    else if variant.Some? && rules == [] then Err(InvalidOption)
    else
      var applied := MatchingApplied(a, def, rules, task, payload);
      if applied.Some? then Ok(Prepared(applied.value, map[], true)) else PrepareNew(a, def, rules, task, payload,
        facts)
  }

  /** provided_fields, then the default role of the task type. */
  function CreatePayload(def: Definition, payload: Task): Task {
    var given := map f | f in payload && payload[f] != Null && payload[f] != Text("") :: payload[f];
    if Role !in given && Get(given, Type).Text? && Get(given, Type).text in def.taskTypes
    then given[Role := Text(def.taskTypes[Get(given, Type).text])] else given
  }

  function PrepareCreate(a: Assignment, def: Definition, payload: Task): Result<Prepared, Error>
    requires Create in def.actions && def.actions[Create].rules != []
  {
    var rule := def.actions[Create].rules[0];
    var filled := CreatePayload(def, payload);
    var error := ValidateRule(a, def, rule, None, filled, {});
    if error.Some? then Err(error.value) else Ok(Prepared(rule, ActionPatch(a, rule, filled), false))
  }

  // ---------------------------------------------------------------- what a patch touches

  lemma {:induction false} PrefixesKeepKeys(patch: Task, prefixes: seq<Prefix>)
    ensures ApplyPrefixes(patch, prefixes).Keys == patch.Keys
    decreases |prefixes|
  {
    if prefixes != [] { PrefixesKeepKeys(PrefixOne(patch, prefixes[0]), prefixes[1..]); }
  }

  predicate Confined(f: Field) {
    f != TaskId && !DeliveryManaged(f)
  }

  /** Fields a rule may write without being a transition. */
  predicate Harmless(patch: Task) {
    forall f :: f in patch ==> Confined(f) && f != Status
  }

  lemma BaseIsHarmless(r: Rule, payload: Task)
    requires WritesOk(r) && OnlyWrites(payload, r)
    ensures Harmless(ApplyPrefixes(r.defaults + payload + r.fixed, r.prefixes))
  {
    PrefixesKeepKeys(r.defaults + payload + r.fixed, r.prefixes);
    forall f | f in r.defaults + payload + r.fixed ensures DirectlyWritable(f) { }
  }

  lemma {:induction false} BindIsHarmless(patch: Task, a: Assignment, fields: seq<Field>)
    requires Harmless(patch) && forall f :: f in fields ==> f == AgentName || f == AgentId
    ensures Harmless(BindFields(patch, a, fields))
    decreases |fields|
  {
    if fields != [] {
      assert fields[0] in fields && forall f :: f in fields[1..] ==> f in fields;
      BindIsHarmless(patch[fields[0] := ActorValue(a, fields[0])], a, fields[1..]);
    }
  }

  lemma {:induction false} ClearIsHarmless(patch: Task, fields: seq<Field>)
    requires Harmless(patch) && forall f :: f in fields ==> Clearable(f)
    ensures Harmless(Cleared(patch, fields))
    decreases |fields|
  {
    if fields != [] {
      assert fields[0] in fields && forall f :: f in fields[1..] ==> f in fields;
      ClearIsHarmless(patch[fields[0] := Null], fields[1..]);
    }
  }

  predicate ConfinedPatch(r: Rule, patch: Task) {
    (forall f :: f in patch ==> Confined(f)) && (Status in patch <==> Destination(r).Some?) &&
    (Status in patch ==> patch[Status] == Text(r.to.value))
  }

  /** No accepted rule writes the task id or a delivery fact, and only a transition writes the status. */
  lemma PatchIsConfined(r: Rule, a: Assignment, payload: Task)
    requires WritesOk(r) && OnlyWrites(payload, r)
    ensures ConfinedPatch(r, ActionPatch(a, r, payload))
  {
    var filled := ApplyPrefixes(r.defaults + payload + r.fixed, r.prefixes);
    BaseIsHarmless(r, payload);
    BindIsHarmless(filled, a, r.actorFields);
    ClearIsHarmless(BindFields(filled, a, r.actorFields), r.clear);
    WithStatus(r, Cleared(BindFields(filled, a, r.actorFields), r.clear));
  }

  lemma WithStatus(r: Rule, patch: Task)
    requires Harmless(patch)
    ensures ConfinedPatch(r, patch + StatusMap(r))
  {
  }

  lemma NewRule(a: Assignment, def: Definition, rules: seq<Rule>, task: Task, payload: Task, facts: set<Guard>)
    ensures var result := PrepareNew(a, def, rules, task, payload, facts);
      result.Ok? ==>
        result.value.rule in rules && !result.value.applied && WritesBy(a, def, result.value, task, payload, facts)
  {
    hide ValidateRule, ActionPatch, RuleActorAllowed, RuleValuesAllowed;
  }

  /** An accepted action names a rule of its action; it writes nothing, or that rule leads from the task's status. */
  lemma AcceptedRule(a: Assignment, def: Definition, key: ActionKey, task: Task, payload: Task, variant: Option<string>,
                     confirmed: bool, facts: set<Guard>)
    requires key in def.actions
    ensures var result := PrepareExisting(a, def, key, task, payload, variant, confirmed, facts);
      result.Ok? ==>
        result.value.rule in Candidates(def.actions[key], variant) && result.value.rule in def.actions[key].rules &&
        (result.value.applied ==> result.value.patch == map[]) &&
        (!result.value.applied ==> WritesBy(a, def, result.value, task, payload, facts))
  {
    hide ValidateRule, ActionPatch, ShowsTransition, ShowsUpdate, RuleActorAllowed, RuleValuesAllowed, PrepareNew,
      WritesBy;
    NewRule(a, def, Candidates(def.actions[key], variant), task, payload, facts);
  }

  predicate WritesBy(a: Assignment, def: Definition, p: Prepared, task: Task, payload: Task, facts: set<Guard>) {
    StatusOf(task).Some? && StatusOf(task).value in p.rule.sources && OnlyWrites(payload, p.rule) &&
    p.patch == ActionPatch(a, p.rule, payload) && ValidateRule(a, def, p.rule, Some(task), payload, facts) == None
  }

  // ---------------------------------------------------------------- what an accepted write keeps

  predicate InState(def: Definition, task: Task) {
    StatusOf(task).Some? && StatusOf(task).value in def.states
  }

  /** The task satisfies the fields its own state requires. */
  predicate Ready(def: Definition, task: Task)
    requires InState(def, task)
  {
    HasAll(task, def.states[StatusOf(task).value].required)
  }

  ghost predicate SameFrame(task: Task, task': Task) {
    Get(task', TaskId) == Get(task, TaskId) && forall f :: DeliveryManaged(f) ==> Get(task', f) == Get(task, f)
  }

  function Merged(before: Option<Task>, patch: Task): Task {
    (if before.Some? then before.value else map[]) + patch
  }

  /** What validation leaves to rely on: where the patch writes, and that the written task has the required fields. */
  predicate Sound(def: Definition, r: Rule, before: Option<Task>, patch: Task) {
    ConfinedPatch(r, patch) && HasAll(Merged(before, patch), RequiredTaskFields(def, r, Merged(before, patch)))
  }

  lemma RuleIsSound(a: Assignment, def: Definition, r: Rule, before: Option<Task>, payload: Task, facts: set<Guard>)
    requires WritesOk(r) && ValidateRule(a, def, r, before, payload, facts) == None
    ensures Sound(def, r, before, ActionPatch(a, r, payload))
  {
    PatchIsConfined(r, a, payload);
  }

  /** The status an accepted write leaves is the old one or the end of one of the rule's edges. */
  lemma SoundMove(def: Definition, key: ActionKey, r: Rule, task: Task, patch: Task)
    requires LifecycleOk(def) && StatesOk(def, key, r) && key in def.actions && key != Create
    requires r in def.actions[key].rules
    requires InState(def, task) && StatusOf(task).value in r.sources && ConfinedPatch(r, patch)
    ensures var task' := task + patch;
      InState(def, task') && StatusOf(task).value !in def.terminal &&
      (Destination(r).Some? ==> StatusOf(task') == Destination(r)) &&
      (StatusOf(task') == StatusOf(task) || Moved(def, StatusOf(task).value, StatusOf(task').value))
  {
    if Destination(r).Some? {
      assert key != Update;
      assert MovesBy(def, key, r, StatusOf(task).value, r.to.value);
    } else {
      assert Get(task + patch, Status) == Get(task, Status);
    }
  }

  lemma FrameKept(r: Rule, task: Task, patch: Task)
    requires ConfinedPatch(r, patch)
    ensures SameFrame(task, task + patch)
  {
  }

  lemma ReadyAfter(def: Definition, r: Rule, before: Option<Task>, patch: Task)
    requires Sound(def, r, before, patch) && InState(def, Merged(before, patch))
    requires Destination(r).Some? ==> StatusOf(Merged(before, patch)) == Destination(r)
    ensures Ready(def, Merged(before, patch))
  {
    var task' := Merged(before, patch);
    var required := def.states[StatusOf(task').value].required;
    assert RequiredTaskFields(def, r, task') == r.requiredTask + required;
    forall f | f in required ensures !Blank(Get(task', f)) {
      assert f in RequiredTaskFields(def, r, task');
    }
  }

  /** One accepted write: a declared state, an edge of the graph, the required fields, and an untouched frame. */
  ghost predicate Kept(def: Definition, task: Task, task': Task) {
    InState(def, task) && InState(def, task') && Ready(def, task') && SameFrame(task, task') &&
    StatusOf(task).value !in def.terminal &&
    (StatusOf(task') == StatusOf(task) || Moved(def, StatusOf(task).value, StatusOf(task').value))
  }

  lemma SoundWrite(def: Definition, key: ActionKey, r: Rule, task: Task, patch: Task)
    requires LifecycleOk(def) && StatesOk(def, key, r) && key in def.actions && key != Create
    requires r in def.actions[key].rules
    requires InState(def, task) && StatusOf(task).value in r.sources && Sound(def, r, Some(task), patch)
    ensures Kept(def, task, task + patch)
  {
    SoundMove(def, key, r, task, patch);
    assert Merged(Some(task), patch) == task + patch;
    ReadyAfter(def, r, Some(task), patch);
    FrameKept(r, task, patch);
  }

  /** What every accepted write keeps. */
  lemma AcceptedWrite(def: Definition, key: ActionKey, a: Assignment, p: Prepared, task: Task, payload: Task,
                      facts: set<Guard>)
    requires Valid(def) && key in def.actions && key != Create && p.rule in def.actions[key].rules
    requires InState(def, task) && WritesBy(a, def, p, task, payload, facts)
    ensures Kept(def, task, task + p.patch)
  {
    RuleIsValid(def, key, p.rule);
    RuleIsSound(a, def, p.rule, Some(task), payload, facts);
    SoundWrite(def, key, p.rule, task, p.patch);
  }

  /** A created task starts in the initial state with what that state requires, and without delivery facts. */
  lemma CreatedTask(a: Assignment, def: Definition, payload: Task)
    requires Valid(def) && PrepareCreate(a, def, payload).Ok?
    ensures var task := PrepareCreate(a, def, payload).value.patch;
      StatusOf(task) == Some(def.initial) && InState(def, task) && Ready(def, task) &&
        (forall f :: f in task ==> Confined(f))
  {
    var r := def.actions[Create].rules[0];
    RuleIsValid(def, Create, r);
    InitialIsNamed(def, r);
    RuleIsSound(a, def, r, None, CreatePayload(def, payload), {});
    SoundCreate(def, r, ActionPatch(a, r, CreatePayload(def, payload)));
  }

  lemma SoundCreate(def: Definition, r: Rule, patch: Task)
    requires Destination(r) == Some(def.initial) && def.initial in def.states && Sound(def, r, None, patch)
    ensures StatusOf(patch) == Some(def.initial) && Ready(def, patch) && (forall f :: f in patch ==> Confined(f))
  {
    assert Merged(None, patch) == patch;
    ReadyAfter(def, r, None, patch);
  }

  lemma InitialIsNamed(def: Definition, r: Rule)
    requires LifecycleOk(def) && StatesOk(def, Create, r)
    ensures Destination(r) == Some(def.initial) && def.initial in def.states
  {
    assert Strip(def.initial) != "";
    assert Strip("") == "";
  }

  // ---------------------------------------------------------------- retries

  lemma WrittenShows(task: Task, patch: Task)
    ensures Shows(task + patch, patch)
  {
  }

  /** The same call again, after its transition was written, finds the work done and writes nothing, as long as
      the caller is still an actor of the rule on the written task. */
  lemma RetryIsApplied(a: Assignment, def: Definition, key: ActionKey, task: Task, payload: Task,
                       variant: Option<string>,
                       confirmed: bool, facts: set<Guard>)
    requires Valid(def) && InState(def, task) && key != Create
    requires var result := PrepareExisting(a, def, key, task, payload, variant, confirmed, facts);
      result.Ok? && !result.value.applied && Destination(result.value.rule).Some? &&
      RuleActorAllowed(a, def, result.value.rule, Some(task + result.value.patch))
    ensures var p := PrepareExisting(a, def, key, task, payload, variant, confirmed, facts).value;
      var again := PrepareExisting(a, def, key, task + p.patch, payload, variant, confirmed, facts);
      again.Ok? && again.value.applied && again.value.patch == map[]
  {
    var p := PrepareExisting(a, def, key, task, payload, variant, confirmed, facts).value;
    AcceptedRule(a, def, key, task, payload, variant, confirmed, facts);
    WrittenTransition(a, def, key, p, task, payload, facts);
    AppliedAgain(a, def, key, p.rule, task + p.patch, payload, variant, confirmed, facts);
  }

  lemma CheckedValues(a: Assignment, def: Definition, r: Rule, before: Option<Task>, payload: Task, facts: set<Guard>)
    requires ValidateRule(a, def, r, before, payload, facts) == None
    ensures RuleValuesAllowed(r, payload)
  {
  }

  lemma WrittenTransition(a: Assignment, def: Definition, key: ActionKey, p: Prepared, task: Task, payload: Task,
                          facts: set<Guard>)
    requires LifecycleOk(def) && RulesOk(def) && InState(def, task) && key in def.actions && key != Create
    requires p.rule in def.actions[key].rules && WritesBy(a, def, p, task, payload, facts) && Destination(p.rule).Some?
    requires RuleActorAllowed(a, def, p.rule, Some(task + p.patch))
    ensures ShowsTransition(a, def, p.rule, task + p.patch, payload)
  {
    RuleIsValid(def, key, p.rule);
    CheckedValues(a, def, p.rule, Some(task), payload, facts);
    PatchIsConfined(p.rule, a, payload);
    ShowsWritten(a, def, p.rule, task, payload, p.patch);
  }

  lemma ShowsWritten(a: Assignment, def: Definition, r: Rule, task: Task, payload: Task, patch: Task)
    requires patch == ActionPatch(a, r, payload) && OnlyWrites(payload, r) && RuleValuesAllowed(r, payload)
    requires ConfinedPatch(r, patch) && Destination(r).Some? && RuleActorAllowed(a, def, r, Some(task + patch))
    ensures ShowsTransition(a, def, r, task + patch, payload)
  {
    WrittenShows(task, patch);
    assert Get(task + patch, Status) == Text(r.to.value);
  }

  lemma AppliedAgain(a: Assignment, def: Definition, key: ActionKey, r: Rule, task: Task, payload: Task,
                     variant: Option<string>,
                     confirmed: bool, facts: set<Guard>)
    requires key in def.actions && r in Candidates(def.actions[key], variant)
    requires (def.actions[key].confirmation ==> confirmed)
    requires ShowsTransition(a, def, r, task, payload)
    ensures var again := PrepareExisting(a, def, key, task, payload, variant, confirmed, facts);
      again.Ok? && again.value.applied && again.value.patch == map[]
  {
    assert MatchingApplied(a, def, Candidates(def.actions[key], variant), task, payload).Some?;
  }
}
