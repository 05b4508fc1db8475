/** The task tools: a lifecycle action together with the delivery facts it records, over whole runs of a task. */
module TaskTools {
  import opened Common
  import opened TaskFields
  import opened GitFacts
  import opened DeliveryFacts
  import opened WorkflowDefinition
  import opened WorkflowActions

  /** The delivery parameter of a call; a mode that was not given is None. */
  datatype DeliveryInput = DeliveryInput(mode: Option<string>, shas: map<Field, string>, resources: Option<Resources>)

  /** What an action reads outside the card: the workspace switch and the repository. */
  datatype World = World(versionControl: bool, git: Git)

  datatype Call = Call(
    assignment: Assignment, key: ActionKey, payload: Task, variant: Option<string>, delivery: DeliveryInput,
    confirmed: bool, facts: set<Guard>)

  datatype ToolError = BadDelivery | Rejected(error: Error) | Incomplete

  predicate ShaField(f: Field) {
    f == CandidateSha || f == VerifiedSha || f == PromotedSha
  }

  // ---------------------------------------------------------------- the delivery parameter

  /** normalize_delivery_input: blank ids are dropped, anything but a full object id is refused. */
  function Normalize(d: DeliveryInput): Option<DeliveryInput> {
    var shas := map f | f in d.shas && Strip(d.shas[f]) != "" :: Strip(d.shas[f]);
    if forall f :: f in shas ==> ShaField(f) && IsObjectId(shas[f]) then
      Some(DeliveryInput(d.mode, shas,
        if d.resources == None then None else Some(Resources(Clean(d.resources.value.branches),
          Clean(d.resources.value.worktrees)))))
    else None
  }

  predicate Nothing(d: DeliveryInput) {
    d.mode == None && d.shas == map[] && d.resources == None
  }

  function ModeFact(mode: Option<string>): Task {
    if mode.Some? && mode.value != "" then map[DeliveryMode := Text(mode.value)] else map[]
  }

  function ShaFacts(shas: map<Field, string>): Task {
    map f | f in shas :: Text(shas[f])
  }

  predicate ShasExist(git: Git, shas: map<Field, string>) {
    shas != map[] ==> git.readable && forall f :: f in shas ==> CommitExists(git, shas[f])
  }

  function ResourceFact(task: Task, resources: Option<Resources>): Option<Task> {
    if resources == None then Some(map[])
    else
      var appended := AppendResources(Get(task, DeliveryResources), resources.value);
      if appended == None then None else Some(map[DeliveryResources := appended.value])
  }

  function RequestedMode(w: World, def: Definition, key: ActionKey, rule: Rule, task: Task,
                         d: DeliveryInput): Result<Option<string>, ModeError> {
    ResolveTransitionMode(w.versionControl, ModeOf(task), if d.mode.Some? then d.mode.value else "",
      StatusOf(task) == Some(def.initial), key != Cancel && rule.to.Some?)
  }

  /** _apply_delivery: the facts it merges into the rule's patch. */
  function DeliveryPatch(w: World, def: Definition, key: ActionKey, p: Prepared, task: Task,
                         d: DeliveryInput): Option<Task> {
    var mode := RequestedMode(w, def, key, p.rule, task, d);
    if mode.Err? then None else
    var effective := if mode.value.Some? && mode.value.value != "" then mode.value.value else ModeOf(task);
    if effective != "repository" && (d.shas != map[] || d.resources.Some?) then None
    else if !ShasExist(w.git, d.shas) then None else
    var resources := ResourceFact(task, d.resources);
    if resources == None then None else
    var facts := ModeFact(mode.value) + ShaFacts(d.shas) + resources.value;
    if key != Claim then Some(facts) else
    var pins := ClaimBaseline(w.git, task + p.patch + facts);
    if pins == None then None else Some(facts + pins.value)
  }

  // ---------------------------------------------------------------- one call

  /** _execute_existing_action, when nobody edits the card meanwhile: what it writes. */
  function Execute(w: World, def: Definition, task: Task, c: Call): Result<Task, ToolError>
    requires c.key in def.actions
  {
    var d := Normalize(c.delivery);
    if d == None then Err(BadDelivery) else
    var prepared := PrepareExisting(c.assignment, def, c.key, task, c.payload, c.variant, c.confirmed, c.facts);
    if prepared.Err? then Err(Rejected(prepared.error))
    else if prepared.value.applied && Nothing(d.value) then Ok(map[])
    else
      var extra := DeliveryPatch(w, def, c.key, prepared.value, task, d.value);
      if extra == None then Err(BadDelivery) else
      var patch := prepared.value.patch + extra.value;
      if MayComplete(w.git, def.completion, task + patch, if Status in patch then StatusOf(patch) else None)
      then Ok(patch) else Err(Incomplete)
  }

  function ExecuteCreate(w: World, def: Definition, a: Assignment, payload: Task, mode: string): Result<Task, ToolError>
    requires Create in def.actions && def.actions[Create].rules != []
  {
    var resolved := ResolveCreateMode(w.versionControl, mode);
    if resolved.Err? then Err(BadDelivery) else
    var prepared := PrepareCreate(a, def, payload);
    if prepared.Err? then Err(Rejected(prepared.error))
    else Ok(prepared.value.patch + ModeFact(Some(resolved.value)))
  }

  // ---------------------------------------------------------------- the delivery facts of one call

  /** Delivery facts and nothing else, none of them blank. */
  predicate FactPatch(extra: Task) {
    forall f :: f in extra ==> DeliveryManaged(f) && !Blank(extra[f])
  }

  lemma JoinFacts(p: Task, q: Task)
    requires FactPatch(p) && FactPatch(q)
    ensures FactPatch(p + q)
  {
  }

  lemma KnownModeIsText(mode: string)
    requires KnownMode(mode)
    ensures Strip(mode) == mode
  {
    if mode == "standard" {
      assert StripLeft("standard") == "standard" && StripRight("standard") == "standard";
    } else {
      assert StripLeft("repository") == "repository" && StripRight("repository") == "repository";
    }
  }

  lemma ModeFacts(mode: Option<string>)
    requires mode.Some? && mode.value != "" ==> KnownMode(mode.value)
    ensures FactPatch(ModeFact(mode))
  {
    if mode.Some? && mode.value != "" {
      KnownModeIsText(mode.value);
      TextIsText(mode.value);
    }
  }

  lemma ObjectIdIsText(s: string)
    requires IsObjectId(s)
    ensures Strip(s) == s && s != ""
  {
    assert HexDigit(s[0]) && HexDigit(s[|s| - 1]);
    assert StripLeft(s) == s && StripRight(s) == s;
  }

  lemma ShaFactsAreFacts(d: DeliveryInput)
    requires Normalize(d).Some?
    ensures FactPatch(ShaFacts(Normalize(d).value.shas))
    ensures forall f :: f in ShaFacts(Normalize(d).value.shas) ==> ShaField(f)
  {
    var shas := Normalize(d).value.shas;
    forall f | f in shas ensures DeliveryManaged(f) && !Blank(Text(shas[f])) {
      ObjectIdIsText(shas[f]);
      TextIsText(shas[f]);
    }
  }

  /** How the declared resources of a task may change. */
  ghost predicate ResourcesGrow(task: Task, task': Task) {
    ParseResources(Get(task, DeliveryResources)).Some? ==>
      (ParseResources(Get(task', DeliveryResources)).Some? &&
       Longer(ParseResources(Get(task, DeliveryResources)).value, ParseResources(Get(task', DeliveryResources)).value))
  }

  predicate Longer(r: Resources, r': Resources) {
    r.branches <= r'.branches && r.worktrees <= r'.worktrees
  }

  lemma ResourceFacts(task: Task, resources: Option<Resources>)
    requires ResourceFact(task, resources).Some?
    ensures var fact := ResourceFact(task, resources).value;
      FactPatch(fact) && (forall f :: f in fact ==> f == DeliveryResources) &&
      (DeliveryResources in fact ==> ResourcesGrow(task, task + fact))
  {
    if resources.Some? {
      ResourcesOnlyGrow(Get(task, DeliveryResources), resources.value);
      var fact := ResourceFact(task, resources).value;
      assert Get(task + fact, DeliveryResources) == fact[DeliveryResources];
    }
  }

  /** Everything the delivery half of a call promises about the facts it adds. */
  ghost predicate FactsOk(def: Definition, task: Task, extra: Task) {
    FactPatch(extra) && ModeFactOk(def, task, extra) &&
    (DeliveryResources in extra ==> ResourcesGrow(task, map[DeliveryResources := extra[DeliveryResources]])) &&
    (TargetBranch in extra || BaseSha in extra ==> !Pinned(task))
  }

  predicate ModeFactOk(def: Definition, task: Task, extra: Task) {
    DeliveryMode in extra ==>
      (extra[DeliveryMode].Text? && KnownMode(extra[DeliveryMode].text) &&
       (ModeOf(task) != "" ==> StatusOf(task) == Some(def.initial)))
  }

  lemma RequestedModeOk(w: World, def: Definition, key: ActionKey, rule: Rule, task: Task, d: DeliveryInput)
    requires RequestedMode(w, def, key, rule, task, d).Ok?
    ensures var mode := RequestedMode(w, def, key, rule, task, d).value;
      (mode.Some? ==> KnownMode(mode.value) && (ModeOf(task) != "" ==> StatusOf(task) == Some(def.initial)))
  {
  }

  /** The facts recorded before a claim pins the baseline. */
  lemma RecordedFacts(w: World, def: Definition, task: Task, mode: Option<string>, d: DeliveryInput, resources: Task)
    requires mode.Some? ==> KnownMode(mode.value) && (ModeOf(task) != "" ==> StatusOf(task) == Some(def.initial))
    requires FactPatch(ShaFacts(d.shas)) && (forall f :: f in ShaFacts(d.shas) ==> ShaField(f))
    requires FactPatch(resources) && (forall f :: f in resources ==> f == DeliveryResources)
    requires DeliveryResources in resources ==>
      ResourcesGrow(task, map[DeliveryResources := resources[DeliveryResources]])
    ensures var facts := ModeFact(mode) + ShaFacts(d.shas) + resources;
      FactsOk(def, task, facts) && TargetBranch !in facts && BaseSha !in facts
  {
    ModeFacts(mode);
    JoinFacts(ModeFact(mode), ShaFacts(d.shas));
    JoinFacts(ModeFact(mode) + ShaFacts(d.shas), resources);
  }

  lemma WithPins(def: Definition, task: Task, facts: Task, pins: Task)
    requires FactsOk(def, task, facts) && TargetBranch !in facts && BaseSha !in facts
    requires BaselinePatch(pins) && (pins != map[] ==> !Pinned(task))
    ensures FactsOk(def, task, facts + pins)
  {
    assert FactPatch(pins);
    JoinFacts(facts, pins);
  }

  lemma PinsSeeTheTask(task: Task, patch: Task, facts: Task)
    requires TargetBranch !in patch && BaseSha !in patch && TargetBranch !in facts && BaseSha !in facts
    ensures Pinned(task + patch + facts) == Pinned(task)
  {
    var merged := task + patch + facts;
    assert Get(merged, TargetBranch) == Get(task, TargetBranch) && Get(merged, BaseSha) == Get(task, BaseSha);
  }

  lemma SameResources(task: Task, fact: Value)
    ensures ResourcesGrow(task, task + map[DeliveryResources := fact])
      == ResourcesGrow(task, map[DeliveryResources := fact])
  {
    assert Get(task + map[DeliveryResources := fact], DeliveryResources) == Get(map[DeliveryResources := fact],
      DeliveryResources);
  }

  lemma DeliveryPatchOk(w: World, def: Definition, key: ActionKey, p: Prepared, task: Task, raw: DeliveryInput)
    requires Normalize(raw).Some? && DeliveryPatch(w, def, key, p, task, Normalize(raw).value).Some?
    requires forall f :: f in p.patch ==> Confined(f)
    ensures FactsOk(def, task, DeliveryPatch(w, def, key, p, task, Normalize(raw).value).value)
  {
    var d := Normalize(raw).value;
    var mode := RequestedMode(w, def, key, p.rule, task, d).value;
    RequestedModeOk(w, def, key, p.rule, task, d);
    ShaFactsAreFacts(raw);
    ResourceFacts(task, d.resources);
    var resources := ResourceFact(task, d.resources).value;
    if DeliveryResources in resources {
      assert resources == map[DeliveryResources := resources[DeliveryResources]];
      SameResources(task, resources[DeliveryResources]);
    }
    RecordedFacts(w, def, task, mode, d, resources);
    if key == Claim {
      var facts := ModeFact(mode) + ShaFacts(d.shas) + resources;
      PinsSeeTheTask(task, p.patch, facts);
      BaselinePins(w.git, task + p.patch + facts);
      WithPins(def, task, facts, ClaimBaseline(w.git, task + p.patch + facts).value);
    }
  }

  // ---------------------------------------------------------------- what one call keeps

  /** The mode changes only in the initial state, declarations only grow, a pinned baseline and the task id stay. */
  ghost predicate FactsKept(def: Definition, task: Task, task': Task) {
    (ModeOf(task) != "" && ModeOf(task') != ModeOf(task) ==> StatusOf(task) == Some(def.initial)) &&
    ResourcesGrow(task, task') &&
    (Pinned(task) ==>
      Get(task', TargetBranch) == Get(task, TargetBranch) && Get(task', BaseSha) == Get(task, BaseSha)) &&
    Get(task', TaskId) == Get(task, TaskId)
  }

  /** The status stays in the lifecycle, moves along its edges, never leaves a terminal state, and the task has
      what its state requires. */
  ghost predicate LifecycleKept(def: Definition, task: Task, task': Task) {
    InState(def, task) && InState(def, task') && Ready(def, task') &&
    (StatusOf(task') == StatusOf(task) ||
     (StatusOf(task).value !in def.terminal && Moved(def, StatusOf(task).value, StatusOf(task').value)))
  }

  /** A state that counts as completion is entered only through the gate. */
  predicate Gated(w: World, def: Definition, task: Task, task': Task) {
    StatusOf(task') != StatusOf(task) ==> MayComplete(w.git, def.completion, task', StatusOf(task'))
  }

  lemma FactsKeepReady(def: Definition, task: Task, extra: Task)
    requires InState(def, task) && Ready(def, task) && FactPatch(extra)
    ensures InState(def, task + extra) && StatusOf(task + extra) == StatusOf(task) && Ready(def, task + extra)
  {
    assert Get(task + extra, Status) == Get(task, Status);
    forall f | f in def.states[StatusOf(task).value].required ensures !Blank(Get(task + extra, f)) {
      assert Get(task + extra, f) == if f in extra then extra[f] else Get(task, f);
    }
  }

  lemma FactsKeepFacts(def: Definition, task: Task, mid: Task, extra: Task)
    requires SameFrame(task, mid) && FactsOk(def, task, extra)
    ensures FactsKept(def, task, mid + extra)
  {
    var task' := mid + extra;
    if DeliveryMode in extra {
      KnownModeIsText(extra[DeliveryMode].text);
    } else {
      assert Get(task', DeliveryMode) == Get(task, DeliveryMode);
    }
    if DeliveryResources in extra {
      assert Get(task', DeliveryResources) == Get(map[DeliveryResources := extra[DeliveryResources]],
        DeliveryResources);
    } else {
      assert Get(task', DeliveryResources) == Get(task, DeliveryResources);
    }
    PinsKept(task, mid, extra);
  }

  lemma PinsKept(task: Task, mid: Task, extra: Task)
    requires SameFrame(task, mid) && FactPatch(extra) && (TargetBranch in extra || BaseSha in extra ==> !Pinned(task))
    ensures Pinned(task) ==>
      Get(mid + extra, TargetBranch) == Get(task, TargetBranch) && Get(mid + extra, BaseSha) == Get(task, BaseSha)
    ensures Get(mid + extra, TaskId) == Get(task, TaskId)
  {
  }

  /** What one accepted call keeps, whatever rule, variant, delivery input and repository it met. */
  lemma ExecuteKeeps(w: World, def: Definition, task: Task, c: Call)
    requires Valid(def) && c.key in def.actions && c.key != Create && InState(def, task) && Ready(def, task)
    requires Execute(w, def, task, c).Ok?
    ensures var task' := task + Execute(w, def, task, c).value;
      LifecycleKept(def, task, task') && FactsKept(def, task, task') && Gated(w, def, task, task')
  {
    var d := Normalize(c.delivery).value;
    var p := PrepareExisting(c.assignment, def, c.key, task, c.payload, c.variant, c.confirmed, c.facts).value;
    AcceptedRule(c.assignment, def, c.key, task, c.payload, c.variant, c.confirmed, c.facts);
    PreparedKeeps(def, c, p, task);
    if p.applied && Nothing(d) {
      Unchanged(w, def, task);
    } else {
      var extra := DeliveryPatch(w, def, c.key, p, task, d).value;
      DeliveryPatchOk(w, def, c.key, p, task, c.delivery);
      BothKeep(w, def, task, p.patch, extra);
    }
  }

  lemma Unchanged(w: World, def: Definition, task: Task)
    requires InState(def, task) && Ready(def, task)
    ensures var task' := task + map[];
      LifecycleKept(def, task, task') && FactsKept(def, task, task') && Gated(w, def, task, task')
  {
    assert task + map[] == task;
  }

  lemma PreparedKeeps(def: Definition, c: Call, p: Prepared, task: Task)
    requires Valid(def) && c.key in def.actions && c.key != Create && p.rule in def.actions[c.key].rules
    requires InState(def, task) && Ready(def, task)
    requires (p.applied && p.patch == map[]) || WritesBy(c.assignment, def, p, task, c.payload, c.facts)
    ensures LifecycleKept(def, task, task + p.patch) && SameFrame(task, task + p.patch)
    ensures (forall f :: f in p.patch ==> Confined(f))
    ensures Status !in p.patch ==> StatusOf(task + p.patch) == StatusOf(task)
  {
    hide ValidateRule, ActionPatch, GraphOk, Ready, MovesBy;
    if p.patch == map[] {
      assert task + map[] == task;
    } else {
      AcceptedWrite(def, c.key, c.assignment, p, task, c.payload, c.facts);
      RuleIsValid(def, c.key, p.rule);
      PatchIsConfined(p.rule, c.assignment, c.payload);
    }
  }

  lemma BothKeep(w: World, def: Definition, task: Task, patch: Task, extra: Task)
    requires LifecycleKept(def, task, task + patch) && SameFrame(task, task + patch) && FactsOk(def, task, extra)
    requires Status !in patch ==> StatusOf(task + patch) == StatusOf(task)
    requires MayComplete(w.git, def.completion, task + (patch + extra),
      if Status in patch + extra then StatusOf(patch + extra) else None)
    ensures var task' := task + (patch + extra);
      LifecycleKept(def, task, task') && FactsKept(def, task, task') && Gated(w, def, task, task')
  {
    assert task + (patch + extra) == (task + patch) + extra;
    FactsKeepReady(def, task + patch, extra);
    FactsKeepFacts(def, task, task + patch, extra);
    if Status in patch {
      assert Status in patch + extra && Get(patch + extra, Status) == Get(task + (patch + extra), Status);
    }
  }

  // ---------------------------------------------------------------- runs

  /** A created task and the calls that were accepted on it; each met its own repository and switch. */
  ghost predicate TaskRun(def: Definition, tasks: seq<Task>, worlds: seq<World>, calls: seq<Call>) {
    |tasks| == |calls| + 1 && |worlds| == |calls| && InState(def, tasks[0]) && Ready(def, tasks[0]) &&
    forall k :: 0 <= k < |calls| ==> Accepted(worlds[k], def, tasks[k], calls[k], tasks[k + 1])
  }

  ghost predicate Accepted(w: World, def: Definition, task: Task, c: Call, task': Task) {
    c.key in def.actions && c.key != Create && Execute(w, def, task, c).Ok? &&
      task' == task + Execute(w, def, task, c).value
  }

  lemma AcceptedKeeps(w: World, def: Definition, task: Task, c: Call, task': Task)
    requires Valid(def) && Accepted(w, def, task, c, task') && InState(def, task) && Ready(def, task)
    ensures LifecycleKept(def, task, task') && FactsKept(def, task, task') && Gated(w, def, task, task')
  {
    ExecuteKeeps(w, def, task, c);
  }

  lemma GrowTwice(a: Task, b: Task, c: Task)
    requires ResourcesGrow(a, b) && ResourcesGrow(b, c)
    ensures ResourcesGrow(a, c)
  {
  }

  lemma GrowSelf(a: Task)
    ensures ResourcesGrow(a, a)
  {
  }

  lemma StepGrows(def: Definition, tasks: seq<Task>, worlds: seq<World>, calls: seq<Call>, k: nat)
    requires Valid(def) && TaskRun(def, tasks, worlds, calls) && k < |calls|
    ensures ResourcesGrow(tasks[k], tasks[k + 1])
  {
    hide Execute, GraphOk, ResourcesGrow;
    RunStep(def, tasks, worlds, calls, k);
  }

  lemma {:induction false} RunKeepsReady(def: Definition, tasks: seq<Task>, worlds: seq<World>, calls: seq<Call>,
                                         k: nat)
    requires Valid(def) && TaskRun(def, tasks, worlds, calls) && k < |tasks|
    ensures InState(def, tasks[k]) && Ready(def, tasks[k])
  {
    hide Execute, GraphOk;
    if k > 0 {
      RunKeepsReady(def, tasks, worlds, calls, k - 1);
      AcceptedKeeps(worlds[k - 1], def, tasks[k - 1], calls[k - 1], tasks[k]);
    }
  }

  /** Every accepted call of every run of a validated definition. */
  lemma RunStep(def: Definition, tasks: seq<Task>, worlds: seq<World>, calls: seq<Call>, k: nat)
    requires Valid(def) && TaskRun(def, tasks, worlds, calls) && k < |calls|
    ensures LifecycleKept(def, tasks[k], tasks[k + 1]) && FactsKept(def, tasks[k], tasks[k + 1])
    ensures Gated(worlds[k], def, tasks[k], tasks[k + 1])
  {
    hide Execute;
    RunKeepsReady(def, tasks, worlds, calls, k);
    AcceptedKeeps(worlds[k], def, tasks[k], calls[k], tasks[k + 1]);
  }

  /** A terminal state is final, and the task id and a baseline once pinned never change. */
  lemma {:induction false} FinalForGood(def: Definition, tasks: seq<Task>, worlds: seq<World>, calls: seq<Call>, j: nat,
                                        k: nat)
    requires Valid(def) && TaskRun(def, tasks, worlds, calls) && j <= k < |tasks|
    ensures InState(def, tasks[j])
    ensures (StatusOf(tasks[j]).value in def.terminal ==> StatusOf(tasks[k]) == StatusOf(tasks[j]))
    ensures Get(tasks[k], TaskId) == Get(tasks[j], TaskId)
    ensures Pinned(tasks[j]) ==>
      Get(tasks[k], TargetBranch) == Get(tasks[j], TargetBranch) && Get(tasks[k], BaseSha) == Get(tasks[j], BaseSha)
  {
    hide Execute, GraphOk, Gated, ResourcesGrow;
    RunKeepsReady(def, tasks, worlds, calls, j);
    if j < k {
      FinalForGood(def, tasks, worlds, calls, j, k - 1);
      RunStep(def, tasks, worlds, calls, k - 1);
    }
  }

  /** Declared resources are a history: whatever was declared stays declared, in order. */
  lemma {:induction false} DeclarationsStay(def: Definition, tasks: seq<Task>, worlds: seq<World>, calls: seq<Call>,
                                            j: nat, k: nat)
    requires Valid(def) && TaskRun(def, tasks, worlds, calls) && j <= k < |tasks|
    ensures ResourcesGrow(tasks[j], tasks[k])
  {
    hide Execute, GraphOk, ResourcesGrow;
    if j == k {
      GrowSelf(tasks[j]);
    } else {
      DeclarationsStay(def, tasks, worlds, calls, j, k - 1);
      StepGrows(def, tasks, worlds, calls, k - 1);
      GrowTwice(tasks[j], tasks[k - 1], tasks[k]);
    }
  }

  /** A created task starts such a run. */
  lemma CreateStartsARun(w: World, def: Definition, a: Assignment, payload: Task, mode: string)
    requires Valid(def) && ExecuteCreate(w, def, a, payload, mode).Ok?
    ensures var task := ExecuteCreate(w, def, a, payload, mode).value;
      InState(def, task) && Ready(def, task) && StatusOf(task) == Some(def.initial) && TaskId !in task && !Pinned(task)
  {
    CreatedTask(a, def, payload);
    var resolved := ResolveCreateMode(w.versionControl, mode).value;
    ModeFacts(Some(resolved));
    var created := PrepareCreate(a, def, payload).value.patch;
    FactsKeepReady(def, created, ModeFact(Some(resolved)));
    assert TargetBranch !in created + ModeFact(Some(resolved));
  }
}
