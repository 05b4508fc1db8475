/** Delivery facts: the mode and its lock, the append-only resources, the pinned baseline and the completion gate. */
module DeliveryFacts {
  import opened Common
  import opened TaskFields
  import opened GitFacts

  const TARGET_BRANCH := "main"

  datatype ModeError = UnknownMode | Unavailable | Locked | Unset

  predicate KnownMode(mode: string) {
    mode == "standard" || mode == "repository"
  }

  function ModeOf(task: Task): string {
    TextOf(Get(task, DeliveryMode))
  }

  // ---------------------------------------------------------------- the mode

  function ResolveCreateMode(enabled: bool, requested: string): Result<string, ModeError> {
    var mode := Strip(requested);
    if mode == "" then Ok(if enabled then "" else "standard")
    else if !KnownMode(mode) then Err(UnknownMode)
    else if mode == "repository" && !enabled then Err(Unavailable)
    else Ok(mode)
  }

  /** resolve_transition_mode: the mode to write, or nothing. */
  function ResolveTransitionMode(enabled: bool, current: string, requested: string, inInitial: bool,
                                 carriesForward: bool):
    Result<Option<string>, ModeError>
  {
    var wanted := Strip(requested);
    if current != "" && !KnownMode(current) && carriesForward then Err(UnknownMode)
    else if wanted != "" then
      if !KnownMode(wanted) then Err(UnknownMode)
      else if wanted == "repository" && !enabled && current != "repository" then Err(Unavailable)
      else if current != "" && current != wanted && !inInitial then Err(Locked)
      else Ok(if wanted != current then Some(wanted) else None)
    else if current != "" then Ok(None)
    else if !enabled then Ok(Some("standard"))
    else if carriesForward then Err(Unset)
    else Ok(None)
  }

  /** A mode that is set changes exactly on a request for the other mode, in the initial state, that the workspace can
      serve. */
  lemma ModeIsLocked(enabled: bool, current: string, requested: string, inInitial: bool, carriesForward: bool,
                     mode: string)
    requires current != ""
    ensures ResolveTransitionMode(enabled, current, requested, inInitial, carriesForward) == Ok(Some(mode)) <==>
      (mode == Strip(requested) && KnownMode(mode) && mode != current && inInitial &&
       (mode == "repository" ==> enabled) && (carriesForward ==> KnownMode(current)))
  {
    assert KnownMode(mode) ==> mode != "";
  }

  /** Whatever carries a task forward leaves it with a readable mode. */
  lemma CarriedForwardHasMode(enabled: bool, current: string, requested: string, inInitial: bool)
    requires ResolveTransitionMode(enabled, current, requested, inInitial, true).Ok?
    ensures var written := ResolveTransitionMode(enabled, current, requested, inInitial, true).value;
      KnownMode(if written.Some? then written.value else current)
  {
  }

  // ---------------------------------------------------------------- resources

  /** The non-blank items, stripped. */
  function Clean(items: seq<string>): seq<string> {
    if items == [] then []
    else
      var x := Strip(items[0]);
      (if x != "" then [x] else []) + Clean(items[1..])
  }

  predicate CleanList(items: seq<string>) {
    forall x :: x in items ==> Strip(x) == x && x != ""
  }

  lemma {:induction false} CleanIsClean(items: seq<string>)
    ensures CleanList(Clean(items))
  {
    if items != [] {
      StripIsIdempotent(items[0]);
      CleanIsClean(items[1..]);
    }
  }

  lemma {:induction false} CleanIsIdempotent(items: seq<string>)
    requires CleanList(items)
    ensures Clean(items) == items
  {
    if items != [] {
      assert items[0] in items && forall x :: x in items[1..] ==> x in items;
      CleanIsIdempotent(items[1..]);
    }
  }

  /** parse_resources; text that is not the encoding of an object is rejected. */
  function ParseResources(raw: Value): Option<Resources> {
    if raw.Encoded? then Some(Resources(Clean(raw.resources.branches), Clean(raw.resources.worktrees)))
    else if TextOf(raw) == "" then Some(Resources([], []))
    else None
  }

  function Append(items: seq<string>, item: string): seq<string> {
    var x := Strip(item);
    if x != "" && x !in items then items + [x] else items
  }

  function AppendAll(items: seq<string>, added: seq<string>): seq<string>
    decreases |added|
  {
    if added == [] then items else AppendAll(Append(items, added[0]), added[1..])
  }

  function AppendResources(current: Value, added: Resources): Option<Value> {
    var parsed := ParseResources(current);
    if parsed == None then None
    else Some(Encoded(Resources(AppendAll(parsed.value.branches, added.branches),
      AppendAll(parsed.value.worktrees, added.worktrees))))
  }

  /** Nothing declared is lost or reordered. */
  lemma {:induction false} AppendKeeps(items: seq<string>, added: seq<string>)
    requires CleanList(items)
    ensures items <= AppendAll(items, added) && CleanList(AppendAll(items, added))
    decreases |added|
  {
    if added != [] {
      StripIsIdempotent(added[0]);
      AppendKeeps(Append(items, added[0]), added[1..]);
    }
  }

  predicate Declares(added: seq<string>, x: string) {
    x != "" && exists k :: 0 <= k < |added| && Strip(added[k]) == x
  }

  lemma DeclaresFirst(added: seq<string>, x: string)
    requires added != []
    ensures Declares(added, x) <==> (x != "" && Strip(added[0]) == x) || Declares(added[1..], x)
  {
    if Declares(added, x) && Strip(added[0]) != x {
      var k :| 0 <= k < |added| && Strip(added[k]) == x;
      assert added[1..][k - 1] == added[k];
    }
    if Declares(added[1..], x) {
      var k :| 0 <= k < |added[1..]| && Strip(added[1..][k]) == x;
      assert added[k + 1] == added[1..][k];
    }
  }

  lemma AppendOneHolds(items: seq<string>, item: string, x: string)
    ensures x in Append(items, item) <==> x in items || (x != "" && Strip(item) == x)
  {
  }

  /** Exactly the old and the new declarations are there. */
  lemma {:induction false} AppendHolds(items: seq<string>, added: seq<string>, x: string)
    ensures x in AppendAll(items, added) <==> x in items || Declares(added, x)
    decreases |added|
  {
    if added != [] {
      AppendHolds(Append(items, added[0]), added[1..], x);
      AppendOneHolds(items, added[0], x);
      DeclaresFirst(added, x);
    }
  }

  ghost predicate NoRepeats(items: seq<string>) {
    forall j, k :: 0 <= j < k < |items| ==> items[j] != items[k]
  }

  lemma {:induction false} AppendKeepsNoRepeats(items: seq<string>, added: seq<string>)
    requires NoRepeats(items)
    ensures NoRepeats(AppendAll(items, added))
    decreases |added|
  {
    if added != [] { AppendKeepsNoRepeats(Append(items, added[0]), added[1..]); }
  }

  /** Appending keeps every declared resource in place, and the stored text reads back as the same lists. */
  lemma ResourcesOnlyGrow(current: Value, added: Resources)
    requires ParseResources(current).Some?
    ensures var before := ParseResources(current).value;
      AppendResources(current, added).Some? &&
      var written := AppendResources(current, added).value;
      written.Encoded? && ParseResources(written) == Some(written.resources) && !Blank(written) &&
      before.branches <= written.resources.branches && before.worktrees <= written.resources.worktrees
  {
    var before := ParseResources(current).value;
    if current.Encoded? {
      CleanIsClean(current.resources.branches);
      CleanIsClean(current.resources.worktrees);
    }
    AppendKeeps(before.branches, added.branches);
    AppendKeeps(before.worktrees, added.worktrees);
    CleanIsIdempotent(AppendAll(before.branches, added.branches));
    CleanIsIdempotent(AppendAll(before.worktrees, added.worktrees));
  }

  /** The loop that appends one kind. */
  method AppendKind(current: seq<string>, added: seq<string>) returns (items: seq<string>)
    ensures items == AppendAll(current, added)
  {
    items := current;
    assert added[0..] == added;
    for k := 0 to |added|
      invariant AppendAll(items, added[k..]) == AppendAll(current, added)
    {
      assert added[k..][0] == added[k] && added[k..][1..] == added[k + 1..];
      var value := Strip(added[k]);
      if value != "" && value !in items { items := items + [value]; }
    }
  }

  // ---------------------------------------------------------------- the baseline

  function BranchSha(git: Git, branch: string): Option<string> {
    if branch in git.branches && Strip(git.branches[branch]) != "" then Some(Strip(git.branches[branch])) else None
  }

  predicate Pinned(task: Task) {
    TextOf(Get(task, TargetBranch)) != "" && TextOf(Get(task, BaseSha)) != ""
  }

  /** claim_baseline: pinned by the first claim, never again. */
  function ClaimBaseline(git: Git, task: Task): Option<Task> {
    if ModeOf(task) != "repository" || Pinned(task) then Some(map[])
    else if BranchSha(git, TARGET_BRANCH) == None then None
    else Some(map[TargetBranch := Text(TARGET_BRANCH), BaseSha := Text(BranchSha(git, TARGET_BRANCH).value)])
  }

  /** A baseline is written once: both facts, neither blank. */
  predicate BaselinePatch(pins: Task) {
    forall f :: f in pins ==> !Blank(pins[f]) && (f == TargetBranch || f == BaseSha)
  }

  lemma BaselinePins(git: Git, task: Task)
    requires ClaimBaseline(git, task).Some?
    ensures BaselinePatch(ClaimBaseline(git, task).value)
    ensures Pinned(task) ==> ClaimBaseline(git, task).value == map[]
    ensures ModeOf(task) == "repository" ==> Pinned(task + ClaimBaseline(git, task).value)
  {
    if ModeOf(task) != "repository" || Pinned(task) {
      assert task + map[] == task;
    } else {
      TargetValue();
      ShaValue(git);
      FreshPins(task, Text(TARGET_BRANCH), Text(BranchSha(git, TARGET_BRANCH).value));
    }
  }

  predicate Told(v: Value) {
    TextOf(v) != "" && !Blank(v)
  }

  lemma TargetValue()
    ensures Told(Text(TARGET_BRANCH))
  {
    TargetIsText();
    TextIsText(TARGET_BRANCH);
  }

  lemma ShaValue(git: Git)
    requires BranchSha(git, TARGET_BRANCH).Some?
    ensures Told(Text(BranchSha(git, TARGET_BRANCH).value))
  {
    BranchShaIsText(git);
    TextIsText(BranchSha(git, TARGET_BRANCH).value);
  }

  lemma FreshPins(task: Task, branch: Value, sha: Value)
    requires Told(branch) && Told(sha)
    ensures BaselinePatch(map[TargetBranch := branch, BaseSha := sha])
    ensures Pinned(task + map[TargetBranch := branch, BaseSha := sha])
  {
    PinnedBy(task, branch, sha);
  }

  lemma PinnedBy(task: Task, branch: Value, sha: Value)
    requires TextOf(branch) != "" && TextOf(sha) != ""
    ensures Pinned(task + map[TargetBranch := branch, BaseSha := sha])
  {
    var pinned := task + map[TargetBranch := branch, BaseSha := sha];
    assert Get(pinned, TargetBranch) == branch && Get(pinned, BaseSha) == sha;
  }

  lemma TextIsText(s: string)
    requires Strip(s) == s && s != ""
    ensures Told(Text(s))
  {
  }

  lemma TargetIsText()
    ensures Strip(TARGET_BRANCH) == TARGET_BRANCH && TARGET_BRANCH != ""
  {
    assert StripLeft(TARGET_BRANCH) == TARGET_BRANCH && StripRight(TARGET_BRANCH) == TARGET_BRANCH;
  }

  lemma BranchShaIsText(git: Git)
    requires BranchSha(git, TARGET_BRANCH).Some?
    ensures Strip(BranchSha(git, TARGET_BRANCH).value) == BranchSha(git, TARGET_BRANCH).value != ""
  {
    StripIsIdempotent(git.branches[TARGET_BRANCH]);
  }

  // ---------------------------------------------------------------- the completion gate

  datatype Check =
    | ModeCheck | ShaMissing(field: Field) | ShaUnknown(field: Field) | VerifiedCandidate
    | BaseMissing | BaseUnknown | BaseAncestry | BranchMissing | BranchLost | FastForward
    | BadResources | DeclaredBranches | DeclaredWorktrees | GitProbe

  predicate ShaOk(git: Git, task: Task, f: Field) {
    TextOf(Get(task, f)) != "" && CommitExists(git, TextOf(Get(task, f)))
  }

  predicate BranchLeft(git: Git, r: Resources) {
    exists b :: b in r.branches && b in git.branches
  }

  predicate WorktreeLeft(git: Git, r: Resources) {
    exists w :: w in r.worktrees && (w in git.worktrees || w in git.paths)
  }

  predicate Leftover(git: Git, r: Resources) {
    BranchLeft(git, r) || WorktreeLeft(git, r)
  }

  /** The immutable facts a repository task needs before it may complete. */
  predicate GatePasses(git: Git, task: Task) {
    var candidate := TextOf(Get(task, CandidateSha));
    var base := TextOf(Get(task, BaseSha));
    var head := BranchSha(git, TARGET_BRANCH);
    git.readable &&
    ShaOk(git, task, CandidateSha) && ShaOk(git, task, VerifiedSha) && ShaOk(git, task, PromotedSha) &&
    TextOf(Get(task, VerifiedSha)) == candidate && TextOf(Get(task, PromotedSha)) == candidate &&
    base != "" && CommitExists(git, base) && IsAncestor(git, base, candidate) == Yes &&
    head.Some? && IsAncestor(git, candidate, head.value) == Yes && Promoted(git, candidate) &&
    ParseResources(Get(task, DeliveryResources)).Some? &&
      !Leftover(git, ParseResources(Get(task, DeliveryResources)).value)
  }

  /** The checks of completion_failure for a repository task, in the order of the code; an empty list lets it pass. */
  method RepositoryFailures(git: Git, task: Task) returns (failures: seq<Check>)
    ensures failures == [] <==> GatePasses(git, task)
  {
    if !git.readable { return [GitProbe]; }
    var candidate := TextOf(Get(task, CandidateSha));
    var fields := [CandidateSha, VerifiedSha, PromotedSha];
    failures := ShaFailures(git, task, fields);
    assert fields[0] in fields && fields[1] in fields && fields[2] in fields;
    if failures == [] && (TextOf(Get(task, VerifiedSha)) != candidate || TextOf(Get(task, PromotedSha)) != candidate) {
      failures := failures + [VerifiedCandidate];
    }
    var base := TextOf(Get(task, BaseSha));
    if base == "" {
      failures := failures + [BaseMissing];
    } else if !CommitExists(git, base) {
      failures := failures + [BaseUnknown];
    } else if ShaOk(git, task, CandidateSha) {
      var answer := IsAncestor(git, base, candidate);
      if answer == Failed { return [GitProbe]; }
      if answer == No { failures := failures + [BaseAncestry]; }
    }
    var promotion := [];
    if ShaOk(git, task, CandidateSha) { promotion := PromotionFailures(git, candidate); }
    if promotion == [GitProbe] { return promotion; }
    failures := failures + promotion;
    var leftovers := ResourceFailures(git, Get(task, DeliveryResources));
    failures := failures + leftovers;
  }

  method ShaFailures(git: Git, task: Task, fields: seq<Field>) returns (failures: seq<Check>)
    ensures failures == [] <==> forall f :: f in fields ==> ShaOk(git, task, f)
  {
    failures := [];
    for k := 0 to |fields|
      invariant failures == [] <==> forall j :: 0 <= j < k ==> ShaOk(git, task, fields[j])
    {
      var value := TextOf(Get(task, fields[k]));
      if value == "" {
        failures := failures + [ShaMissing(fields[k])];
      } else if !CommitExists(git, value) {
        failures := failures + [ShaUnknown(fields[k])];
      }
    }
  }

  method PromotionFailures(git: Git, candidate: string) returns (failures: seq<Check>)
    ensures failures == [] <==>
      BranchSha(git, TARGET_BRANCH).Some? && IsAncestor(git, candidate, BranchSha(git, TARGET_BRANCH).value) == Yes &&
        Promoted(git, candidate)
  {
    var head := BranchSha(git, TARGET_BRANCH);
    if head == None { return [BranchMissing]; }
    var answer := IsAncestor(git, candidate, head.value);
    if answer == Failed { return [GitProbe]; }
    if answer == No { return [BranchLost]; }
    answer := FastForwardedTo(git, candidate);
    if answer == Failed { return [GitProbe]; }
    failures := if answer == Yes then [] else [FastForward];
  }

  method ResourceFailures(git: Git, raw: Value) returns (failures: seq<Check>)
    ensures failures == [] <==> ParseResources(raw).Some? && !Leftover(git, ParseResources(raw).value)
  {
    var parsed := ParseResources(raw);
    if parsed == None { return [BadResources]; }
    var r := parsed.value;
    failures := [];
    if BranchLeft(git, r) { failures := failures + [DeclaredBranches]; }
    if WorktreeLeft(git, r) { failures := failures + [DeclaredWorktrees]; }
  }

  /** What completion_failure demands of a write that leaves `merged` in the state `entered`. */
  predicate MayComplete(git: Git, completion: set<string>, merged: Task, entered: Option<string>) {
    (entered.Some? && entered.value in completion) ==>
      ((ModeOf(merged) == "" || KnownMode(ModeOf(merged))) &&
        (ModeOf(merged) == "repository" ==> GatePasses(git, merged)))
  }

  method CompletionFailures(git: Git, completion: set<string>, merged: Task, entered: Option<string>)
    returns (failures: seq<Check>)
    ensures failures == [] <==> MayComplete(git, completion, merged, entered)
  {
    if entered == None || entered.value !in completion { return []; }
    var mode := ModeOf(merged);
    if mode != "" && !KnownMode(mode) { return [ModeCheck]; }
    if mode != "repository" { return []; }
    failures := RepositoryFailures(git, merged);
  }

  /** In a real history the gate means: one commit was built on the baseline, verified, promoted, is still in the
      branch, and its promotion discarded nothing; nothing declared is left over. */
  lemma GateMeaning(git: Git, task: Task)
    requires History(git) && GatePasses(git, task)
    ensures var c := TextOf(Get(task, CandidateSha));
      c == TextOf(Get(task, VerifiedSha)) == TextOf(Get(task, PromotedSha)) &&
      Descends(git, TextOf(Get(task, BaseSha)), c) &&
      Descends(git, TextOf(Get(task, BaseSha)), BranchSha(git, TARGET_BRANCH).value) && Descends(git, c, git.reflog[0])
  {
    PromotedIsContained(git, TextOf(Get(task, CandidateSha)));
  }
}
