/** The fields of a task, their values, and when a value counts as blank. */
module TaskFields {
  import opened Common

  datatype Field =
    | Title | TaskId | Status | Type | Priority | Role | AgentName | AgentId
    | Description | Context | AcceptanceCriteria | Dependencies | Progress | NextAction
    | ResultEvidence | BlockedReason | WaitingOn
    | DeliveryMode | TargetBranch | BaseSha | CandidateSha | VerifiedSha | PromotedSha | DeliveryResources
    | Unknown(name: string)

  /** The declared branches and worktrees; a value can hold their JSON encoding, which is injective. */
  datatype Resources = Resources(branches: seq<string>, worktrees: seq<string>)

  datatype Value = Null | Text(text: string) | Encoded(resources: Resources) | Data(shown: string, empty: bool)

  type Task = map<Field, Value>

  /** The delivery facts, which no rule may reach as ordinary fields. */
  predicate DeliveryManaged(f: Field) {
    f.DeliveryMode? || f.TargetBranch? || f.BaseSha? || f.CandidateSha? || f.VerifiedSha? || f.PromotedSha? ||
      f.DeliveryResources?
  }

  predicate Known(f: Field) {
    !f.Unknown?
  }

  predicate DirectlyWritable(f: Field) {
    Known(f) && f != TaskId && f != Status && f != AgentName && f != AgentId && !DeliveryManaged(f)
  }

  predicate Clearable(f: Field) {
    Known(f) && f != TaskId && f != Status && f != Title && !DeliveryManaged(f)
  }

  function Get(task: Task, f: Field): Value {
    if f in task then task[f] else Null
  }

  // ---------------------------------------------------------------- text

  predicate IsSpace(c: char) {
    c == ' ' || c == '\t' || c == '\n' || c == '\r'
  }

  function StripLeft(s: string): string {
    if s == [] || !IsSpace(s[0]) then s else StripLeft(s[1..])
  }

  function StripRight(s: string): string {
    if s == [] || !IsSpace(s[|s| - 1]) then s else StripRight(s[..|s| - 1])
  }

  function Strip(s: string): string {
    StripRight(StripLeft(s))
  }

  lemma {:induction false} StripLeftStarts(s: string)
    ensures StripLeft(s) == [] || !IsSpace(StripLeft(s)[0])
  {
    if s != [] && IsSpace(s[0]) { StripLeftStarts(s[1..]); }
  }

  lemma {:induction false} StripRightEnds(s: string)
    ensures var r := StripRight(s);
      r <= s && (r == [] || !IsSpace(r[|r| - 1]))
  {
    if s != [] && IsSpace(s[|s| - 1]) { StripRightEnds(s[..|s| - 1]); }
  }

  lemma StripIsIdempotent(s: string)
    ensures Strip(Strip(s)) == Strip(s)
  {
    var r := Strip(s);
    StripLeftStarts(s);
    StripRightEnds(StripLeft(s));
    assert StripLeft(r) == r;
  }

  predicate Blank(v: Value) {
    match v
    case Null => true
    case Text(s) => Strip(s) == ""
    case Encoded(_) => false
    case Data(_, empty) => empty
  }

  predicate SameValue(current: Value, expected: Value) {
    (Blank(current) && Blank(expected)) || current == expected
  }

  /** str(value), and the text form str(value or "").strip() that the delivery code reads. */
  function Str(v: Value): string {
    match v
    case Null => "None"
    case Text(s) => s
    case Encoded(_) => "{...}"
    case Data(shown, _) => shown
  }

  function TextOf(v: Value): string {
    match v
    case Null => ""
    case Text(s) => Strip(s)
    case Encoded(_) => "{...}"
    case Data(shown, empty) => if empty then "" else Strip(shown)
  }
}
