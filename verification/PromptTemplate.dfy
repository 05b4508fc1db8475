/** Prompt templates: locating placeholders, substituting values, and the document a template stands for. */
module PromptTemplate {
  import opened Common

  predicate NameStart(c: char) {
    'a' <= c <= 'z'
  }

  predicate NameRest(c: char) {
    'a' <= c <= 'z' || '0' <= c <= '9' || c == '_'
  }

  /** A lower_snake_case name. */
  predicate ValidName(s: string) {
    s != "" && NameStart(s[0]) && forall c :: c in s ==> NameRest(c)
  }

  // ---------------------------------------------------------------- pairs of braces

  predicate PairAt(s: string, c: char, i: int) {
    0 <= i && i + 1 < |s| && s[i] == c && s[i + 1] == c
  }

  ghost predicate NoPair(s: string, c: char) {
    forall i :: !PairAt(s, c, i)
  }

  /** str.find of a doubled character. */
  method Find(s: string, c: char, start: nat) returns (r: Option<nat>)
    requires start <= |s|
    ensures r == FindFrom(s, c, start)
  {
    var i := start;
    while i + 1 < |s|
      invariant start <= i <= |s| && FindFrom(s, c, i) == FindFrom(s, c, start)
      decreases |s| - i
    {
      if s[i] == c && s[i + 1] == c { return Some(i); }
      i := i + 1;
    }
    r := None;
  }

  function FindFrom(s: string, c: char, start: nat): (r: Option<nat>)
    ensures r.Some? ==> start <= r.value && PairAt(s, c, r.value)
    ensures r.Some? ==> forall i :: start <= i < r.value ==> !PairAt(s, c, i)
    ensures r == None ==> forall i :: start <= i ==> !PairAt(s, c, i)
    decreases |s| - start
  {
    if start + 1 >= |s| then None
    else if PairAt(s, c, start) then Some(start)
    else FindFrom(s, c, start + 1)
  }

  // ---------------------------------------------------------------- documents

  /** Literal text, then a slot and the rest, or the end. */
  datatype Doc = End(text: string) | Slot(text: string, name: string, rest: Doc)

  function Placeholder(name: string): string {
    "{{" + name + "}}"
  }

  function Print(doc: Doc): string {
    match doc
    case End(text) => text
    case Slot(text, name, rest) => text + Placeholder(name) + Print(rest)
  }

  /** Literals hold no doubled brace, and none runs into the braces that open the next slot. */
  ghost predicate Good(doc: Doc) {
    NoPair(doc.text, '{') && NoPair(doc.text, '}') &&
    (doc.Slot? ==> (doc.text == "" || doc.text[|doc.text| - 1] != '{') && ValidName(doc.name) && Good(doc.rest))
  }

  /** The document of a template, or nothing when a brace could not be resolved. */
  function Parse(t: string): Option<Doc>
    decreases |t|
  {
    var lead := FindFrom(t, '{', 0);
    if lead == None then if FindFrom(t, '}', 0) == None then Some(End(t)) else None
    else if FindFrom(t[..lead.value], '}', 0).Some? then None
    else
      var closed := FindFrom(t, '}', lead.value + 2);
      if closed == None || !ValidName(t[lead.value + 2..closed.value]) then None
      else
        var rest := Parse(t[closed.value + 2..]);
        if rest == None then None else Some(Slot(t[..lead.value], t[lead.value + 2..closed.value], rest.value))
  }

  // ---------------------------------------------------------------- parsing inverts printing

  lemma {:induction false} ParseIsGood(t: string)
    requires Parse(t).Some?
    ensures Good(Parse(t).value) && Print(Parse(t).value) == t
    decreases |t|
  {
    var lead := FindFrom(t, '{', 0);
    if lead.Some? {
      var o := lead.value;
      var text := t[..o];
      var closed := FindFrom(t, '}', o + 2).value;
      ParseIsGood(t[closed + 2..]);
      forall i ensures !PairAt(text, '{', i) { assert PairAt(text, '{', i) ==> PairAt(t, '{', i); }
      if text != "" { assert !PairAt(t, '{', o - 1); }
      Rebuild(t, o, closed);
    }
  }

  lemma Rebuild(t: string, o: nat, closed: nat)
    requires o + 2 <= closed && PairAt(t, '{', o) && PairAt(t, '}', closed)
    ensures t[..o] + Placeholder(t[o + 2..closed]) + t[closed + 2..] == t
  {
    assert t[o..o + 2] == "{{" && t[closed..closed + 2] == "}}";
    assert t == t[..o] + t[o..o + 2] + t[o + 2..closed] + t[closed..closed + 2] + t[closed + 2..];
  }

  /** A name holds no brace. */
  lemma NameHasNoBrace(name: string, i: int)
    requires ValidName(name) && 0 <= i < |name|
    ensures name[i] != '{' && name[i] != '}'
  {
    assert name[i] in name;
  }

  lemma ParseSlot(t: string, lead: nat, closed: nat)
    requires FindFrom(t, '{', 0) == Some(lead) && FindFrom(t[..lead], '}', 0) == None
    requires FindFrom(t, '}', lead + 2) == Some(closed) && ValidName(t[lead + 2..closed])
    ensures var rest := Parse(t[closed + 2..]);
      Parse(t) == if rest == None then None else Some(Slot(t[..lead], t[lead + 2..closed], rest.value))
  {
  }

  lemma {:induction false} PrintParses(doc: Doc)
    requires Good(doc)
    ensures Parse(Print(doc)) == Some(doc)
  {
    if doc.Slot? {
      PrintParses(doc.rest);
      PrintedSlotParses(doc);
    }
  }

  lemma PrintedSlotParses(doc: Doc)
    requires Good(doc) && doc.Slot? && Parse(Print(doc.rest)) == Some(doc.rest)
    ensures Parse(Print(doc)) == Some(doc)
  {
    hide Parse, ValidName, FindFrom;
    SlotLayout(doc);
    OpensAt(doc);
    ClosesAt(doc);
    ParseSlot(Print(doc), |doc.text|, |doc.text| + 2 + |doc.name|);
  }

  lemma SlotLayout(doc: Doc)
    requires doc.Slot?
    ensures var t := Print(doc);
      var o := |doc.text|;
      var closed := o + 2 + |doc.name|;
      |t| == closed + 2 + |Print(doc.rest)| && t[..o] == doc.text && t[o + 2..closed] == doc.name &&
        t[closed + 2..] == Print(doc.rest)
      && PairAt(t, '{', o) && PairAt(t, '}', closed)
  {
  }

  lemma OpensAt(doc: Doc)
    requires doc.Slot? && Good(doc)
    ensures FindFrom(Print(doc), '{', 0) == Some(|doc.text|)
  {
    SlotLayout(doc);
    var t := Print(doc);
    forall i | 0 <= i < |doc.text| ensures !PairAt(t, '{', i) {
      assert t[i] == doc.text[i];
      if i + 1 < |doc.text| { assert t[i + 1] == doc.text[i + 1] && !PairAt(doc.text, '{', i); }
    }
  }

  lemma ClosesAt(doc: Doc)
    requires doc.Slot? && Good(doc)
    ensures FindFrom(Print(doc), '}', |doc.text| + 2) == Some(|doc.text| + 2 + |doc.name|)
    ensures FindFrom(doc.text, '}', 0) == None
  {
    SlotLayout(doc);
    var t := Print(doc);
    var o := |doc.text|;
    forall i | o + 2 <= i < o + 2 + |doc.name| ensures !PairAt(t, '}', i) {
      assert t[i] == doc.name[i - o - 2];
      NameHasNoBrace(doc.name, i - o - 2);
    }
  }

  /** A template is accepted exactly when it prints a good document, and that document is its own. */
  lemma AcceptedIffPrinted(t: string)
    ensures Parse(t).Some? <==> exists doc :: Good(doc) && Print(doc) == t
  {
    if Parse(t).Some? { ParseIsGood(t); }
    if exists doc :: Good(doc) && Print(doc) == t {
      var doc :| Good(doc) && Print(doc) == t;
      PrintParses(doc);
    }
  }

  // ---------------------------------------------------------------- placeholders

  datatype Span = Span(start: nat, end: nat, name: string)

  /** The spans of a document that starts at `offset` of the template. */
  function Spans(doc: Doc, offset: nat): seq<Span> {
    match doc
    case End(_) => []
    case Slot(text, name, rest) =>
      var start := offset + |text|;
      var end := start + |name| + 4;
      [Span(start, end, name)] + Spans(rest, end)
  }

  datatype Next = Stop | Bad | Found(span: Span)

  /** What the template from `cursor` on says next. */
  predicate NextIs(template: string, cursor: nat, next: Next)
    requires cursor <= |template|
  {
    var doc := Parse(template[cursor..]);
    match next
    case Bad => doc == None
    case Stop => doc == Some(End(template[cursor..]))
    case Found(span) =>
      cursor <= span.start && span.end == span.start + |span.name| + 4 && span.end <= |template| &&
      var rest := Parse(template[span.end..]);
      doc == if rest == None then None else Some(Slot(template[cursor..span.start], span.name, rest.value))
  }

  /** The next slot, when the two pairs of braces were found and hold a name. */
  lemma SlotNext(template: string, cursor: nat, lead: nat, closed: nat)
    requires cursor <= |template|
    requires FindFrom(template, '{', cursor) == Some(lead) && FindFrom(template[cursor..lead], '}', 0) == None
    requires FindFrom(template, '}', lead + 2) == Some(closed) && ValidName(template[lead + 2..closed])
    ensures NextIs(template, cursor, Found(Span(lead, closed + 2, template[lead + 2..closed])))
  {
    hide ValidName, Parse;
    var tail := template[cursor..];
    ShiftFind(template, '{', cursor, cursor);
    ShiftFind(template, '}', cursor, lead + 2);
    TailSlices(template, cursor, lead, closed);
    ParseSlot(tail, lead - cursor, closed - cursor);
  }

  lemma TailSlices(template: string, cursor: nat, lead: nat, closed: nat)
    requires cursor <= lead && lead + 2 <= closed && closed + 2 <= |template|
    ensures var tail := template[cursor..];
      tail[..lead - cursor] == template[cursor..lead] &&
        tail[lead + 2 - cursor..closed - cursor] == template[lead + 2..closed] &&
      tail[closed + 2 - cursor..] == template[closed + 2..]
  {
  }

  lemma ParseStray(t: string, lead: nat)
    requires FindFrom(t, '{', 0) == Some(lead) && (FindFrom(t[..lead], '}', 0).Some? || FindFrom(t, '}', lead + 2)
      == None)
    ensures Parse(t) == None
  {
  }

  lemma StrayNext(template: string, cursor: nat, lead: nat)
    requires cursor <= |template| && FindFrom(template, '{', cursor) == Some(lead)
    requires FindFrom(template[cursor..lead], '}', 0).Some? || FindFrom(template, '}', lead + 2) == None
    ensures NextIs(template, cursor, Bad)
  {
    hide ValidName, Parse;
    ShiftFind(template, '{', cursor, cursor);
    ShiftFind(template, '}', cursor, lead + 2);
    assert template[cursor..][..lead - cursor] == template[cursor..lead];
    ParseStray(template[cursor..], lead - cursor);
  }

  lemma ParseUnnamed(t: string, lead: nat, closed: nat)
    requires FindFrom(t, '{', 0) == Some(lead) && FindFrom(t, '}', lead + 2) == Some(closed)
    requires !ValidName(t[lead + 2..closed])
    ensures Parse(t) == None
  {
  }

  lemma UnnamedNext(template: string, cursor: nat, lead: nat, closed: nat)
    requires cursor <= |template| && FindFrom(template, '{', cursor) == Some(lead)
    requires FindFrom(template, '}', lead + 2) == Some(closed) && !ValidName(template[lead + 2..closed])
    ensures NextIs(template, cursor, Bad)
  {
    hide ValidName, Parse;
    ShiftFind(template, '{', cursor, cursor);
    ShiftFind(template, '}', cursor, lead + 2);
    TailSlices(template, cursor, lead, closed);
    ParseUnnamed(template[cursor..], lead - cursor, closed - cursor);
  }

  lemma LastNext(template: string, cursor: nat)
    requires cursor <= |template| && FindFrom(template, '{', cursor) == None
    ensures NextIs(template, cursor, if FindFrom(template[cursor..], '}', 0).Some? then Bad else Stop)
  {
    ShiftFind(template, '{', cursor, cursor);
  }

  /** One turn of the loop. */
  method NextSlot(template: string, cursor: nat) returns (next: Next)
    requires cursor <= |template|
    ensures NextIs(template, cursor, next)
  {
    hide NextIs, Parse;
    var lead := Find(template, '{', cursor);
    if lead == None {
      var stray := Find(template[cursor..], '}', 0);
      LastNext(template, cursor);
      return if stray.Some? then Bad else Stop;
    }
    var stray := Find(template[cursor..lead.value], '}', 0);
    var closed := Find(template, '}', lead.value + 2);
    if stray.Some? || closed == None {
      StrayNext(template, cursor, lead.value);
      return Bad;
    }
    if !ValidName(template[lead.value + 2..closed.value]) {
      UnnamedNext(template, cursor, lead.value, closed.value);
      return Bad;
    }
    SlotNext(template, cursor, lead.value, closed.value);
    next := Found(Span(lead.value, closed.value + 2, template[lead.value + 2..closed.value]));
  }

  /** What was collected before `cursor` is what the whole template says before it. */
  ghost predicate Collected(template: string, cursor: nat, spans: seq<Span>) {
    cursor <= |template| &&
    var all, rest := Parse(template), Parse(template[cursor..]);
    (all == None <==> rest == None) && (all.Some? ==> Spans(all.value, 0) == spans + Spans(rest.value, cursor))
  }

  lemma CollectNext(template: string, cursor: nat, spans: seq<Span>, next: Next)
    requires Collected(template, cursor, spans) && NextIs(template, cursor, next)
    ensures next.Bad? ==> Parse(template) == None
    ensures next.Stop? ==> Parse(template).Some? && Spans(Parse(template).value, 0) == spans
    ensures next.Found? ==> Collected(template, next.span.end, spans + [next.span])
  {
    hide Parse, ValidName;
    if next.Found? && Parse(template[next.span.end..]).Some? {
      assert spans + ([next.span] + Spans(Parse(template[next.span.end..]).value, next.span.end))
          == spans + [next.span] + Spans(Parse(template[next.span.end..]).value, next.span.end);
    }
  }

  /** _placeholders: one pass with a cursor, refusing braces it could not resolve. */
  method Placeholders(template: string) returns (r: Option<seq<Span>>)
    ensures r == if Parse(template) == None then None else Some(Spans(Parse(template).value, 0))
  {
    var spans: seq<Span> := [];
    var cursor: nat := 0;
    assert template[0..] == template;
    while true
      invariant Collected(template, cursor, spans)
      decreases |template| - cursor
    {
      var next := NextSlot(template, cursor);
      CollectNext(template, cursor, spans, next);
      match next {
        case Bad => return None;
        case Stop => return Some(spans);
        case Found(span) =>
          spans := spans + [span];
          cursor := span.end;
      }
    }
  }

  lemma {:induction false} ShiftFind(s: string, c: char, cursor: nat, start: nat)
    requires cursor <= start <= |s|
    ensures var shifted := FindFrom(s[cursor..], c, start - cursor);
      FindFrom(s, c, start) == if shifted == None then None else Some(shifted.value + cursor)
    decreases |s| - start
  {
    if start + 1 < |s| && !PairAt(s, c, start) { ShiftFind(s, c, cursor, start + 1); }
  }

  ghost predicate SpanOk(template: string, s: Span) {
    s.start + 4 < s.end <= |template| && ValidName(s.name) && template[s.start..s.end] == Placeholder(s.name)
  }

  ghost predicate InOrder(template: string, start: nat, spans: seq<Span>) {
    (forall k :: 0 <= k < |spans| ==> SpanOk(template, spans[k]) && start <= spans[k].start) &&
    (forall j, k :: 0 <= j < k < |spans| ==> spans[j].end <= spans[k].start)
  }

  lemma FirstInOrder(template: string, start: nat, first: Span, rest: seq<Span>)
    requires SpanOk(template, first) && start <= first.start && InOrder(template, first.end, rest)
    ensures InOrder(template, start, [first] + rest)
  {
    var spans := [first] + rest;
    forall k | 0 < k < |spans| ensures SpanOk(template, spans[k]) && first.end <= spans[k].start {
      assert spans[k] == rest[k - 1];
    }
    forall j, k | 0 < j < k < |spans| ensures spans[j].end <= spans[k].start {
      assert spans[k] == rest[k - 1] && spans[j] == rest[j - 1];
    }
  }

  /** Accepted spans lie in the template in order, without overlap, each on its own placeholder. */
  lemma {:induction false} SpansAreOrdered(doc: Doc, before: string)
    requires Good(doc)
    ensures InOrder(before + Print(doc), |before|, Spans(doc, |before|))
  {
    if doc.Slot? {
      var head := before + (doc.text + Placeholder(doc.name));
      SpansAreOrdered(doc.rest, head);
      assert before + Print(doc) == head + Print(doc.rest);
      var start := |before| + |doc.text|;
      var first := Span(start, start + |doc.name| + 4, doc.name);
      assert (before + Print(doc))[first.start..first.end] == Placeholder(doc.name);
      FirstInOrder(before + Print(doc), |before|, first, Spans(doc.rest, |head|));
    }
  }

  // ---------------------------------------------------------------- substitution

  function Fill(doc: Doc, values: map<string, string>): string {
    match doc
    case End(text) => text
    case Slot(text, name, rest) => text + (if name in values then values[name] else "") + Fill(rest, values)
  }

  /** Substituting every name by its own placeholder rebuilds the template. */
  lemma {:induction false} OwnPlaceholdersRebuild(doc: Doc, values: map<string, string>)
    requires forall name :: name in Names(doc) ==> name in values && values[name] == Placeholder(name)
    ensures Fill(doc, values) == Print(doc)
  {
    if doc.Slot? { OwnPlaceholdersRebuild(doc.rest, values); }
  }

  function Names(doc: Doc): set<string> {
    match doc
    case End(_) => {}
    case Slot(_, name, rest) => {name} + Names(rest)
  }

  lemma SlotSlices(template: string, cursor: nat, left: Doc)
    requires cursor <= |template| && template[cursor..] == Print(left) && left.Slot?
    ensures var start := cursor + |left.text|;
      var end := start + |left.name| + 4;
      end <= |template| && template[cursor..start] == left.text && template[end..] == Print(left.rest)
  {
    SlotLayout(left);
    var tail := template[cursor..];
    assert tail[..|left.text|] == template[cursor..cursor + |left.text|];
    assert tail[|left.text| + |left.name| + 4..] == template[cursor + |left.text| + |left.name| + 4..];
  }

  lemma FillNext(out: string, left: Doc, values: map<string, string>)
    requires left.Slot? && left.name in values
    ensures (out + left.text + values[left.name]) + Fill(left.rest, values) == out + Fill(left, values)
  {
    assert out + (left.text + values[left.name] + Fill(left.rest,
      values)) == (out + left.text + values[left.name]) + Fill(left.rest, values);
  }

  lemma EndFills(doc: Doc, values: map<string, string>)
    requires doc.End?
    ensures Fill(doc, values) == Print(doc)
  {
  }

  /** _substitute: the pieces between the spans, with a value for each span. */
  method Substitute(template: string, ghost doc: Doc, spans: seq<Span>, values: map<string, string>)
    returns (out: string)
    requires template == Print(doc) && spans == Spans(doc, 0) && Names(doc) <= values.Keys
    ensures out == Fill(doc, values)
  {
    hide PairAt, Print, Placeholder, Fill;
    out := "";
    var cursor: nat := 0;
    ghost var left := doc;
    for k := 0 to |spans|
      invariant cursor <= |template| && template[cursor..] == Print(left) && spans[k..] == Spans(left, cursor)
      invariant Names(left) <= values.Keys && out + Fill(left, values) == Fill(doc, values)
    {
      assert spans[k] == spans[k..][0] && spans[k + 1..] == spans[k..][1..];
      var span := spans[k];
      SlotSlices(template, cursor, left);
      FillNext(out, left, values);
      out := out + template[cursor..span.start] + values[span.name];
      cursor := span.end;
      left := left.rest;
    }
    assert left.End?;
    EndFills(left, values);
    out := out + template[cursor..];
  }

  // ---------------------------------------------------------------- render

  datatype RenderError = BadSurface | BadTrigger | BadVariables | BadTemplate | Disagreement

  datatype Declared = Declared(surface: string, triggers: seq<string>, required: set<string>, template: string)

  function Chomp(s: string): string {
    if s != "" && s[|s| - 1] == '\n' then s[..|s| - 1] else s
  }

  /** What a declared prompt renders to: exactly the declared variables, nothing rescanned, one final newline dropped.
      */
  function Rendered(d: Declared, surface: string, trigger: string,
                    values: map<string, string>): Result<string, RenderError> {
    if surface != d.surface then Err(BadSurface)
    else if trigger !in d.triggers then Err(BadTrigger)
    else if values.Keys != d.required then Err(BadVariables)
    else
      var doc := Parse(d.template);
      if doc == None then Err(BadTemplate)
      else if Names(doc.value) != d.required then Err(Disagreement)
      else Ok(Chomp(Fill(doc.value, values)))
  }

  method Render(d: Declared, surface: string, trigger: string, values: map<string, string>)
    returns (r: Result<string, RenderError>)
    ensures r == Rendered(d, surface, trigger, values)
  {
    if surface != d.surface { return Err(BadSurface); }
    if trigger !in d.triggers { return Err(BadTrigger); }
    if values.Keys != d.required { return Err(BadVariables); }
    var spans := Placeholders(d.template);
    if spans == None { return Err(BadTemplate); }
    ghost var doc := Parse(d.template).value;
    SpanNames(doc, 0);
    if (set k | 0 <= k < |spans.value| :: spans.value[k].name) != d.required { return Err(Disagreement); }
    ParseIsGood(d.template);
    var out := Substitute(d.template, Parse(d.template).value, spans.value, values);
    r := Ok(Chomp(out));
  }

  lemma {:induction false} SpanNames(doc: Doc, offset: nat)
    ensures var spans := Spans(doc, offset);
      Names(doc) == set k | 0 <= k < |spans| :: spans[k].name
  {
    if doc.Slot? {
      var end := offset + |doc.text| + |doc.name| + 4;
      SpanNames(doc.rest, end);
      var spans := Spans(doc, offset);
      var rest := Spans(doc.rest, end);
      forall name ensures name in Names(doc) <==> exists k :: 0 <= k < |spans| && spans[k].name == name {
        if name in Names(doc.rest) {
          var k :| 0 <= k < |rest| && rest[k].name == name;
          assert spans[k + 1] == rest[k];
        }
        if name == doc.name { assert spans[0].name == name; }
        if exists k :: 0 <= k < |spans| && spans[k].name == name {
          var k :| 0 <= k < |spans| && spans[k].name == name;
          if k > 0 { assert rest[k - 1] == spans[k]; }
        }
      }
    }
  }
}
