/**
 Reading a rollout file from its end in chunks, and the newest-match queries built on it.  A file is its
 bytes; what a line says once it is parsed is a function of the line.
 */
module RolloutReader {
  import opened Common

  newtype Byte = x: int | 0 <= x < 256

  const LF: Byte := 10
  const CR: Byte := 13

  type Line = seq<Byte>

  // ---------------------------------------------------------------- what the reader should yield

  /** bytes.split: the pieces between newlines; there is always at least one. */
  function Split(s: seq<Byte>): (r: seq<Line>)
    ensures r != []
  {
    if s == [] then [[]] else Front(s[0], Split(s[1..]))
  }

  /** One more byte in front: a newline opens a new piece, any other byte extends the first one. */
  function Front(b: Byte, parts: seq<Line>): (r: seq<Line>)
    requires parts != []
    ensures r != []
  {
    if b == LF then [[]] + parts else [[b] + parts[0]] + parts[1..]
  }

  lemma FrontAppend(b: Byte, p: seq<Line>, q: seq<Line>)
    requires p != []
    ensures Front(b, p + q) == Front(b, p) + q
  {
    assert (p + q)[0] == p[0] && (p + q)[1..] == p[1..] + q;
    assert [[]] + (p + q) == ([[]] + p) + q;
    assert [[b] + p[0]] + (p[1..] + q) == ([[b] + p[0]] + p[1..]) + q;
  }

  function RStrip(line: Line): Line {
    if line != [] && line[|line| - 1] == CR then RStrip(line[..|line| - 1]) else line
  }

  /** The non-empty pieces with their trailing carriage returns removed. */
  function Yielded(parts: seq<Line>): seq<Line> {
    if parts == [] then []
    else (if parts[0] != [] then [RStrip(parts[0])] else []) + Yielded(parts[1..])
  }

  function Lines(content: seq<Byte>): seq<Line> {
    Yielded(Split(content))
  }

  function Reverse<T>(xs: seq<T>): (r: seq<T>)
    ensures |r| == |xs| && forall i :: 0 <= i < |xs| ==> r[i] == xs[|xs| - 1 - i]
  {
    if xs == [] then [] else Reverse(xs[1..]) + [xs[0]]
  }

  function Join(parts: seq<Line>): seq<Byte>
    requires parts != []
  {
    if |parts| == 1 then parts[0] else parts[0] + [LF] + Join(parts[1..])
  }

  /** The pieces hold no newline and, with newlines between them, are the file. */
  lemma {:induction false} SplitMeaning(s: seq<Byte>)
    ensures Join(Split(s)) == s && forall k :: 0 <= k < |Split(s)| ==> LF !in Split(s)[k]
  {
    if s != [] {
      SplitMeaning(s[1..]);
      var rest := Split(s[1..]);
      if s[0] == LF {
        assert ([[]] + rest)[1..] == rest;
        assert s == [] + [LF] + s[1..];
      } else {
        var first := [s[0]] + rest[0];
        assert ([first] + rest[1..])[1..] == rest[1..];
        assert s == [s[0]] + Join(rest);
        if |rest| > 1 { assert [s[0]] + (rest[0] + [LF] + Join(rest[1..])) == first + [LF] + Join(rest[1..]); }
      }
    }
  }

  // ---------------------------------------------------------------- splitting in chunks

  /** A piece holds no newline, so splitting it again changes nothing. */
  lemma {:induction false} FirstPieceIsWhole(s: seq<Byte>)
    ensures Split(Split(s)[0]) == [Split(s)[0]]
  {
    if s != [] && s[0] != LF {
      FirstPieceIsWhole(s[1..]);
      var rest := Split(s[1..]);
      var piece := [s[0]] + rest[0];
      assert piece[1..] == rest[0];
      assert Split(piece) == [piece];
    }
  }

  /** Only the first piece of what follows touches an earlier chunk. */
  lemma {:induction false} SplitChunk(chunk: seq<Byte>, s: seq<Byte>)
    ensures Split(chunk + s) == Split(chunk + Split(s)[0]) + Split(s)[1..]
  {
    if chunk == [] {
      assert chunk + s == s && chunk + Split(s)[0] == Split(s)[0];
      FirstPieceIsWhole(s);
      assert Split(s) == [Split(s)[0]] + Split(s)[1..];
    } else {
      SplitChunk(chunk[1..], s);
      SplitFront(chunk, s);
      SplitFront(chunk, Split(s)[0]);
      FrontAppend(chunk[0], Split(chunk[1..] + Split(s)[0]), Split(s)[1..]);
    }
  }

  lemma SplitFront(chunk: seq<Byte>, s: seq<Byte>)
    requires chunk != []
    ensures Split(chunk + s) == Front(chunk[0], Split(chunk[1..] + s))
  {
    assert (chunk + s)[1..] == chunk[1..] + s;
  }

  lemma {:induction false} YieldedAppend(p: seq<Line>, q: seq<Line>)
    ensures Yielded(p + q) == Yielded(p) + Yielded(q)
  {
    if p == [] {
      assert p + q == q;
    } else {
      YieldedAppend(p[1..], q);
      assert (p + q)[1..] == p[1..] + q;
    }
  }

  lemma {:induction false} ReverseAppend<T>(p: seq<T>, q: seq<T>)
    ensures Reverse(p + q) == Reverse(q) + Reverse(p)
  {
    if p == [] {
      assert p + q == q;
    } else {
      ReverseAppend(p[1..], q);
      assert (p + q)[1..] == p[1..] + q;
    }
  }

  // ---------------------------------------------------------------- the reader

  /** The inner loop: the parts of one chunk, last first. */
  method YieldParts(parts: seq<Line>) returns (out: seq<Line>)
    ensures out == Reverse(Yielded(parts))
  {
    out := [];
    var k := |parts|;
    while k > 0
      invariant 0 <= k <= |parts|
      invariant out == Reverse(Yielded(parts[k..]))
    {
      k := k - 1;
      assert parts[k..] == [parts[k]] + parts[k + 1..];
      YieldedAppend([parts[k]], parts[k + 1..]);
      ReverseAppend(Yielded([parts[k]]), Yielded(parts[k + 1..]));
      if parts[k] != [] { out := out + [RStrip(parts[k])]; }
    }
    assert parts[0..] == parts;
  }

  /** _reverse_lines, for every content and every positive chunk size. */
  method ReverseLines(content: seq<Byte>, chunkSize: nat) returns (out: seq<Line>)
    requires chunkSize > 0
    ensures out == Reverse(Lines(content))
  {
    out := [];
    var position := |content|;
    var remainder: Line := [];
    assert content[position..] == [];
    while position > 0
      invariant 0 <= position <= |content|
      invariant remainder == Split(content[position..])[0]
      invariant out == Reverse(Yielded(Split(content[position..])[1..]))
    {
      var size := if chunkSize < position then chunkSize else position;
      ghost var after := content[position..];
      position := position - size;
      var chunk := content[position..position + size];
      var parts := Split(chunk + remainder);
      assert content[position..] == chunk + after;
      SplitChunk(chunk, after);
      assert Split(content[position..])[1..] == parts[1..] + Split(after)[1..];
      YieldedAppend(parts[1..], Split(after)[1..]);
      ReverseAppend(Yielded(parts[1..]), Yielded(Split(after)[1..]));
      remainder := parts[0];
      var yielded := YieldParts(parts[1..]);
      out := out + yielded;
    }
    assert content[0..] == content;
    var pieces := Split(content);
    assert pieces == [pieces[0]] + pieces[1..];
    YieldedAppend([pieces[0]], pieces[1..]);
    ReverseAppend(Yielded([pieces[0]]), Yielded(pieces[1..]));
    if remainder != [] { out := out + [RStrip(remainder)]; }
  }

  /** Appending a newline and more text leaves the lines already written as they were. */
  lemma LinesOfAppend(a: seq<Byte>, b: seq<Byte>)
    ensures Lines(a + ([LF] + b)) == Lines(a) + Lines(b)
  {
    SplitAtNewline(a, [LF] + b);
    SplitFront([LF], b);
    assert [LF][1..] + b == b;
    assert Split([LF] + b) == [[]] + Split(b);
    YieldedAppend(Split(a), Split(b));
  }

  lemma {:induction false} SplitAtNewline(a: seq<Byte>, tail: seq<Byte>)
    requires Split(tail)[0] == []
    ensures Split(a + tail) == Split(a) + Split(tail)[1..]
  {
    SplitChunk(a, tail);
    assert a + Split(tail)[0] == a;
  }

  // ---------------------------------------------------------------- the newest match

  /** What one parsed line means to a query; anything irrelevant or unreadable is Other. */
  datatype Note = Other | Message(client: nat) | Started(turn: nat) | Completed(turn: nat)

  /** A full forward scan that keeps the last match. */
  function Newest(lines: seq<Line>, hit: Line -> bool): (r: Option<nat>)
    ensures r.Some? ==> NewestAt(lines, hit, r.value)
    ensures r == None ==> forall j :: 0 <= j < |lines| ==> !hit(lines[j])
  {
    if lines == [] then None
    else if hit(lines[|lines| - 1]) then Some(|lines| - 1)
    else Newest(lines[..|lines| - 1], hit)
  }

  predicate NewestAt(lines: seq<Line>, hit: Line -> bool, i: nat) {
    i < |lines| && hit(lines[i]) && forall j :: i < j < |lines| ==> !hit(lines[j])
  }

  lemma NewestIsUnique(lines: seq<Line>, hit: Line -> bool, i: nat)
    requires NewestAt(lines, hit, i)
    ensures Newest(lines, hit) == Some(i)
  {
  }

  predicate Mirrors(reversed: seq<Line>, lines: seq<Line>) {
    |reversed| == |lines| && forall i :: 0 <= i < |lines| ==> reversed[i] == lines[|lines| - 1 - i]
  }

  /** A scan from the end stops at what a full forward scan would keep. */
  method ScanNewest(reversed: seq<Line>, ghost lines: seq<Line>, hit: Line -> bool) returns (r: Option<Line>)
    requires Mirrors(reversed, lines)
    ensures var i := Newest(lines, hit);
      r == if i == None then None else Some(lines[i.value])
  {
    r := None;
    for k := 0 to |reversed|
      invariant forall j :: |lines| - k <= j < |lines| ==> !hit(lines[j])
    {
      assert reversed[k] == lines[|lines| - 1 - k];
      if hit(reversed[k]) {
        NewestIsUnique(lines, hit, |lines| - 1 - k);
        return Some(reversed[k]);
      }
    }
  }

  method FindNewest(content: seq<Byte>, chunkSize: nat, hit: Line -> bool) returns (r: Option<Line>)
    requires chunkSize > 0
    ensures var i := Newest(Lines(content), hit);
      r == if i == None then None else Some(Lines(content)[i.value])
  {
    var reversed := ReverseLines(content, chunkSize);
    r := ScanNewest(reversed, Lines(content), hit);
  }

  predicate About(note: Note, turn: nat) {
    note == Started(turn) || note == Completed(turn)
  }

  /** _codex_turn_lifecycle_event: what the newest line about the turn says. */
  function LifecycleEvent(lines: seq<Line>, read: Line -> Note, turn: nat): Option<Note> {
    var i := Newest(lines, (l: Line) => About(read(l), turn));
    if i == None then None else Some(read(lines[i.value]))
  }

  method FindLifecycleEvent(content: seq<Byte>, chunkSize: nat, read: Line -> Note, turn: nat) returns (r: Option<Note>)
    requires chunkSize > 0
    ensures r == LifecycleEvent(Lines(content), read, turn)
  {
    var line := FindNewest(content, chunkSize, (l: Line) => About(read(l), turn));
    r := if line == None then None else Some(read(line.value));
  }

  /** The turn counts as started exactly when some line is about it, and a completion that was written is
      believed until a newer line starts the same turn again. */
  lemma CompletionIsDurable(lines: seq<Line>, more: seq<Line>, read: Line -> Note, turn: nat)
    requires LifecycleEvent(lines, read, turn) == Some(Completed(turn))
    requires forall k :: 0 <= k < |more| ==> read(more[k]) != Started(turn)
    ensures LifecycleEvent(lines + more, read, turn) == Some(Completed(turn))
  {
    var all := lines + more;
    var hit := (l: Line) => About(read(l), turn);
    var i := Newest(lines, hit).value;
    assert hit(all[i]);
    var n := Newest(all, hit).value;
    if n < |lines| {
      assert all[n] == lines[n] && n <= i && i <= n;
    } else {
      assert all[n] == more[n - |lines|];
    }
  }

  // ---------------------------------------------------------------- the turn of a message

  /** The last turn started before the newest appearance of the message. */
  function TurnOfMessage(lines: seq<Line>, read: Line -> Note, client: nat): Option<nat> {
    var m := Newest(lines, (l: Line) => read(l) == Message(client));
    if m == None then None
    else
      var s := Newest(lines[..m.value], (l: Line) => read(l).Started?);
      if s == None then None else Some(read(lines[s.value]).turn)
  }

  /** codex_turn_id_by_client_message_id, with its flag. */
  method FindTurnOfMessage(content: seq<Byte>, chunkSize: nat, read: Line -> Note, client: nat) returns (r: Option<nat>)
    requires chunkSize > 0
    ensures r == TurnOfMessage(Lines(content), read, client)
  {
    var reversed := ReverseLines(content, chunkSize);
    r := ScanTurn(reversed, Lines(content), read, client);
  }

  method ScanTurn(reversed: seq<Line>, ghost lines: seq<Line>, read: Line -> Note, client: nat) returns (r: Option<nat>)
    requires Mirrors(reversed, lines)
    ensures r == TurnOfMessage(lines, read, client)
  {
    ghost var message, started := (l: Line) => read(l) == Message(client), (l: Line) => read(l).Started?;
    ghost var at := 0;
    var found := false;
    r := None;
    for k := 0 to |reversed|
      invariant !found ==> forall j :: |lines| - k <= j < |lines| ==> !message(lines[j])
      invariant found ==> NewestAt(lines, message, at) && |lines| - k <= at
      invariant found ==> forall j :: |lines| - k <= j < at ==> !started(lines[j])
    {
      var n := |reversed| - 1 - k;
      assert reversed[k] == lines[n];
      if !found {
        found := read(reversed[k]) == Message(client);
        at := n;
        continue;
      }
      if read(reversed[k]).Started? {
        StartFound(lines, read, client, at, n);
        return Some(read(reversed[k]).turn);
      }
    }
    if found { NoStart(lines, read, client, at); } else { NoMessage(lines, read, client); }
  }

  lemma StartFound(lines: seq<Line>, read: Line -> Note, client: nat, m: nat, s: nat)
    requires NewestAt(lines, (l: Line) => read(l) == Message(client), m) && s < m
    requires read(lines[s]).Started? && forall j :: s < j < m ==> !read(lines[j]).Started?
    ensures TurnOfMessage(lines, read, client) == Some(read(lines[s]).turn)
  {
    NewestIsUnique(lines, (l: Line) => read(l) == Message(client), m);
    NewestIsUnique(lines[..m], (l: Line) => read(l).Started?, s);
  }

  lemma NoStart(lines: seq<Line>, read: Line -> Note, client: nat, m: nat)
    requires NewestAt(lines, (l: Line) => read(l) == Message(client), m)
    requires forall j :: 0 <= j < m ==> !read(lines[j]).Started?
    ensures TurnOfMessage(lines, read, client) == None
  {
    NewestIsUnique(lines, (l: Line) => read(l) == Message(client), m);
  }

  lemma NoMessage(lines: seq<Line>, read: Line -> Note, client: nat)
    requires forall j :: 0 <= j < |lines| ==> read(lines[j]) != Message(client)
    ensures TurnOfMessage(lines, read, client) == None
  {
  }
}
