/**
 The lifecycle as a graph: the worklist that computes reachable states, and the validator that
 accepts a lifecycle only when every state can be entered and every open state can end.
 */
module StateGraph {
  import opened Common

  type Edges = map<string, set<string>>

  /** Every destination is a declared state. */
  ghost predicate Closed(edges: Edges) {
    forall s, d :: s in edges && d in edges[s] ==> d in edges
  }

  predicate Edge(edges: Edges, s: string, d: string) {
    s in edges && d in edges[s]
  }

  ghost predicate Walk(edges: Edges, path: seq<string>) {
    path != [] && path[0] in edges && forall i :: 0 <= i < |path| - 1 ==> Edge(edges, path[i], path[i + 1])
  }

  ghost predicate Leads(edges: Edges, path: seq<string>, s: string, d: string) {
    Walk(edges, path) && path[0] == s && path[|path| - 1] == d
  }

  /** The reflexive and transitive closure of the edges. */
  ghost predicate Reaches(edges: Edges, s: string, d: string) {
    exists path :: Leads(edges, path, s, d)
  }

  ghost predicate ReachedFrom(edges: Edges, roots: set<string>, d: string) {
    exists s :: s in roots && Reaches(edges, s, d)
  }

  lemma ReachesItself(edges: Edges, s: string)
    requires s in edges
    ensures Reaches(edges, s, s)
  {
    assert Leads(edges, [s], s, s);
  }

  lemma ReachesOneMore(edges: Edges, s: string, m: string, d: string)
    requires Reaches(edges, s, m) && Edge(edges, m, d)
    ensures Reaches(edges, s, d)
  {
    var path :| Leads(edges, path, s, m);
    var longer := path + [d];
    forall i | 0 <= i < |longer| - 1 ensures Edge(edges, longer[i], longer[i + 1]) {
      if i < |path| - 1 { assert Edge(edges, path[i], path[i + 1]); }
    }
    assert Leads(edges, longer, s, d);
  }

  /** A set closed under the edges holds everything its members reach. */
  lemma {:induction false} ClosedHoldsWalk(edges: Edges, within: set<string>, path: seq<string>, n: nat)
    requires Walk(edges, path) && path[0] in within && n < |path|
    requires forall s, d :: s in within && Edge(edges, s, d) ==> d in within
    ensures path[n] in within
  {
    if n > 0 {
      ClosedHoldsWalk(edges, within, path, n - 1);
      assert Edge(edges, path[n - 1], path[n]);
    }
  }

  lemma ClosedHolds(edges: Edges, roots: set<string>, within: set<string>, d: string)
    requires roots <= within && ReachedFrom(edges, roots, d)
    requires forall s, d :: s in within && Edge(edges, s, d) ==> d in within
    ensures d in within
  {
    var s :| s in roots && Reaches(edges, s, d);
    var path :| Leads(edges, path, s, d);
    ClosedHoldsWalk(edges, within, path, |path| - 1);
  }

  // ---------------------------------------------------------------- the worklist

  /** What is marked was reached, and only states still on the stack may have unmarked destinations. */
  ghost predicate WorklistOk(edges: Edges, roots: set<string>, reachable: set<string>, pending: seq<string>) {
    roots <= reachable <= edges.Keys &&
    (forall s :: s in pending ==> s in reachable) &&
    (forall s :: s in reachable ==> ReachedFrom(edges, roots, s)) &&
    (forall s :: s in reachable && s !in pending ==> edges[s] <= reachable)
  }

  lemma WorklistStep(edges: Edges, roots: set<string>, reachable: set<string>, rest: seq<string>, state: string,
                     pending': seq<string>)
    requires Closed(edges) && WorklistOk(edges, roots, reachable, rest + [state])
    requires forall s :: s in pending' <==> s in rest || s in edges[state] - reachable
    ensures WorklistOk(edges, roots, reachable + edges[state], pending')
  {
    assert state in rest + [state];
    forall d | d in edges[state] ensures ReachedFrom(edges, roots, d) { ExtendReach(edges, roots, state, d); }
    forall s | s in reachable + edges[state] && s !in pending' ensures edges[s] <= reachable + edges[state] {
      if s != state { assert s in reachable && s !in rest + [state]; }
    }
  }

  /** Marking something new leaves fewer declared states unmarked. */
  lemma WorklistProgress(edges: Edges, roots: set<string>, marked: set<string>, reachable: set<string>,
                         pending: seq<string>)
    requires marked <= reachable && WorklistOk(edges, roots, reachable, pending)
    ensures reachable == marked || edges.Keys - reachable < edges.Keys - marked
  {
    if reachable != marked {
      var x :| x in reachable && x !in marked;
      assert x in edges.Keys - marked && x !in edges.Keys - reachable;
    }
  }

  lemma WorklistTop(edges: Edges, roots: set<string>, reachable: set<string>, rest: seq<string>, state: string)
    requires WorklistOk(edges, roots, reachable, rest + [state])
    ensures state in edges
  {
    assert state in rest + [state];
  }

  lemma WorklistDone(edges: Edges, roots: set<string>, reachable: set<string>)
    requires WorklistOk(edges, roots, reachable, [])
    ensures forall d :: d in reachable <==> ReachedFrom(edges, roots, d)
  {
    assert forall s, d :: s in reachable && Edge(edges, s, d) ==> d in reachable;
    forall d ensures d in reachable <==> ReachedFrom(edges, roots, d) {
      if ReachedFrom(edges, roots, d) { ClosedHolds(edges, roots, reachable, d); }
    }
  }

  /** _reachable_states: exactly the states some root reaches. */
  method ReachableStates(roots: set<string>, edges: Edges) returns (reachable: set<string>)
    requires Closed(edges) && roots <= edges.Keys
    ensures forall d :: d in reachable <==> ReachedFrom(edges, roots, d)
  {
    hide Reaches, Leads, Walk;
    reachable := roots;
    var pending := SetToSeq(roots);
    forall s | s in roots ensures ReachedFrom(edges, roots, s) { ReachesItself(edges, s); }
    assert WorklistOk(edges, roots, reachable, pending);
    hide WorklistOk;
    while pending != []
      invariant WorklistOk(edges, roots, reachable, pending)
      decreases edges.Keys - reachable, |pending|
    {
      var rest, state := pending[..|pending| - 1], pending[|pending| - 1];
      assert pending == rest + [state];
      WorklistTop(edges, roots, reachable, rest, state);
      ghost var marked := reachable;
      reachable, pending := Visit(reachable, rest, edges[state]);
      WorklistStep(edges, roots, marked, rest, state, pending);
      WorklistProgress(edges, roots, marked, reachable, pending);
    }
    WorklistDone(edges, roots, reachable);
  }

  /** The inner loop: destinations not reached before are marked and pushed. */
  method Visit(reached: set<string>, stack: seq<string>, next: set<string>)
    returns (reachable: set<string>, pending: seq<string>)
    ensures reachable == reached + next
    ensures forall s :: s in pending <==> s in stack || s in next - reached
    ensures reachable == reached ==> pending == stack
  {
    reachable, pending := reached, stack;
    var destinations := next;
    while destinations != {}
      invariant destinations <= next && reachable == reached + (next - destinations)
      invariant forall s :: s in pending <==> s in stack || s in reachable - reached
      invariant reachable == reached ==> pending == stack
      decreases destinations
    {
      var destination :| destination in destinations;
      destinations := destinations - {destination};
      if destination in reachable { continue; }
      reachable := reachable + {destination};
      pending := pending + [destination];
    }
  }

  lemma ExtendReach(edges: Edges, roots: set<string>, m: string, d: string)
    requires ReachedFrom(edges, roots, m) && Edge(edges, m, d)
    ensures ReachedFrom(edges, roots, d)
  {
    var s :| s in roots && Reaches(edges, s, m);
    ReachesOneMore(edges, s, m, d);
  }

  /** list(roots): the elements of a set in some order. */
  method SetToSeq(xs: set<string>) returns (r: seq<string>)
    ensures forall x :: x in r <==> x in xs
  {
    r := [];
    var rest := xs;
    while rest != {}
      invariant rest <= xs
      invariant forall x :: x in r <==> x in xs && x !in rest
      decreases rest
    {
      var x :| x in rest;
      r := r + [x];
      rest := rest - {x};
    }
  }

  // ---------------------------------------------------------------- reversal

  predicate Reversed(edges: Edges, back: Edges) {
    back.Keys == edges.Keys &&
    (forall s :: s in edges ==> forall d :: d in edges[s] ==> Edge(back, d, s)) &&
    (forall d :: d in back ==> forall s :: s in back[d] ==> Edge(edges, s, d))
  }

  function Backwards(path: seq<string>): seq<string> {
    seq(|path|, i requires 0 <= i < |path| => path[|path| - 1 - i])
  }

  lemma WalkBack(edges: Edges, back: Edges, path: seq<string>, s: string, d: string)
    requires Reversed(edges, back) && Closed(edges) && Leads(edges, path, s, d)
    ensures Leads(back, Backwards(path), d, s)
  {
    var p := Backwards(path);
    forall i | 0 <= i < |p| - 1 ensures Edge(back, p[i], p[i + 1]) {
      assert Edge(edges, path[|path| - 2 - i], path[|path| - 1 - i]);
    }
    if |path| > 1 { assert Edge(edges, path[|path| - 2], path[|path| - 1]); }
  }

  lemma ReachesBack(edges: Edges, back: Edges, s: string, d: string)
    requires Reversed(edges, back) && Closed(edges)
    ensures Reaches(edges, s, d) <==> Reaches(back, d, s)
  {
    if Reaches(edges, s, d) {
      var path :| Leads(edges, path, s, d);
      WalkBack(edges, back, path, s, d);
    }
    if Reaches(back, d, s) {
      var path :| Leads(back, path, d, s);
      WalkBack(back, edges, path, d, s);
    }
  }

  // ---------------------------------------------------------------- the validator

  datatype Verdict = Accepted | Unreachable(states: set<string>) | NonTerminating(states: set<string>)

  ghost predicate Terminates(edges: Edges, terminal: set<string>, s: string) {
    exists t :: t in terminal && Reaches(edges, s, t)
  }

  ghost predicate EveryStateEntered(edges: Edges, initial: string) {
    forall s :: s in edges ==> Reaches(edges, initial, s)
  }

  ghost predicate EveryOpenStateEnds(edges: Edges, terminal: set<string>) {
    forall s :: s in edges && s !in terminal ==> Terminates(edges, terminal, s)
  }

  /** The second half of _validate_state_graph and of its verdict. */
  method ValidateStateGraph(edges: Edges, initial: string, terminal: set<string>) returns (verdict: Verdict)
    requires Closed(edges) && initial in edges && terminal <= edges.Keys
    ensures verdict == Accepted <==> EveryStateEntered(edges, initial) && EveryOpenStateEnds(edges, terminal)
    ensures verdict.Unreachable? ==> verdict.states == set s | s in edges && !Reaches(edges, initial, s)
    ensures verdict.NonTerminating? ==>
      verdict.states == set s | s in edges && s !in terminal && !Terminates(edges, terminal, s)
    ensures verdict.NonTerminating? ==> EveryStateEntered(edges, initial)
  {
    var reachable := ReachableStates({initial}, edges);
    assert forall s :: ReachedFrom(edges, {initial}, s) <==> Reaches(edges, initial, s);
    var unreachable := edges.Keys - reachable;
    if unreachable != {} {
      var s :| s in unreachable;
      assert !EveryStateEntered(edges, initial);
      return Unreachable(unreachable);
    }
    forall s | s in edges ensures s in reachable { assert s !in unreachable; }
    var back := ReverseEdges(edges);
    var terminating := ReachableStates(terminal, back);
    forall s ensures s in terminating <==> Terminates(edges, terminal, s) {
      forall t | t in terminal ensures Reaches(edges, s, t) <==> Reaches(back, t, s) { ReachesBack(edges, back, s, t); }
    }
    var nonterminating := (edges.Keys - terminal) - terminating;
    if nonterminating != {} {
      var s :| s in nonterminating;
      assert !EveryOpenStateEnds(edges, terminal);
      return NonTerminating(nonterminating);
    }
    forall s | s in edges && s !in terminal ensures s in terminating { assert s !in nonterminating; }
    verdict := Accepted;
  }

  method ReverseEdges(edges: Edges) returns (back: Edges)
    requires Closed(edges)
    ensures Reversed(edges, back) && Closed(back)
  {
    back := map s | s in edges :: {};
    var sources := edges.Keys;
    while sources != {}
      invariant sources <= edges.Keys && back.Keys == edges.Keys
      invariant forall s :: s in edges && s !in sources ==> forall d :: d in edges[s] ==> Edge(back, d, s)
      invariant forall d :: d in back ==> forall s :: s in back[d] ==> Edge(edges, s, d)
      decreases sources
    {
      var source :| source in sources;
      sources := sources - {source};
      back := AddSource(edges, back, source);
    }
  }

  method AddSource(edges: Edges, back: Edges, source: string) returns (more: Edges)
    requires Closed(edges) && back.Keys == edges.Keys && source in edges
    requires forall d :: d in back ==> forall s :: s in back[d] ==> Edge(edges, s, d)
    ensures more.Keys == edges.Keys && forall d :: d in back ==> back[d] <= more[d]
    ensures forall d :: d in more ==> forall s :: s in more[d] ==> Edge(edges, s, d)
    ensures forall d :: d in edges[source] ==> Edge(more, d, source)
  {
    more := back;
    var destinations := edges[source];
    while destinations != {}
      invariant destinations <= edges[source] && more.Keys == edges.Keys
      invariant forall d :: d in back ==> back[d] <= more[d]
      invariant forall d :: d in more ==> forall s :: s in more[d] ==> Edge(edges, s, d)
      invariant forall d :: d in edges[source] && d !in destinations ==> Edge(more, d, source)
      decreases destinations
    {
      var destination :| destination in destinations;
      destinations := destinations - {destination};
      more := more[destination := more[destination] + {source}];
    }
  }
}
