/** The git facts the delivery gate reads.  A repository answers ancestry queries; a query may also fail. */
module GitFacts {
  import opened Common

  datatype Link = Link(ancestor: string, descendant: string)

  /** `reflog` lists the branch's updates, newest first. */
  datatype Git = Git(
    readable: bool, idLength: nat, commits: set<string>, ancestry: set<Link>,
    branches: map<string, string>, reflog: seq<string>, worktrees: set<string>, paths: set<string>)

  /** A probe that cannot answer raises. */
  datatype Answer = Yes | No | Failed

  predicate HexDigit(c: char) {
    '0' <= c <= '9' || 'a' <= c <= 'f'
  }

  predicate IsObjectId(s: string) {
    (|s| == 40 || |s| == 64) && forall c :: c in s ==> HexDigit(c)
  }

  predicate CommitExists(git: Git, id: string) {
    IsObjectId(id) && |id| == git.idLength && id in git.commits
  }

  predicate Descends(git: Git, a: string, d: string) {
    Link(a, d) in git.ancestry
  }

  function IsAncestor(git: Git, a: string, d: string): Answer {
    if a !in git.commits || d !in git.commits then Failed
    else if Descends(git, a, d) then Yes else No
  }

  /** Ancestry in a real history: reflexive and transitive. */
  ghost predicate History(git: Git) {
    (forall c :: c in git.commits ==> Descends(git, c, c)) &&
    (forall a, b, c :: Descends(git, a, b) && Descends(git, b, c) ==> Descends(git, a, c))
  }

  // ---------------------------------------------------------------- the reflog

  /** The first `n` updates, each onto a descendant of the one before it. */
  predicate ForwardUpTo(git: Git, n: nat)
    requires n < |git.reflog|
  {
    forall k :: 0 <= k < n ==> IsAncestor(git, git.reflog[k + 1], git.reflog[k]) == Yes
  }

  /** The first update that is not known to be forward is one the repository cannot judge. */
  predicate FailsAt(git: Git, k: nat)
    requires k + 1 < |git.reflog|
  {
    ForwardUpTo(git, k) && IsAncestor(git, git.reflog[k + 1], git.reflog[k]) == Failed
  }

  predicate NewestAt(git: Git, target: string, i: nat) {
    i < |git.reflog| && git.reflog[i] == target && forall k :: 0 <= k < i ==> git.reflog[k] != target
  }

  /** The newest entry on the target has a predecessor, and everything from there to the tip went forward. */
  predicate Promoted(git: Git, target: string) {
    exists i :: 0 <= i < |git.reflog| && NewestAt(git, target, i) && i + 1 < |git.reflog| && ForwardUpTo(git, i + 1)
  }

  /** all(...) over the chain of one entry, stopping at the first update that is not forward. */
  method ChainForward(git: Git, n: nat) returns (r: Answer)
    requires n < |git.reflog|
    ensures r == Yes <==> ForwardUpTo(git, n)
    ensures r == Failed <==> exists k :: 0 <= k < n && FailsAt(git, k)
  {
    for k := 0 to n
      invariant ForwardUpTo(git, k)
      invariant forall j :: 0 <= j < k ==> IsAncestor(git, git.reflog[j + 1], git.reflog[j]) == Yes
    {
      r := IsAncestor(git, git.reflog[k + 1], git.reflog[k]);
      if r != Yes {
        assert r == Failed ==> FailsAt(git, k);
        return;
      }
    }
    r := Yes;
  }

  /** fast_forwarded_to: the loop over every entry on the target decides by the newest one alone. */
  method FastForwardedTo(git: Git, target: string) returns (r: Answer)
    ensures r == Yes <==> Promoted(git, target)
    ensures r == Failed ==> exists k :: 0 <= k < |git.reflog| - 1 && FailsAt(git, k)
  {
    for index := 0 to |git.reflog|
      invariant forall i :: 0 <= i < index && git.reflog[i] == target && i + 1 < |git.reflog| ==>
        !ForwardUpTo(git, i + 1)
    {
      if git.reflog[index] != target || index + 1 >= |git.reflog| { continue; }
      r := ChainForward(git, index + 1);
      if r == Yes {
        NewestDecides(git, target, index);
        return;
      }
      if r == Failed { return; }
    }
    r := No;
  }

  /** An older entry on the target never matters: its chain contains the newest one's. */
  lemma {:induction false} NewestDecides(git: Git, target: string, i: nat)
    requires i + 1 < |git.reflog| && git.reflog[i] == target && ForwardUpTo(git, i + 1)
    ensures Promoted(git, target)
  {
    if exists k :: 0 <= k < i && git.reflog[k] == target {
      var k :| 0 <= k < i && git.reflog[k] == target;
      NewestDecides(git, target, k);
    } else {
      assert NewestAt(git, target, i);
    }
  }

  lemma {:induction false} ForwardReaches(git: Git, i: nat)
    requires History(git) && i < |git.reflog| && ForwardUpTo(git, i) && git.reflog[i] in git.commits
    ensures Descends(git, git.reflog[i], git.reflog[0])
  {
    if i > 0 {
      assert IsAncestor(git, git.reflog[i], git.reflog[i - 1]) == Yes;
      ForwardReaches(git, i - 1);
    }
  }

  /** A promoted target is contained in the tip of the branch. */
  lemma PromotedIsContained(git: Git, target: string)
    requires History(git) && Promoted(git, target)
    ensures Descends(git, target, git.reflog[0])
  {
    var i :| 0 <= i < |git.reflog| && NewestAt(git, target, i) && i + 1 < |git.reflog| && ForwardUpTo(git, i + 1);
    assert IsAncestor(git, git.reflog[i + 1], git.reflog[i]) == Yes;
    ForwardReaches(git, i);
  }
}
