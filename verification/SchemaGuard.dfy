/** The migration ledger: which databases a build may open, and where running the migrations ends. */
module SchemaGuard {
  import opened Common

  /** A migration may replace historical ledger rows, which it deletes when it runs. */
  datatype Migration = Migration(id: string, retires: seq<string>)

  function IdSet(ms: seq<Migration>): set<string> {
    set k | 0 <= k < |ms| :: ms[k].id
  }

  /** The sequence of a build: no id twice, and nothing it still runs is also historical. */
  ghost predicate BuildOk(ms: seq<Migration>) {
    (forall j, k :: 0 <= j < k < |ms| ==> ms[j].id != ms[k].id) &&
    (forall k, r :: 0 <= k < |ms| && r in ms[k].retires ==> r !in IdSet(ms))
  }

  function PendingReplacements(ms: seq<Migration>, applied: set<string>): set<string> {
    set k, r | 0 <= k < |ms| && ms[k].id !in applied && r in ms[k].retires :: r
  }

  function LedgerOf(ms: seq<Migration>, applied: set<string>): set<string> {
    applied - PendingReplacements(ms, applied)
  }

  /** supported[:n], which a list slice cuts at the end. */
  function Prefix(ms: seq<Migration>, n: nat): set<string> {
    IdSet(ms[..if n < |ms| then n else |ms|])
  }

  /** verify_migration_compatibility: nothing unknown, nothing missing before the applied ones. */
  predicate Compatible(ms: seq<Migration>, applied: set<string>) {
    var ledger := LedgerOf(ms, applied);
    ledger - IdSet(ms) == {} && Prefix(ms, |ledger|) - ledger == {}
  }

  // ---------------------------------------------------------------- prefixes

  lemma {:induction false} PrefixSize(ms: seq<Migration>, n: nat)
    requires forall j, k :: 0 <= j < k < |ms| ==> ms[j].id != ms[k].id
    requires n <= |ms|
    ensures |IdSet(ms[..n])| == n
  {
    if n > 0 {
      PrefixSize(ms, n - 1);
      OneLonger(ms, n);
    }
  }

  lemma OneLonger(ms: seq<Migration>, n: nat)
    requires forall j, k :: 0 <= j < k < |ms| ==> ms[j].id != ms[k].id
    requires 0 < n <= |ms|
    ensures IdSet(ms[..n]) == IdSet(ms[..n - 1]) + {ms[n - 1].id} && ms[n - 1].id !in IdSet(ms[..n - 1])
  {
    forall x ensures x in IdSet(ms[..n]) <==> x in IdSet(ms[..n - 1]) || x == ms[n - 1].id {
      if x in IdSet(ms[..n]) {
        var k :| 0 <= k < n && ms[..n][k].id == x;
        if k < n - 1 { assert ms[..n - 1][k].id == x; }
      }
      if x in IdSet(ms[..n - 1]) {
        var k :| 0 <= k < n - 1 && ms[..n - 1][k].id == x;
        assert ms[..n][k].id == x;
      }
      if x == ms[n - 1].id { assert ms[..n][n - 1].id == x; }
    }
  }

  lemma {:induction false} SubsetSize(a: set<string>, b: set<string>)
    requires a <= b
    ensures |a| <= |b| && (|a| == |b| ==> a == b)
  {
    if a != {} {
      var x :| x in a;
      SubsetSize(a - {x}, b - {x});
    }
  }

  /** A ledger is accepted exactly when, without the rows a pending migration will replace, it is the set of
      some prefix of the build's own sequence. */
  lemma CompatibleIffPrefix(ms: seq<Migration>, applied: set<string>)
    requires BuildOk(ms)
    ensures Compatible(ms, applied) <==> exists n: nat :: n <= |ms| && LedgerOf(ms, applied) == IdSet(ms[..n])
  {
    var ledger := LedgerOf(ms, applied);
    if Compatible(ms, applied) {
      assert ledger <= IdSet(ms) by {
        forall x | x in ledger ensures x in IdSet(ms) { assert x !in ledger - IdSet(ms); }
      }
      assert ms[..|ms|] == ms;
      PrefixSize(ms, |ms|);
      SubsetSize(ledger, IdSet(ms));
      var n := |ledger|;
      PrefixSize(ms, n);
      assert IdSet(ms[..n]) <= ledger by {
        forall x | x in IdSet(ms[..n]) ensures x in ledger { assert x !in Prefix(ms, n) - ledger; }
      }
      SubsetSize(IdSet(ms[..n]), ledger);
      assert n <= |ms| && ledger == IdSet(ms[..n]);
    }
    if exists n: nat :: n <= |ms| && ledger == IdSet(ms[..n]) {
      var n: nat :| n <= |ms| && ledger == IdSet(ms[..n]);
      PrefixSize(ms, n);
    }
  }

  // ---------------------------------------------------------------- running

  /** What one pass over the remaining migrations leaves in the ledger; `applied` was read before the pass. */
  function RunAll(ms: seq<Migration>, applied: set<string>, rows: set<string>): set<string>
    decreases |ms|
  {
    if ms == [] then rows
    else RunAll(ms[1..], applied,
      if ms[0].id in applied then rows else rows - (set r | r in ms[0].retires) + {ms[0].id})
  }

  /** A row survives unless a migration that runs retires it; every migration that runs is recorded. */
  lemma {:induction false} RunAllHolds(ms: seq<Migration>, applied: set<string>, rows: set<string>, x: string)
    requires forall j, k :: 0 <= j < |ms| && 0 <= k < |ms| ==> ms[j].id !in ms[k].retires
    ensures x in RunAll(ms, applied, rows) <==>
      (x in IdSet(ms) && x !in applied) || (x in rows && x !in PendingReplacements(ms, applied))
    decreases |ms|
  {
    if ms != [] {
      var rest := ms[1..];
      var next := if ms[0].id in applied then rows else rows - (set r | r in ms[0].retires) + {ms[0].id};
      forall j, k | 0 <= j < |rest| && 0 <= k < |rest| ensures rest[j].id !in rest[k].retires {
        assert ms[j + 1].id !in ms[k + 1].retires;
      }
      RunAllHolds(rest, applied, next, x);
      FirstId(ms, x);
      FirstPending(ms, applied, x);
      forall k | 0 <= k < |rest| ensures ms[0].id !in rest[k].retires {
        assert ms[0].id !in ms[k + 1].retires;
      }
    }
  }

  lemma FirstId(ms: seq<Migration>, x: string)
    requires ms != []
    ensures x in IdSet(ms) <==> x == ms[0].id || x in IdSet(ms[1..])
  {
    if x in IdSet(ms) && x != ms[0].id {
      var k :| 0 <= k < |ms| && ms[k].id == x;
      assert ms[1..][k - 1].id == x;
    }
    if x in IdSet(ms[1..]) {
      var k :| 0 <= k < |ms[1..]| && ms[1..][k].id == x;
      assert ms[k + 1].id == x;
    }
  }

  lemma FirstPending(ms: seq<Migration>, applied: set<string>, x: string)
    requires ms != []
    ensures x in PendingReplacements(ms, applied) <==>
      (ms[0].id !in applied && x in ms[0].retires) || x in PendingReplacements(ms[1..], applied)
  {
    if x in PendingReplacements(ms, applied) && !(ms[0].id !in applied && x in ms[0].retires) {
      var k :| 0 <= k < |ms| && ms[k].id !in applied && x in ms[k].retires;
      assert ms[1..][k - 1] == ms[k];
    }
    if x in PendingReplacements(ms[1..], applied) {
      var k :| 0 <= k < |ms[1..]| && ms[1..][k].id !in applied && x in ms[1..][k].retires;
      assert ms[k + 1] == ms[1..][k];
    }
  }

  lemma RunHolds(ms: seq<Migration>, applied: set<string>, n: nat, x: string)
    requires BuildOk(ms) && n <= |ms| && LedgerOf(ms, applied) == IdSet(ms[..n])
    ensures x in RunAll(ms, applied, applied) <==> x in IdSet(ms)
  {
    forall j, k | 0 <= j < |ms| && 0 <= k < |ms| ensures ms[j].id !in ms[k].retires {
      assert ms[j].id in IdSet(ms);
    }
    RunAllHolds(ms, applied, applied, x);
    if x in IdSet(ms) { NotHistorical(ms, applied, x); }
    if x in applied && x !in PendingReplacements(ms, applied) {
      assert x in IdSet(ms[..n]);
      var k :| 0 <= k < n && ms[..n][k].id == x;
      assert ms[k].id == x;
    }
  }

  lemma RunEndsAt(ms: seq<Migration>, applied: set<string>, n: nat)
    requires BuildOk(ms) && n <= |ms| && LedgerOf(ms, applied) == IdSet(ms[..n])
    ensures RunAll(ms, applied, applied) == IdSet(ms)
  {
    forall x ensures x in RunAll(ms, applied, applied) <==> x in IdSet(ms) {
      RunHolds(ms, applied, n, x);
    }
  }

  /** From any accepted ledger the migrations end at exactly the supported set, which is accepted again. */
  lemma RunEndsSupported(ms: seq<Migration>, applied: set<string>)
    requires BuildOk(ms) && Compatible(ms, applied)
    ensures RunAll(ms, applied, applied) == IdSet(ms) && Compatible(ms, RunAll(ms, applied, applied))
  {
    CompatibleIffPrefix(ms, applied);
    var n: nat :| n <= |ms| && LedgerOf(ms, applied) == IdSet(ms[..n]);
    RunEndsAt(ms, applied, n);
    SupportedIsCompatible(ms);
  }

  lemma SupportedIsCompatible(ms: seq<Migration>)
    requires BuildOk(ms)
    ensures Compatible(ms, IdSet(ms))
  {
    assert ms[..|ms|] == ms;
    assert PendingReplacements(ms, IdSet(ms)) == {};
    assert LedgerOf(ms, IdSet(ms)) == IdSet(ms[..|ms|]);
    CompatibleIffPrefix(ms, IdSet(ms));
  }

  lemma NotHistorical(ms: seq<Migration>, applied: set<string>, x: string)
    requires BuildOk(ms) && x in IdSet(ms)
    ensures x !in PendingReplacements(ms, applied)
  {
  }

  class Ledger {
    var rows: set<string>

    constructor (stored: set<string>)
      ensures rows == stored
    {
      rows := stored;
    }

    /** run_migrations: false stands for the refusal, which changes nothing. */
    method RunMigrations(ms: seq<Migration>) returns (ok: bool)
      modifies this
      ensures ok <==> Compatible(ms, old(rows))
      ensures rows == if ok then RunAll(ms, old(rows), old(rows)) else old(rows)
      ensures ok && BuildOk(ms) ==> rows == IdSet(ms)
    {
      var applied := rows;
      ok := Compatible(ms, applied);
      if !ok { return; }
      assert ms[0..] == ms;
      for k := 0 to |ms|
        invariant RunAll(ms[k..], applied, rows) == RunAll(ms, applied, applied)
      {
        assert ms[k..][0] == ms[k] && ms[k..][1..] == ms[k + 1..];
        if ms[k].id in applied { continue; }
        rows := rows - (set r | r in ms[k].retires) + {ms[k].id};
      }
      if BuildOk(ms) { RunEndsSupported(ms, applied); }
    }
  }
}
