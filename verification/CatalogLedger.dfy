// The catalog's request ledger and revision over runs of replaces and imports, and its snapshots.
module CatalogLedger {
  import opened Text
  import opened Catalog
  import opened CatalogRuns

  datatype Op = ReplaceOp(requestID: string, source: seq<Entry>) | ImportOp(requestID: string, snapshot: Snapshot)

  ghost function Applied(json: Json, t: Table, op: Op): (Table, Reply) {
    match op
    case ReplaceOp(id, source) => Replaced(json, t, id, source)
    case ImportOp(id, snapshot) => Imported(json, t, id, snapshot)
  }

  ghost function After(json: Json, t: Table, run: seq<Op>): Table {
    if run == [] then t else Applied(json, After(json, t, run[..|run| - 1]), run[|run| - 1]).0
  }

  function IDOf(op: Op): string {
    TrimSpace(op.requestID)
  }

  function SourceOf(op: Op): seq<Entry> {
    match op
    case ReplaceOp(_, source) => source
    case ImportOp(_, snapshot) => snapshot.entries
  }

  // The request is in order, whatever the table holds.
  predicate InOrder(json: Json, op: Op) {
    IDOf(op) != "" && Validated(json, SourceOf(op)).Accepted? && (op.ImportOp? ==> op.snapshot.version == SNAPSHOT_VERSION)
  }

  // The request is installed: it is in order and its ID is new.
  predicate Installs(json: Json, t: Table, op: Op) {
    InOrder(json, op) && IDOf(op) !in t.requests
  }

  ghost function Print(json: Json, op: Op): Fingerprint
    requires InOrder(json, op)
  {
    FingerprintOf(json, Validated(json, SourceOf(op)).entries)
  }

  ghost predicate CanonicalTable(json: Json, t: Table) {
    Canonical(json, t.entries) && t.revision < REVISIONS
  }

  // Why a request is not in order: a missing ID, a version other than 1, or entries that are refused,
  // which for an import are looked at before the ID.
  function CodeOf(json: Json, op: Op): Code
    requires !InOrder(json, op)
  {
    var v := Validated(json, SourceOf(op));
    match op
    case ReplaceOp(_, _) => if IDOf(op) == "" then InvalidArgument else v.code
    case ImportOp(_, snapshot) => if snapshot.version != 1 || v.Accepted? then InvalidArgument else v.code
  }

  // What one operation does, in terms of whether it installs anything.
  lemma OneOperation(json: Json, t: Table, op: Op)
    ensures var (after, reply) := Applied(json, t, op);
            if Installs(json, t, op)
            then after == Table(if op.ReplaceOp? then Successor(t.revision) else op.snapshot.revision,
                                Validated(json, SourceOf(op)).entries, t.requests[IDOf(op) := Print(json, op)])
                 && reply == CatalogOf(after)
            else after == t && if !InOrder(json, op) then reply == Failure(CodeOf(json, op))
                               else reply == if t.requests[IDOf(op)] == Print(json, op) then CatalogOf(t) else Failure(Conflict)
  {
    hide Validated, FingerprintOf, ListingOf, Successor, TrimSpace;
  }

  // ---------- the ledger ----------

  // Over every run a request ID stays bound to the fingerprint it was first accepted with.
  lemma {:induction false} FingerprintsAreForever(json: Json, t: Table, run: seq<Op>)
    ensures forall id :: id in t.requests ==>
              id in After(json, t, run).requests && After(json, t, run).requests[id] == t.requests[id]
  {
    hide Applied;
    if run != [] {
      FingerprintsAreForever(json, t, run[..|run| - 1]);
      OneOperation(json, After(json, t, run[..|run| - 1]), run[|run| - 1]);
    }
  }

  // After a request was installed, and any run, the same ID is answered with the catalog as it is
  // by then if the entries are the same up to order and layout, and with a conflict if they are
  // not; either way nothing changes.
  lemma RetriesReplay(json: Json, t: Table, first: Op, run: seq<Op>, retry: Op)
    requires Installs(json, t, first) && InOrder(json, retry) && IDOf(retry) == IDOf(first)
    ensures var now := After(json, Applied(json, t, first).0, run);
            Applied(json, now, retry) ==
            (now, if SameUpToLayout(json, Validated(json, SourceOf(first)).entries, Validated(json, SourceOf(retry)).entries)
                  then CatalogOf(now) else Failure(Conflict))
  {
    hide SameUpToLayout, FingerprintOf;
    OneOperation(json, t, first);
    FingerprintsAreForever(json, Applied(json, t, first).0, run);
    ValidatedIsCanonical(json, SourceOf(first));
    ValidatedIsCanonical(json, SourceOf(retry));
    FingerprintIff(json, Validated(json, SourceOf(first)).entries, Validated(json, SourceOf(retry)).entries);
  }

  lemma SameAsItself(json: Json, m: Entries)
    ensures SameUpToLayout(json, m, m)
  {
  }

  // In particular a retry with its entries in another order is a replay.
  lemma PermutedRetriesReplay(json: Json, t: Table, first: Op, run: seq<Op>, retry: Op)
    requires Installs(json, t, first) && IDOf(retry) == IDOf(first) && multiset(SourceOf(retry)) == multiset(SourceOf(first))
    requires retry.ImportOp? ==> retry.snapshot.version == SNAPSHOT_VERSION
    ensures var now := After(json, Applied(json, t, first).0, run); Applied(json, now, retry) == (now, CatalogOf(now))
  {
    hide Applied, Validated, CatalogOf;
    OrderInsensitive(json, SourceOf(first), SourceOf(retry));
    RetriesReplay(json, t, first, run, retry);
    SameAsItself(json, Validated(json, SourceOf(first)).entries);
  }

  // ---------- the revision ----------

  // The replaces installed since the last installed import, and the revision that import brought,
  // or the one at the start.
  ghost function Tally(json: Json, t: Table, run: seq<Op>): (nat, nat) {
    if run == [] then (t.revision, 0)
    else
      var (base, count) := Tally(json, t, run[..|run| - 1]);
      var op := run[|run| - 1];
      if !Installs(json, After(json, t, run[..|run| - 1]), op) then (base, count)
      else if op.ReplaceOp? then (base, count + 1)
      else (op.snapshot.revision, 0)
  }

  predicate Bounded(run: seq<Op>) {
    forall op :: op in run ==> op.ImportOp? ==> op.snapshot.revision < REVISIONS
  }

  lemma InRange(revision: nat)
    ensures revision < REVISIONS <==> Wrapped(revision) == revision
    ensures Successor(revision) < REVISIONS
  {
  }

  lemma AddOne(base: nat, count: nat)
    ensures Successor(Wrapped(base + count)) == Wrapped(base + count + 1)
  {
  }

  lemma InstalledIsCanonical(json: Json, t: Table, op: Op)
    requires Installs(json, t, op)
    ensures Canonical(json, Validated(json, SourceOf(op)).entries)
  {
    ValidatedIsCanonical(json, SourceOf(op));
  }

  lemma RevisionStep(json: Json, t: Table, op: Op)
    requires CanonicalTable(json, t) && (op.ImportOp? ==> op.snapshot.revision < REVISIONS)
    ensures var after := Applied(json, t, op).0;
            && CanonicalTable(json, after)
            && after.revision == if !Installs(json, t, op) then t.revision
                                 else if op.ReplaceOp? then Successor(t.revision) else op.snapshot.revision
  {
    hide Applied, Canonical, Installs, Print, Validated;
    OneOperation(json, t, op);
    InRange(t.revision);
    if Installs(json, t, op) {
      InstalledIsCanonical(json, t, op);
    }
  }

  // Over every run the revision is the last one newly imported plus the number of replaces newly
  // accepted since, as a uint64; and the catalog stays canonical.
  lemma {:induction false} RevisionCounts(json: Json, t: Table, run: seq<Op>)
    requires CanonicalTable(json, t) && Bounded(run)
    ensures var (base, count) := Tally(json, t, run); After(json, t, run).revision == Wrapped(base + count)
    ensures CanonicalTable(json, After(json, t, run))
  {
    hide Applied, Canonical, Installs, Wrapped, Successor;
    InRange(After(json, t, run).revision);
    InRange(Tally(json, t, run).0);
    if run != [] {
      var before, op := run[..|run| - 1], run[|run| - 1];
      assert op in run && forall o :: o in before ==> o in run;
      RevisionCounts(json, t, before);
      RevisionStep(json, After(json, t, before), op);
      AddOne(Tally(json, t, before).0, Tally(json, t, before).1);
    }
  }

  // ---------- what a replay answers ----------

  // The entries installed last in a run, or those at its start if it installs none.
  ghost function Latest(json: Json, t: Table, run: seq<Op>): Entries {
    if run == [] then t.entries
    else
      var op := run[|run| - 1];
      if Installs(json, After(json, t, run[..|run| - 1]), op) then Validated(json, SourceOf(op)).entries
      else Latest(json, t, run[..|run| - 1])
  }

  lemma {:induction false} LatestIsCurrent(json: Json, t: Table, run: seq<Op>)
    ensures After(json, t, run).entries == Latest(json, t, run)
  {
    hide Applied, Installs;
    if run != [] {
      LatestIsCurrent(json, t, run[..|run| - 1]);
      OneOperation(json, After(json, t, run[..|run| - 1]), run[|run| - 1]);
    }
  }

  lemma ListingIncludes(json: Json, a: Entries, b: Entries, k: string)
    requires Canonical(json, a) && Canonical(json, b) && ListingOf(a) == ListingOf(b) && k in a
    ensures k in b && b[k] == a[k]
  {
    ListingHolds(json, a);
    ListingHolds(json, b);
    hide ListingOf, WellFormed;
    var s := ListingOf(a);
    var i :| 0 <= i < |s| && s[i] == a[k];
    assert s[i].name == k;
  }

  // The listing of a canonical catalog tells the catalog.
  lemma ListingTells(json: Json, a: Entries, b: Entries)
    requires Canonical(json, a) && Canonical(json, b) && ListingOf(a) == ListingOf(b)
    ensures a == b
  {
    hide ListingOf, Canonical;
    forall k
      ensures k in a <==> k in b
      ensures k in a ==> a[k] == b[k]
    {
      if k in a {
        ListingIncludes(json, a, b, k);
      }
      if k in b {
        ListingIncludes(json, b, a, k);
      }
    }
  }

  lemma FirstInstalls(json: Json, t: Table, first: Op)
    requires CanonicalTable(json, t) && Installs(json, t, first) && Bounded([first])
    ensures var (installed, answer) := Applied(json, t, first);
            && CanonicalTable(json, installed) && answer == CatalogOf(installed)
            && installed.entries == Validated(json, SourceOf(first)).entries && InOrder(json, first)
  {
    hide Canonical;
    OneOperation(json, t, first);
    InstalledIsCanonical(json, t, first);
    InRange(t.revision);
    assert first in [first];
  }

  // A replay does not bring back the catalog that it first installed: it repeats its first answer
  // exactly when what was installed in between comes to the same revision, wrapped as a uint64, and
  // the entries installed last are those of the first.
  lemma ReplayRepeatsIff(json: Json, t: Table, first: Op, run: seq<Op>)
    requires CanonicalTable(json, t) && Installs(json, t, first) && Bounded([first] + run)
    ensures var (installed, answer) := Applied(json, t, first);
            var (base, count) := Tally(json, installed, run);
            Applied(json, After(json, installed, run), first).1 == answer <==>
            Wrapped(base + count) == installed.revision && Latest(json, installed, run) == installed.entries
  {
    hide Applied, Installs, Wrapped, Canonical, ListingOf, Tally, Latest;
    var installed := Applied(json, t, first).0;
    FirstInstalls(json, t, first);
    assert first in [first] + run && forall op :: op in run ==> op in [first] + run;
    RevisionCounts(json, installed, run);
    LatestIsCurrent(json, installed, run);
    RetriesReplay(json, t, first, run, first);
    SameAsItself(json, installed.entries);
    var now := After(json, installed, run);
    if ListingOf(now.entries) == ListingOf(installed.entries) {
      ListingTells(json, now.entries, installed.entries);
    }
  }

  lemma {:induction false} OnlyReplacesCount(json: Json, t: Table, run: seq<Op>)
    requires forall op :: op in run ==> op.ReplaceOp?
    ensures var (base, count) := Tally(json, t, run);
            base == t.revision && count <= |run| && (count == 0 ==> Latest(json, t, run) == t.entries)
  {
    hide Applied, Installs;
    if run != [] {
      assert run[|run| - 1] in run && forall op :: op in run[..|run| - 1] ==> op in run;
      OnlyReplacesCount(json, t, run[..|run| - 1]);
    }
  }

  lemma ShortRunsDoNotWrap(revision: nat, count: nat)
    requires revision < REVISIONS && count < REVISIONS
    ensures Wrapped(revision + count) == revision <==> count == 0
  {
  }

  // Followed by replaces only, fewer than there are revisions, the replay repeats its first answer
  // exactly when none of them was newly accepted.
  lemma ReplayRepeatsIffNoneReplaced(json: Json, t: Table, first: Op, run: seq<Op>)
    requires CanonicalTable(json, t) && Installs(json, t, first) && Bounded([first])
    requires |run| < REVISIONS && forall op :: op in run ==> op.ReplaceOp?
    ensures var (installed, answer) := Applied(json, t, first);
            Applied(json, After(json, installed, run), first).1 == answer <==> Tally(json, installed, run).1 == 0
  {
    hide Applied, Installs, Wrapped, Canonical, ListingOf, Tally, Latest;
    var installed := Applied(json, t, first).0;
    FirstInstalls(json, t, first);
    assert first in [first];
    ReplayRepeatsIff(json, t, first, run);
    OnlyReplacesCount(json, installed, run);
    ShortRunsDoNotWrap(installed.revision, Tally(json, installed, run).1);
  }

  // ---------- snapshots ----------

  // Export and import into a fresh owner reproduce catalog and revision.
  lemma SnapshotRoundTrip(json: Json, t: Table, requestID: string)
    requires CanonicalTable(json, t) && TrimSpace(requestID) != ""
    ensures var (imported, reply) := Imported(json, Table(0, map[], map[]), requestID,
                                              Snapshot(SNAPSHOT_VERSION, t.revision, ListingOf(t.entries)));
            imported.entries == t.entries && imported.revision == t.revision && reply == CatalogOf(t) == CatalogOf(imported)
  {
    ListingValidatesToItself(json, t.entries);
  }
}
