// Exactly when handing out ports keeps every port to one owner.
module Exclusivity {
  import opened Text
  import opened Ownership
  import opened Ports
  import opened PortSafety
  import opened PortGrants

  // A port is asked for; nobody gives one back.
  datatype Ask = Ask(range: string, id: string)

  ghost function AllocateAll(ps: PoolSet, run: seq<Ask>): PoolSet
    decreases |run|
  {
    if run == [] then ps else AllocateAll(SetAllocated(ps, run[0].range, run[0].id).0, run[1..])
  }

  // Only pools that are there already are asked.
  predicate Known(ps: PoolSet, run: seq<Ask>) {
    forall a :: a in run ==> Pooled(ps, a.range)
  }

  ghost predicate Unused(ps: PoolSet) {
    "" !in ps.pools && ps.fallback.owners == map[] && forall r :: r in ps.pools ==> ps.pools[r].owners == map[]
  }

  lemma {:induction false} RunsStaySafe(ps: PoolSet, run: seq<Ask>)
    requires Safe(ps) && Known(ps, run)
    ensures Safe(AllocateAll(ps, run))
    decreases |run|
  {
    hide Safe;
    if run != [] {
      var (after, port) := SetAllocated(ps, run[0].range, run[0].id);
      assert run[0] in run && forall a :: a in run[1..] ==> a in run;
      AllocateHandsOutUnowned(ps, run[0].range, run[0].id, after, port);
      RunsStaySafe(after, run[1..]);
    }
  }

  // ---------- taking the first ports of a range ----------

  function Repeat(a: Ask, n: nat): seq<Ask> {
    seq(n, i requires 0 <= i < n => a)
  }

  // The ports taken are the first m of the range.
  ghost predicate Front(p: Pool, m: nat) {
    forall q :: q in p.owners <==> p.start <= q < p.start + m
  }

  lemma {:induction false} FirstFreeAfter(start: int, end: int, owners: map<int, string>, port: int)
    requires start <= port <= end && port !in owners && forall q :: start <= q < port ==> q in owners
    ensures FirstFree(start, end, owners) == Some(port)
    decreases port - start
  {
    if start < port {
      FirstFreeAfter(start + 1, end, owners, port);
    }
  }

  lemma TakesNext(ps: PoolSet, range: string, id: string, m: nat)
    requires "" !in ps.pools && PoolFor(ps, range).Some?
    requires var p := PoolFor(ps, range).value; Front(p, m) && p.start + m <= p.end
    ensures var p, after := PoolFor(ps, range).value, SetAllocated(ps, range, id).0;
            && "" !in after.pools && after.pools.Keys == ps.pools.Keys
            && PoolFor(after, range) == Some(p.(owners := p.owners[p.start + m := id]))
            && (forall r :: r != range ==> PoolFor(after, r) == PoolFor(ps, r))
  {
    var p := PoolFor(ps, range).value;
    FirstFreeAfter(p.start, p.end, p.owners, p.start + m);
  }

  lemma {:induction false} RepeatTakesFront(ps: PoolSet, range: string, id: string, m: nat, n: nat)
    requires "" !in ps.pools && PoolFor(ps, range).Some?
    requires var p := PoolFor(ps, range).value; Front(p, m) && p.start + m + n <= p.end + 1
    ensures var after := AllocateAll(ps, Repeat(Ask(range, id), n));
            && PoolFor(after, range).Some? && "" !in after.pools && after.pools.Keys == ps.pools.Keys
            && Included(PoolFor(ps, range).value.owners, PoolFor(after, range).value.owners)
            && (var start := PoolFor(ps, range).value.start + m;
                forall q :: start <= q < start + n ==> PoolOwns(PoolFor(after, range).value, q, id))
            && (forall r :: r != range ==> PoolFor(after, r) == PoolFor(ps, r))
    decreases n
  {
    var run := Repeat(Ask(range, id), n);
    if n > 0 {
      TakesNext(ps, range, id, m);
      var next := SetAllocated(ps, range, id).0;
      assert run[0] == Ask(range, id) && run[1..] == Repeat(Ask(range, id), n - 1);
      RepeatTakesFront(next, range, id, m + 1, n - 1);
      var p := PoolFor(ps, range).value;
      UpdateIncludes(p.owners, p.start + m, id, PoolFor(AllocateAll(ps, run), range).value.owners);
    }
  }

  lemma {:induction false} AllocateAllJoins(ps: PoolSet, a: seq<Ask>, b: seq<Ask>)
    ensures AllocateAll(ps, a + b) == AllocateAll(AllocateAll(ps, a), b)
    decreases |a|
  {
    if a == [] {
      assert a + b == b;
    } else {
      assert (a + b)[0] == a[0] && (a + b)[1..] == a[1..] + b;
      AllocateAllJoins(SetAllocated(ps, a[0].range, a[0].id).0, a[1..], b);
    }
  }

  lemma PoolOwnsOwns(ps: PoolSet, range: string, port: int, id: string)
    requires PoolFor(ps, range).Some? && PoolOwns(PoolFor(ps, range).value, port, id)
    ensures Owns(ps, port, id)
  {
  }

  // Any two unused pools with a port in common, the fallback included, give it to two servers:
  // one asks the first pool for ports until it has this one, the other does so with the second.
  lemma OverlappingPoolsShareAPort(ps: PoolSet, r1: string, r2: string, port: int) returns (run: seq<Ask>)
    requires Unused(ps) && r1 != r2 && PoolFor(ps, r1).Some? && PoolFor(ps, r2).Some?
    requires PoolFor(ps, r1).value.Contains(port) && PoolFor(ps, r2).value.Contains(port)
    ensures Known(ps, run)
    ensures Owns(AllocateAll(ps, run), port, "one") && Owns(AllocateAll(ps, run), port, "two")
  {
    var p1, p2 := PoolFor(ps, r1).value, PoolFor(ps, r2).value;
    var first, second := Repeat(Ask(r1, "one"), port - p1.start + 1), Repeat(Ask(r2, "two"), port - p2.start + 1);
    run := first + second;
    hide AllocateAll;
    RepeatTakesFront(ps, r1, "one", 0, port - p1.start + 1);
    var half := AllocateAll(ps, first);
    RepeatTakesFront(half, r2, "two", 0, port - p2.start + 1);
    AllocateAllJoins(ps, first, second);
    var after := AllocateAll(ps, run);
    assert PoolFor(after, r1) == PoolFor(half, r1);
    PoolOwnsOwns(after, r1, port, "one");
    PoolOwnsOwns(after, r2, port, "two");
  }

  lemma SharedPort(ps: PoolSet) returns (r1: string, r2: string, port: int)
    requires "" !in ps.pools && !DisjointRanges(ps)
    ensures r1 != r2 && PoolFor(ps, r1).Some? && PoolFor(ps, r2).Some?
    ensures PoolFor(ps, r1).value.Contains(port) && PoolFor(ps, r2).value.Contains(port)
  {
    if r :| r in ps.pools && Overlap(ps.fallback, ps.pools[r]) {
      r1, r2 := "", r;
    } else {
      r1, r2 :| r1 in ps.pools && r2 in ps.pools && r1 != r2 && Overlap(ps.pools[r1], ps.pools[r2]);
    }
    port :| PoolFor(ps, r1).value.Contains(port) && PoolFor(ps, r2).value.Contains(port);
  }

  // Unused pools keep every port to one owner, whatever is asked of them and by whom, exactly when
  // no port lies in two of their ranges, the fallback's included.
  lemma ExclusiveIffDisjoint(ps: PoolSet)
    requires Unused(ps)
    ensures (forall run :: Known(ps, run) ==> OneOwnerPerPort(AllocateAll(ps, run))) <==> DisjointRanges(ps)
  {
    if DisjointRanges(ps) {
      forall run | Known(ps, run)
        ensures OneOwnerPerPort(AllocateAll(ps, run))
      {
        RunsStaySafe(ps, run);
        SafePortsHaveOneOwner(AllocateAll(ps, run));
      }
    } else {
      var r1, r2, port := SharedPort(ps);
      var run := OverlappingPoolsShareAPort(ps, r1, r2, port);
      assert "one" != "two";
      assert Known(ps, run) && !OneOwnerPerPort(AllocateAll(ps, run));
    }
  }
}
