// One server's ports: granting several, taking them back, handing them on.
module PortGrants {
  import opened Text
  import opened Ownership
  import opened Ports
  import opened PortSafety

  ghost predicate SetOwnsNone(ps: PoolSet, id: string) {
    OwnsNone(ps.fallback.owners, id) && forall r :: r in ps.pools ==> OwnsNone(ps.pools[r].owners, id)
  }

  ghost predicate PoolExtends(before: Pool, after: Pool, id: string) {
    before.start == after.start && before.end == after.end && Extends(before.owners, after.owners, id)
  }

  // after adds ports of id to the pools of before, and possibly pools with ports of id only.
  ghost predicate SetExtends(before: PoolSet, after: PoolSet, id: string) {
    && PoolExtends(before.fallback, after.fallback, id)
    && (forall r :: r in before.pools ==> r in after.pools && PoolExtends(before.pools[r], after.pools[r], id))
    && (forall r :: r in after.pools && r !in before.pools ==> Extends(map[], after.pools[r].owners, id))
  }

  // Nothing but new pools without ports.
  ghost predicate SameUpToEmptyPools(before: PoolSet, after: PoolSet) {
    && before.fallback == after.fallback
    && (forall r :: r in before.pools ==> r in after.pools && before.pools[r] == after.pools[r])
    && (forall r :: r in after.pools && r !in before.pools ==> after.pools[r].owners == map[])
  }

  lemma SetExtendsTransitive(a: PoolSet, b: PoolSet, c: PoolSet, id: string)
    requires SetExtends(a, b, id) && SetExtends(b, c, id)
    ensures SetExtends(a, c, id)
  {
    forall r | r in a.pools
      ensures PoolExtends(a.pools[r], c.pools[r], id)
    {
      assert PoolExtends(a.pools[r], b.pools[r], id) && PoolExtends(b.pools[r], c.pools[r], id);
    }
    forall r | r in c.pools && r !in a.pools
      ensures Extends(map[], c.pools[r].owners, id)
    {
      if r in b.pools {
        assert Extends(map[], b.pools[r].owners, id) && PoolExtends(b.pools[r], c.pools[r], id);
      }
    }
  }

  lemma AllocatedExtends(ps: PoolSet, range: string, id: string)
    ensures SetExtends(ps, SetAllocated(ps, range, id).0, id)
  {
  }

  // Releasing everything of id restores the pools exactly when id owned no port to begin with.
  lemma ReleaseUndoesIff(before: PoolSet, after: PoolSet, id: string)
    requires SetExtends(before, after, id)
    ensures SameUpToEmptyPools(before, SetReleased(after, id)) <==> SetOwnsNone(before, id)
  {
    WithoutUndoes(before.fallback.owners, after.fallback.owners, id);
    forall r | r in before.pools
      ensures Without(after.pools[r].owners, id) == before.pools[r].owners <==> OwnsNone(before.pools[r].owners, id)
    {
      assert PoolExtends(before.pools[r], after.pools[r], id);
      WithoutUndoes(before.pools[r].owners, after.pools[r].owners, id);
    }
    forall r | r in after.pools && r !in before.pools
      ensures Without(after.pools[r].owners, id) == map[]
    {
      WithoutUndoes(map[], after.pools[r].owners, id);
    }
    if SameUpToEmptyPools(before, SetReleased(after, id)) {
      forall r | r in before.pools
        ensures OwnsNone(before.pools[r].owners, id)
      {
        assert SetReleased(after, id).pools[r].owners == before.pools[r].owners;
      }
    }
  }

  lemma ReKeyKeepsExtension(before: PoolSet, after: PoolSet, oldID: string, newID: string)
    requires SetExtends(before, after, oldID) && SetOwnsNone(before, oldID)
    ensures SetExtends(before, SetReKeyed(after, oldID, newID), newID)
  {
    ReKeyedExtends(before.fallback.owners, after.fallback.owners, oldID, newID);
    forall r | r in before.pools
      ensures PoolExtends(before.pools[r], SetReKeyed(after, oldID, newID).pools[r], newID)
    {
      assert PoolExtends(before.pools[r], after.pools[r], oldID);
      ReKeyedExtends(before.pools[r].owners, after.pools[r].owners, oldID, newID);
    }
    forall r | r in after.pools && r !in before.pools
      ensures Extends(map[], SetReKeyed(after, oldID, newID).pools[r].owners, newID)
    {
      ReKeyedExtends(map[], after.pools[r].owners, oldID, newID);
    }
  }

  // ---------- the ports of one server ----------

  datatype Granted = Granted(ps: PoolSet, ports: seq<int>, ok: bool)

  // One port per range string, in order, up to the first that cannot be had.
  ghost function AllocateEach(ps: PoolSet, ranges: seq<string>, id: string): (g: Granted)
    ensures g.ok ==> |g.ports| == |ranges|
  {
    if ranges == [] then Granted(ps, [], true)
    else
      var before := AllocateEach(ps, ranges[..|ranges| - 1], id);
      if !before.ok then before
      else
        match SetAllocated(before.ps, ranges[|ranges| - 1], id)
        case (ps2, Some(port)) => Granted(ps2, before.ports + [port], true)
        case (ps2, None) => Granted(ps2, before.ports, false)
  }

  lemma AllocateEachStep(ps: PoolSet, ranges: seq<string>, i: nat, id: string)
    requires i < |ranges| && AllocateEach(ps, ranges[..i], id).ok
    ensures var g := AllocateEach(ps, ranges[..i], id);
            var (ps2, port) := SetAllocated(g.ps, ranges[i], id);
            AllocateEach(ps, ranges[..i + 1], id) ==
            if port.Some? then Granted(ps2, g.ports + [port.value], true) else Granted(ps2, g.ports, false)
  {
    assert ranges[..i + 1][..i] == ranges[..i];
  }

  lemma {:induction false} AllocateEachExtends(ps: PoolSet, ranges: seq<string>, id: string)
    ensures SetExtends(ps, AllocateEach(ps, ranges, id).ps, id)
  {
    if ranges != [] {
      var before := AllocateEach(ps, ranges[..|ranges| - 1], id);
      AllocateEachExtends(ps, ranges[..|ranges| - 1], id);
      if before.ok {
        AllocatedExtends(before.ps, ranges[|ranges| - 1], id);
        SetExtendsTransitive(ps, before.ps, SetAllocated(before.ps, ranges[|ranges| - 1], id).0, id);
      }
    }
  }

  // After a failure no later range is tried.
  lemma {:induction false} AllocateEachStops(ps: PoolSet, ranges: seq<string>, n: nat, id: string)
    requires n <= |ranges| && !AllocateEach(ps, ranges[..n], id).ok
    ensures AllocateEach(ps, ranges, id) == AllocateEach(ps, ranges[..n], id)
    decreases |ranges|
  {
    if n == |ranges| {
      assert ranges[..n] == ranges;
    } else {
      assert ranges[..|ranges| - 1][..n] == ranges[..n];
      AllocateEachStops(ps, ranges[..|ranges| - 1], n, id);
    }
  }

  function PoolFor(ps: PoolSet, range: string): Option<Pool> {
    if range == "" then Some(ps.fallback)
    else if range in ps.pools then Some(ps.pools[range])
    else None
  }

  // The port is in the pool its range names, is id's there, and no smaller port of it is free.
  ghost predicate FirstFit(ps: PoolSet, range: string, port: int, id: string) {
    match PoolFor(ps, range)
    case None => false
    case Some(pool) =>
      && pool.Contains(port)
      && PoolOwns(pool, port, id)
      && (forall p :: pool.start <= p < port ==> p in pool.owners)
  }

  lemma FirstFitStays(ps: PoolSet, after: PoolSet, range: string, port: int, id: string)
    requires FirstFit(ps, range, port, id) && SetExtends(ps, after, id)
    ensures FirstFit(after, range, port, id)
  {
    assert range in ps.pools ==> PoolExtends(ps.pools[range], after.pools[range], id);
  }

  // All or nothing, part one: on success every port is first-fit in its own pool and belongs to id.
  lemma {:induction false} AllocateEachFirstFit(ps: PoolSet, ranges: seq<string>, id: string)
    requires AllocateEach(ps, ranges, id).ok
    ensures var g := AllocateEach(ps, ranges, id);
            forall i :: 0 <= i < |ranges| ==> FirstFit(g.ps, ranges[i], g.ports[i], id)
  {
    if ranges != [] {
      var n := |ranges| - 1;
      var before, g := AllocateEach(ps, ranges[..n], id), AllocateEach(ps, ranges, id);
      AllocateEachFirstFit(ps, ranges[..n], id);
      AllocatedExtends(before.ps, ranges[n], id);
      forall i | 0 <= i < |ranges|
        ensures FirstFit(g.ps, ranges[i], g.ports[i], id)
      {
        if i < n {
          FirstFitStays(before.ps, g.ps, ranges[i], g.ports[i], id);
        }
      }
    }
  }

  // The ID has gained exactly these ports, and nobody else has gained or lost one.
  ghost predicate Gains(before: PoolSet, after: PoolSet, id: string, granted: seq<int>) {
    forall p, c :: Owns(after, p, c) <==> Owns(before, p, c) || (p in granted && c == id)
  }

  function AsList(port: Option<int>): seq<int> {
    if port.Some? then [port.value] else []
  }

  lemma AllocateGains(ps: PoolSet, range: string, id: string)
    ensures var (after, port) := SetAllocated(ps, range, id); Gains(ps, after, id, AsList(port))
  {
    AllocateOwnership(ps, range, id);
    hide Owns, SetAllocated;
  }

  lemma GainsAdd(a: PoolSet, b: PoolSet, c: PoolSet, id: string, first: seq<int>, second: seq<int>)
    requires Gains(a, b, id, first) && Gains(b, c, id, second)
    ensures Gains(a, c, id, first + second)
  {
    hide Owns;
  }

  // Whatever the ranges, exactly the granted ports are gained, and by the ID.
  lemma {:induction false} AllocateEachOwnership(ps: PoolSet, ranges: seq<string>, id: string)
    ensures Gains(ps, AllocateEach(ps, ranges, id).ps, id, AllocateEach(ps, ranges, id).ports)
  {
    if ranges != [] {
      var n := |ranges| - 1;
      var before := AllocateEach(ps, ranges[..n], id);
      AllocateEachOwnership(ps, ranges[..n], id);
      if before.ok {
        var (after, port) := SetAllocated(before.ps, ranges[n], id);
        AllocateGains(before.ps, ranges[n], id);
        GainsAdd(ps, before.ps, after, id, before.ports, AsList(port));
        assert before.ports + [] == before.ports;
        hide Gains, SetAllocated;
      }
    }
  }

  lemma {:induction false} AllocateEachAddsNoPool(ps: PoolSet, ranges: seq<string>, id: string)
    requires forall r :: r in ranges ==> Pooled(ps, r)
    ensures AllocateEach(ps, ranges, id).ps.pools.Keys == ps.pools.Keys
  {
    hide SetAllocated;
    if ranges != [] {
      var n := |ranges| - 1;
      assert ranges[n] in ranges && forall r :: r in ranges[..n] ==> r in ranges;
      AllocateEachAddsNoPool(ps, ranges[..n], id);
      AllocateAddsNoPool(AllocateEach(ps, ranges[..n], id).ps, ranges[n], id);
    }
  }

  // With disjoint ranges the ports are different from each other and had no owner anywhere.
  lemma {:induction false} AllocateEachDistinct(ps: PoolSet, ranges: seq<string>, id: string)
    requires Safe(ps) && forall r :: r in ranges ==> Pooled(ps, r)
    ensures var g := AllocateEach(ps, ranges, id);
            && Safe(g.ps) && g.ps.pools.Keys == ps.pools.Keys
            && (forall i, j :: 0 <= i < j < |g.ports| ==> g.ports[i] != g.ports[j])
            && (forall p, c :: p in g.ports ==> !Owns(ps, p, c))
            && (forall p, c :: Owns(g.ps, p, c) <==> Owns(ps, p, c) || (p in g.ports && c == id))
  {
    AllocateEachOwnership(ps, ranges, id);
    AllocateEachAddsNoPool(ps, ranges, id);
    hide Owns, Safe, SetAllocated;
    if ranges != [] {
      var n := |ranges| - 1;
      var before, g := AllocateEach(ps, ranges[..n], id), AllocateEach(ps, ranges, id);
      assert ranges[n] in ranges && forall r :: r in ranges[..n] ==> r in ranges;
      AllocateEachDistinct(ps, ranges[..n], id);
      if before.ok {
        var (after, port) := SetAllocated(before.ps, ranges[n], id);
        AllocateHandsOutUnowned(before.ps, ranges[n], id, after, port);
        if port.Some? {
          assert forall i :: 0 <= i < |before.ports| ==> before.ports[i] in before.ports && Owns(before.ps, before.ports[i], id);
          assert g.ports == before.ports + [port.value];
        }
      }
    }
  }
}
