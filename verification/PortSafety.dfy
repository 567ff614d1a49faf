// What port ownership keeps across the pools of a set.
module PortSafety {
  import opened Text
  import opened Ownership
  import opened Ports

  // ---------- exclusivity ----------

  // Some port lies in both ranges; an empty range overlaps none.
  ghost predicate Overlap(a: Pool, b: Pool) {
    exists p :: a.Contains(p) && b.Contains(p)
  }

  ghost predicate DisjointRanges(ps: PoolSet) {
    && (forall r :: r in ps.pools ==> !Overlap(ps.fallback, ps.pools[r]))
    && (forall r1, r2 :: r1 in ps.pools && r2 in ps.pools && r1 != r2 ==> !Overlap(ps.pools[r1], ps.pools[r2]))
  }

  // Whether pools overlap is a matter of their bounds.
  lemma OverlapIff(a: Pool, b: Pool)
    ensures Overlap(a, b) <==> a.start <= a.end && b.start <= b.end && a.start <= b.end && b.start <= a.end
  {
    if a.start <= a.end && b.start <= b.end && a.start <= b.end && b.start <= a.end {
      var p := if a.start <= b.start then b.start else a.start;
      assert a.Contains(p) && b.Contains(p);
    }
  }

  ghost predicate SameRanges(before: PoolSet, after: PoolSet) {
    && after.pools.Keys == before.pools.Keys
    && after.fallback.start == before.fallback.start && after.fallback.end == before.fallback.end
    && forall r :: r in before.pools ==>
         after.pools[r].start == before.pools[r].start && after.pools[r].end == before.pools[r].end
  }

  lemma SameRangesSameDisjointness(before: PoolSet, after: PoolSet)
    requires SameRanges(before, after)
    ensures DisjointRanges(before) <==> DisjointRanges(after)
  {
    forall r | r in before.pools
      ensures Overlap(before.fallback, before.pools[r]) <==> Overlap(after.fallback, after.pools[r])
    {
      OverlapIff(before.fallback, before.pools[r]);
      OverlapIff(after.fallback, after.pools[r]);
    }
    forall r1, r2 | r1 in before.pools && r2 in before.pools
      ensures Overlap(before.pools[r1], before.pools[r2]) <==> Overlap(after.pools[r1], after.pools[r2])
    {
      OverlapIff(before.pools[r1], before.pools[r2]);
      OverlapIff(after.pools[r1], after.pools[r2]);
    }
  }

  // Named pools hold ports of their own range only; the fallback holds no port of a named range.
  ghost predicate Confined(ps: PoolSet) {
    && (forall r, p :: r in ps.pools && p in ps.pools[r].owners ==> ps.pools[r].Contains(p))
    && (forall r, p :: p in ps.fallback.owners && r in ps.pools ==> !ps.pools[r].Contains(p))
  }

  ghost predicate PoolOwns(p: Pool, port: int, id: string) {
    port in p.owners && p.owners[port] == id
  }

  // Some pool records id as the owner of port.
  ghost predicate Owns(ps: PoolSet, port: int, id: string) {
    || PoolOwns(ps.fallback, port, id)
    || (exists r :: r in ps.pools && PoolOwns(ps.pools[r], port, id))
  }

  ghost predicate OneOwnerPerPort(ps: PoolSet) {
    forall port, a, b :: Owns(ps, port, a) && Owns(ps, port, b) ==> a == b
  }

  ghost predicate Safe(ps: PoolSet) {
    DisjointRanges(ps) && Confined(ps)
  }

  // The pool a range string stands for is already there, or never will be.
  predicate Pooled(ps: PoolSet, range: string) {
    range == "" || range in ps.pools || ParseRange(range).None?
  }

  lemma SafePortsHaveOneOwner(ps: PoolSet)
    requires Safe(ps)
    ensures OneOwnerPerPort(ps)
  {
    forall port, a, b | Owns(ps, port, a) && Owns(ps, port, b)
      ensures a == b
    {
      if !PoolOwns(ps.fallback, port, a) && !PoolOwns(ps.fallback, port, b) {
        var r1 :| r1 in ps.pools && PoolOwns(ps.pools[r1], port, a);
        var r2 :| r2 in ps.pools && PoolOwns(ps.pools[r2], port, b);
        assert ps.pools[r1].Contains(port) && ps.pools[r2].Contains(port);
      }
    }
  }

  // Whatever the ranges, an allocation makes the ID own the port it hands out, and changes no other
  // ownership.
  lemma AllocateOwnership(ps: PoolSet, range: string, id: string)
    ensures var (after, port) := SetAllocated(ps, range, id);
            forall p, c :: Owns(after, p, c) <==> Owns(ps, p, c) || (port == Some(p) && c == id)
  {
    var (after, port) := SetAllocated(ps, range, id);
    forall p, c
      ensures Owns(after, p, c) <==> Owns(ps, p, c) || (port == Some(p) && c == id)
    {
      if r :| r in ps.pools && PoolOwns(ps.pools[r], p, c) {
        assert PoolOwns(after.pools[r], p, c);
      }
      if port == Some(p) && c == id && range != "" {
        assert PoolOwns(after.pools[range], p, c);
      }
    }
  }

  // A range string whose pool is there adds none.
  lemma AllocateAddsNoPool(ps: PoolSet, range: string, id: string)
    requires Pooled(ps, range)
    ensures SetAllocated(ps, range, id).0.pools.Keys == ps.pools.Keys
  {
  }

  lemma AllocateFromFallback(ps: PoolSet, id: string, after: PoolSet, port: int)
    requires Safe(ps) && (after, Some(port)) == SetAllocated(ps, "", id)
    ensures Safe(after)
    ensures forall c :: !Owns(ps, port, c)
  {
    assert after.pools == ps.pools && after.fallback.owners == ps.fallback.owners[port := id];
    forall r | r in ps.pools
      ensures !ps.pools[r].Contains(port)
    {
      assert !Overlap(ps.fallback, ps.pools[r]);
    }
  }

  lemma AllocateFromNamed(ps: PoolSet, range: string, id: string, after: PoolSet, port: int)
    requires Safe(ps) && range in ps.pools && range != "" && (after, Some(port)) == SetAllocated(ps, range, id)
    ensures Safe(after)
    ensures forall c :: !Owns(ps, port, c)
  {
    var pool := ps.pools[range];
    assert after == ps.(pools := ps.pools[range := pool.(owners := pool.owners[port := id])]);
    assert pool.Contains(port);
    forall r | r in ps.pools && r != range
      ensures port !in ps.pools[r].owners
    {
      assert !Overlap(pool, ps.pools[r]);
    }
  }

  // With disjoint ranges the port had no owner in any pool.
  lemma AllocateHandsOutUnowned(ps: PoolSet, range: string, id: string, after: PoolSet, port: Option<int>)
    requires Safe(ps) && Pooled(ps, range)
    requires (after, port) == SetAllocated(ps, range, id)
    ensures Safe(after) && after.pools.Keys == ps.pools.Keys
    ensures port == None ==> after == ps
    ensures port.Some? ==> forall c :: !Owns(ps, port.value, c)
    ensures forall p, c :: Owns(after, p, c) <==> Owns(ps, p, c) || (port == Some(p) && c == id)
  {
    AllocateOwnership(ps, range, id);
    AllocateAddsNoPool(ps, range, id);
    hide Owns;
    if port.Some? {
      if range == "" {
        AllocateFromFallback(ps, id, after, port.value);
      } else {
        AllocateFromNamed(ps, range, id, after, port.value);
      }
    } else if range in ps.pools {
      assert after.pools == ps.pools;
    }
  }

  lemma ReleaseOwnership(ps: PoolSet, id: string)
    ensures Safe(ps) ==> Safe(SetReleased(ps, id))
    ensures forall p, c :: Owns(SetReleased(ps, id), p, c) <==> Owns(ps, p, c) && c != id
  {
    var after := SetReleased(ps, id);
    SameRangesSameDisjointness(ps, after);
    forall p, c
      ensures Owns(after, p, c) <==> Owns(ps, p, c) && c != id
    {
      if Owns(ps, p, c) && c != id && !PoolOwns(ps.fallback, p, c) {
        var r :| r in ps.pools && PoolOwns(ps.pools[r], p, c);
        assert PoolOwns(after.pools[r], p, c);
      }
    }
  }

  lemma ReKeyOwnership(ps: PoolSet, oldID: string, newID: string)
    ensures Safe(ps) ==> Safe(SetReKeyed(ps, oldID, newID))
    ensures forall p, c :: Owns(SetReKeyed(ps, oldID, newID), p, c) <==>
                           (Owns(ps, p, c) && c != oldID) || (c == newID && Owns(ps, p, oldID))
  {
    var after := SetReKeyed(ps, oldID, newID);
    SameRangesSameDisjointness(ps, after);
    forall p, c
      ensures Owns(after, p, c) <==> (Owns(ps, p, c) && c != oldID) || (c == newID && Owns(ps, p, oldID))
    {
      if Owns(ps, p, c) && c != oldID && !PoolOwns(ps.fallback, p, c) {
        var r :| r in ps.pools && PoolOwns(ps.pools[r], p, c);
        assert PoolOwns(after.pools[r], p, c);
      }
      if c == newID && Owns(ps, p, oldID) && !PoolOwns(ps.fallback, p, oldID) {
        var r :| r in ps.pools && PoolOwns(ps.pools[r], p, oldID);
        assert PoolOwns(after.pools[r], p, c);
      }
    }
  }

  // ---------- reserving ----------

  lemma ReserveAgain(ps: PoolSet, range: string, port: int, id: string)
    requires Covers(ps, range, port) && PoolOwns(ps.pools[range], port, id)
    ensures ReservedIn(ps, range, port, id) == ps
  {
    UpdateToSame(ps.pools[range].owners, port);
    assert ReservedIn(ps, range, port, id).pools == ps.pools;
  }

  // The order in which the map offers its pools is immaterial exactly when no two different pools
  // cover the port, unless every such pool records the ID already.
  lemma ReserveOrderIndependentIff(ps: PoolSet, port: int, id: string)
    ensures (forall a, b :: Reserves(ps, a, port, id) && Reserves(ps, b, port, id) ==> a == b) <==>
            (forall r1, r2 :: Covers(ps, r1, port) && Covers(ps, r2, port) && r1 != r2 ==>
                                PoolOwns(ps.pools[r1], port, id))
  {
    if r1, r2 :| Covers(ps, r1, port) && Covers(ps, r2, port) && r1 != r2 && !PoolOwns(ps.pools[r1], port, id) {
      var a, b := ReservedIn(ps, r1, port, id), ReservedIn(ps, r2, port, id);
      assert Reserves(ps, a, port, id) && Reserves(ps, b, port, id);
      assert PoolOwns(a.pools[r1], port, id) && !PoolOwns(b.pools[r1], port, id);
    } else {
      forall a, b | Reserves(ps, a, port, id) && Reserves(ps, b, port, id)
        ensures a == b
      {
        if r1 :| Covers(ps, r1, port) && a == ReservedIn(ps, r1, port, id) {
          var r2 :| Covers(ps, r2, port) && b == ReservedIn(ps, r2, port, id);
          if r1 != r2 {
            ReserveAgain(ps, r1, port, id);
            ReserveAgain(ps, r2, port, id);
          }
        }
      }
    }
  }

  // Whatever the ranges, a reservation enters the ID, may push out others at this port, and touches
  // no other port.
  lemma ReserveOwnership(ps: PoolSet, port: int, id: string, after: PoolSet)
    requires Reserves(ps, after, port, id)
    ensures Owns(after, port, id)
    ensures forall c :: Owns(after, port, c) ==> Owns(ps, port, c) || c == id
    ensures forall p, c :: p != port ==> (Owns(after, p, c) <==> Owns(ps, p, c))
  {
    if r :| Covers(ps, r, port) && after == ReservedIn(ps, r, port, id) {
      assert PoolOwns(after.pools[r], port, id);
      forall p, c | p != port
        ensures Owns(after, p, c) <==> Owns(ps, p, c)
      {
        if Owns(ps, p, c) && !PoolOwns(ps.fallback, p, c) {
          var s :| s in ps.pools && PoolOwns(ps.pools[s], p, c);
          assert PoolOwns(after.pools[s], p, c);
        }
      }
    } else {
      assert PoolOwns(after.fallback, port, id);
    }
  }

  lemma ReserveInNamedSafe(ps: PoolSet, range: string, port: int, id: string)
    requires Safe(ps) && Covers(ps, range, port)
    ensures Safe(ReservedIn(ps, range, port, id))
  {
  }

  lemma ReserveInFallbackSafe(ps: PoolSet, port: int, id: string)
    requires Safe(ps) && forall r :: !Covers(ps, r, port)
    ensures Safe(ReservedInFallback(ps, port, id))
  {
    assert forall r :: r in ps.pools ==> !Covers(ps, r, port);
  }

  lemma ReserveSafe(ps: PoolSet, port: int, id: string, after: PoolSet)
    requires Safe(ps) && Reserves(ps, after, port, id)
    ensures Safe(after) && after.pools.Keys == ps.pools.Keys
    ensures Owns(after, port, id)
    ensures forall p, c :: p != port ==> (Owns(after, p, c) <==> Owns(ps, p, c))
  {
    ReserveOwnership(ps, port, id, after);
    hide Safe, Owns;
    if r :| Covers(ps, r, port) && after == ReservedIn(ps, r, port, id) {
      ReserveInNamedSafe(ps, r, port, id);
    } else {
      ReserveInFallbackSafe(ps, port, id);
    }
  }
}
