// Exactly when a list of ports can be granted: a matter of counting.
module PortRoom {
  import opened Text
  import opened Ports
  import opened PortGrants

  // The free ports of a range.
  function FreeCount(start: int, end: int, owners: map<int, string>): nat
    decreases end - start + 1
  {
    if start > end then 0 else (if start in owners then 0 else 1) + FreeCount(start + 1, end, owners)
  }

  function Room(p: Pool): nat {
    FreeCount(p.start, p.end, p.owners)
  }

  // The pool that a range string is served from: it is made when it is not there yet.
  function Serving(ps: PoolSet, range: string): Option<Pool> {
    if range == "" then Some(ps.fallback)
    else if range in WithPool(ps, range).pools then Some(WithPool(ps, range).pools[range])
    else None
  }

  lemma {:induction false} NoneFreeIff(start: int, end: int, owners: map<int, string>)
    ensures FirstFree(start, end, owners) == None <==> FreeCount(start, end, owners) == 0
    decreases end - start + 1
  {
    if start <= end {
      NoneFreeIff(start + 1, end, owners);
    }
  }

  lemma {:induction false} BelowDoesNotCount(start: int, end: int, owners: map<int, string>, port: int, id: string)
    requires port < start
    ensures FreeCount(start, end, owners[port := id]) == FreeCount(start, end, owners)
    decreases end - start + 1
  {
    if start <= end {
      BelowDoesNotCount(start + 1, end, owners, port, id);
    }
  }

  lemma {:induction false} TakingLeavesOneLess(start: int, end: int, owners: map<int, string>, port: int, id: string)
    requires FirstFree(start, end, owners) == Some(port)
    ensures FreeCount(start, end, owners[port := id]) == FreeCount(start, end, owners) - 1
    ensures start <= port
    decreases end - start + 1
  {
    if start in owners {
      TakingLeavesOneLess(start + 1, end, owners, port, id);
    } else {
      BelowDoesNotCount(start + 1, end, owners, port, id);
    }
  }

  // One allocation succeeds exactly when its pool has room, takes one port of it, and leaves the
  // room of every other range alone.
  lemma AllocationTakesRoom(ps: PoolSet, range: string, id: string)
    ensures var (after, port) := SetAllocated(ps, range, id);
            && (port.Some? <==> Serving(ps, range).Some? && Room(Serving(ps, range).value) > 0)
            && (port.Some? ==>
                  && Serving(after, range).Some? && Room(Serving(after, range).value) == Room(Serving(ps, range).value) - 1
                  && forall r :: r != range ==> Serving(after, r) == Serving(ps, r))
  {
    if Serving(ps, range).Some? {
      var p := Serving(ps, range).value;
      NoneFreeIff(p.start, p.end, p.owners);
      var port := FirstFree(p.start, p.end, p.owners);
      if port.Some? {
        TakingLeavesOneLess(p.start, p.end, p.owners, port.value, id);
      }
    }
  }

  // The pool of the range has a free port for every time that the list names the range.
  predicate Fits(ps: PoolSet, ranges: seq<string>, r: string) {
    Serving(ps, r).Some? && multiset(ranges)[r] <= Room(Serving(ps, r).value)
  }

  predicate AllFit(ps: PoolSet, ranges: seq<string>) {
    forall r :: r in ranges ==> Fits(ps, ranges, r)
  }

  // What is left of the room once the list is granted.
  predicate RoomLeft(ps: PoolSet, after: PoolSet, ranges: seq<string>, r: string) {
    && Serving(after, r).Some? == Serving(ps, r).Some?
    && (Serving(ps, r).Some? ==> Room(Serving(after, r).value) == Room(Serving(ps, r).value) - multiset(ranges)[r])
  }

  lemma CountsStep(ranges: seq<string>, r: string)
    requires ranges != []
    ensures var n := |ranges| - 1;
            multiset(ranges)[r] == multiset(ranges[..n])[r] + if r == ranges[n] then 1 else 0
    ensures r in ranges <==> r in ranges[..|ranges| - 1] || r == ranges[|ranges| - 1]
  {
    assert ranges == ranges[..|ranges| - 1] + [ranges[|ranges| - 1]];
  }

  lemma AllFitStep(ps: PoolSet, ranges: seq<string>)
    requires ranges != []
    ensures var n := |ranges| - 1;
            AllFit(ps, ranges) <==> AllFit(ps, ranges[..n]) && Fits(ps, ranges, ranges[n])
  {
    var n := |ranges| - 1;
    forall r
      ensures multiset(ranges)[r] == multiset(ranges[..n])[r] + if r == ranges[n] then 1 else 0
      ensures r in ranges <==> r in ranges[..n] || r == ranges[n]
    {
      CountsStep(ranges, r);
    }
    hide Serving, Room;
    if AllFit(ps, ranges[..n]) && Fits(ps, ranges, ranges[n]) {
      forall r | r in ranges
        ensures Fits(ps, ranges, r)
      {
        if r != ranges[n] {
          assert Fits(ps, ranges[..n], r);
        }
      }
    }
    if AllFit(ps, ranges) {
      assert ranges[n] in ranges;
      forall r | r in ranges[..n]
        ensures Fits(ps, ranges[..n], r)
      {
        assert Fits(ps, ranges, r);
      }
    }
  }

  // A list of ports can be granted exactly when, for each range string, the pool that serves it has
  // at least as many free ports as the list asks for. Ranges that overlap do not compete: their
  // pools do not see each other.
  lemma {:induction false} GrantedIff(ps: PoolSet, ranges: seq<string>, id: string)
    ensures AllocateEach(ps, ranges, id).ok <==> AllFit(ps, ranges)
    ensures AllocateEach(ps, ranges, id).ok ==> forall r :: RoomLeft(ps, AllocateEach(ps, ranges, id).ps, ranges, r)
    decreases |ranges|
  {
    if ranges != [] {
      var n := |ranges| - 1;
      var before := AllocateEach(ps, ranges[..n], id);
      GrantedIff(ps, ranges[..n], id);
      AllFitStep(ps, ranges);
      CountsStep(ranges, ranges[n]);
      if before.ok {
        assert RoomLeft(ps, before.ps, ranges[..n], ranges[n]);
        AllocationTakesRoom(before.ps, ranges[n], id);
        hide Serving, Room, SetAllocated, AllFit;
        forall r | AllocateEach(ps, ranges, id).ok
          ensures RoomLeft(ps, AllocateEach(ps, ranges, id).ps, ranges, r)
        {
          CountsStep(ranges, r);
          assert RoomLeft(ps, before.ps, ranges[..n], r);
        }
      }
    }
  }
}
