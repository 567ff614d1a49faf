// pulp-cell/main.go, start-up: the pools of all template ranges are made, and the containers that
// already run are entered into the ledgers.
module Bootstrap {
  import opened Text
  import opened Ownership
  import opened Capacity
  import opened Ports
  import opened PortSafety
  import opened PortGrants
  import opened Exclusivity
  import opened Ips
  import opened Docker
  import opened Creation
  import opened Recreate
  import opened Runs

  const INIT := "__init__"

  // A container that Docker lists.
  datatype Listed = Listed(id: string, name: string, ip: string, ports: map<string, int>, cpuLimit: real, memoryLimit: int)

  // ---------- the pools ----------

  // The pools are those of the range strings in ranges that parse, all of them empty.
  ghost predicate Warmed(ps: PoolSet, fallback: Pool, ranges: set<string>) {
    && ps.fallback == fallback
    && (forall r :: r in ps.pools <==> r in ranges && r != "" && ParseRange(r).Some?)
    && (forall r :: r in ps.pools ==> ps.pools[r] == Pool(ParseRange(r).value.0, ParseRange(r).value.1, map[]))
  }

  lemma WarmedOwnsNothing(ps: PoolSet, fallback: Pool, ranges: set<string>)
    requires Warmed(ps, fallback, ranges) && fallback.owners == map[]
    ensures forall id :: SetOwnsNone(ps, id)
  {
  }

  lemma ReleaseRestores(warm: PoolSet, range: string)
    requires range in warm.pools && range != "" && SetOwnsNone(warm, INIT)
    ensures var (after, port) := SetAllocated(warm, range, INIT);
            (if port.Some? then SetReleased(after, INIT) else after) == warm
  {
    var (after, port) := SetAllocated(warm, range, INIT);
    AllocatedExtends(warm, range, INIT);
    ReleaseUndoesIff(warm, after, INIT);
    assert SetReleased(after, INIT).pools == warm.pools;
    assert port == None ==> after.pools == warm.pools;
  }

  // Allocating a port for nobody's sake and giving it back leaves the pool of the range behind.
  lemma AllocateAndReleaseWarms(ps: PoolSet, fallback: Pool, ranges: set<string>, range: string)
    requires Warmed(ps, fallback, ranges) && fallback.owners == map[] && range != ""
    ensures var (after, port) := SetAllocated(ps, range, INIT);
            Warmed(if port.Some? then SetReleased(after, INIT) else after, fallback, ranges + {range})
  {
    var warm := WithPool(ps, range);
    assert Warmed(warm, fallback, ranges + {range});
    if range in warm.pools {
      WarmedOwnsNothing(warm, fallback, ranges + {range});
      ReleaseRestores(warm, range);
    }
  }

  function RangesOf(t: TemplateView): set<string> {
    set p | p in t.container.ports :: p.range
  }

  function TemplateRanges(templates: map<string, TemplateView>, names: set<string>): set<string> {
    set n, p | n in templates && n in names && p in templates[n].container.ports :: p.range
  }

  method WarmPool(range: string, portPools: PortPoolSet, ghost ranges: set<string>)
    requires portPools.Valid() && range != ""
    requires portPools.Contents.fallback.owners == map[] && Warmed(portPools.Contents, portPools.Contents.fallback, ranges)
    modifies portPools, portPools.fallback, portPools.pools.Values
    ensures portPools.Valid() && fresh(portPools.pools.Values - old(portPools.pools.Values))
    ensures Warmed(portPools.Contents, old(portPools.Contents).fallback, ranges + {range})
  {
    AllocateAndReleaseWarms(portPools.Contents, portPools.Contents.fallback, ranges, range);
    var port := portPools.Allocate(range, INIT);
    if port.Some? {
      portPools.ReleaseByServer(INIT);
    }
  }

  method WarmTemplate(t: TemplateView, portPools: PortPoolSet, ghost ranges: set<string>)
    requires portPools.Valid()
    requires portPools.Contents.fallback.owners == map[] && Warmed(portPools.Contents, portPools.Contents.fallback, ranges)
    modifies portPools, portPools.fallback, portPools.pools.Values
    ensures portPools.Valid() && fresh(portPools.pools.Values - old(portPools.pools.Values))
    ensures Warmed(portPools.Contents, old(portPools.Contents).fallback, ranges + RangesOf(t))
  {
    ghost var fallback, done := portPools.Contents.fallback, {};
    var ports, i := t.container.ports, 0;
    while i < |ports|
      invariant 0 <= i <= |ports| && done == set k | 0 <= k < i :: ports[k].range
      invariant portPools.Valid() && fresh(portPools.pools.Values - old(portPools.pools.Values))
      invariant Warmed(portPools.Contents, fallback, ranges + done)
    {
      if ports[i].range != "" {
        WarmPool(ports[i].range, portPools, ranges + done);
      }
      assert ranges + done + {ports[i].range} == ranges + (done + {ports[i].range});
      done := done + {ports[i].range};
      i := i + 1;
    }
    assert done == RangesOf(t);
  }

  lemma RangesGrow(templates: map<string, TemplateView>, done: set<string>, n: string)
    requires n in templates
    ensures TemplateRanges(templates, done) + RangesOf(templates[n]) == TemplateRanges(templates, done + {n})
  {
  }

  // After this the pools are those of the parseable template ranges, in whatever order the
  // templates were visited.
  method WarmPools(templates: map<string, TemplateView>, portPools: PortPoolSet)
    requires portPools.Valid() && portPools.Contents.pools == map[] && portPools.Contents.fallback.owners == map[]
    modifies portPools, portPools.fallback, portPools.pools.Values
    ensures portPools.Valid() && fresh(portPools.pools.Values - old(portPools.pools.Values))
    ensures Warmed(portPools.Contents, old(portPools.Contents).fallback, TemplateRanges(templates, templates.Keys))
  {
    ghost var fallback := portPools.Contents.fallback;
    var todo := templates.Keys;
    assert TemplateRanges(templates, templates.Keys - todo) == {};
    hide TemplateRanges, RangesOf, ParseRange, PortPoolSet.Valid;
    while todo != {}
      invariant todo <= templates.Keys
      invariant portPools.Valid() && fresh(portPools.pools.Values - old(portPools.pools.Values))
      invariant Warmed(portPools.Contents, fallback, TemplateRanges(templates, templates.Keys - todo))
      decreases |todo|
    {
      var n := Next(todo);
      ghost var done := templates.Keys - todo;
      WarmTemplate(templates[n], portPools, TemplateRanges(templates, done));
      todo := todo - {n};
      assert templates.Keys - todo == done + {n};
      RangesGrow(templates, done, n);
    }
    assert templates.Keys - todo == templates.Keys;
  }

  // ---------- ports of running containers ----------

  // Whatever the ranges, the ports in done have been given to id, and to nobody else.
  ghost predicate Entered(before: PoolSet, after: PoolSet, done: set<int>, id: string) {
    && (forall p :: p in done ==> Owns(after, p, id))
    && (forall p, c :: Owns(after, p, c) ==> Owns(before, p, c) || (p in done && c == id))
    && (forall p, c :: Owns(before, p, c) && p !in done ==> Owns(after, p, c))
  }

  // With disjoint ranges they belong to id alone now; every other port to whom it belonged before.
  ghost predicate ReservedFor(before: PoolSet, after: PoolSet, done: set<int>, id: string) {
    && SameRanges(before, after) && Entered(before, after, done, id)
    && (Safe(before) ==>
          Safe(after) && forall p, c :: Owns(after, p, c) <==> if p in done then c == id else Owns(before, p, c))
  }

  lemma ReserveEnters(before: PoolSet, now: PoolSet, after: PoolSet, done: set<int>, port: int, id: string)
    requires Entered(before, now, done, id) && Reserves(now, after, port, id)
    ensures Entered(before, after, done + {port}, id)
  {
    ReserveOwnership(now, port, id, after);
    hide Owns, Reserves;
  }

  lemma ReserveKeepsRanges(now: PoolSet, after: PoolSet, port: int, id: string)
    requires Reserves(now, after, port, id)
    ensures SameRanges(now, after)
  {
  }

  lemma ReserveOneMore(before: PoolSet, now: PoolSet, after: PoolSet, done: set<int>, port: int, id: string)
    requires ReservedFor(before, now, done, id) && Reserves(now, after, port, id)
    ensures ReservedFor(before, after, done + {port}, id)
  {
    ReserveKeepsRanges(now, after, port, id);
    ReserveEnters(before, now, after, done, port, id);
    hide Safe, Reserves, Entered;
    if Safe(before) {
      ReserveSafe(now, port, id, after);
      SafePortsHaveOneOwner(after);
    }
  }

  method ReservePorts(s: Listed, portPools: PortPoolSet)
    requires portPools.Valid()
    modifies portPools, portPools.fallback, portPools.pools.Values
    ensures portPools.Valid() && portPools.pools == old(portPools.pools)
    ensures ReservedFor(old(portPools.Contents), portPools.Contents, s.ports.Values, s.id)
  {
    ghost var before, done := portPools.Contents, {};
    var todo := s.ports.Keys;
    while todo != {}
      invariant todo <= s.ports.Keys && done == set n | n in s.ports && n !in todo :: s.ports[n]
      invariant portPools.Valid() && portPools.pools == old(portPools.pools)
      invariant ReservedFor(before, portPools.Contents, done, s.id)
      decreases |todo|
    {
      var n := Next(todo);
      ghost var now := portPools.Contents;
      portPools.Reserve(s.ports[n], s.id);
      ReserveOneMore(before, now, portPools.Contents, done, s.ports[n], s.id);
      todo := todo - {n};
      done := done + {s.ports[n]};
    }
    assert done == s.ports.Values;
  }

  // The last listed container that has the port.
  function HolderOf(existing: seq<Listed>, port: int): Option<string> {
    if existing == [] then None
    else
      var last := existing[|existing| - 1];
      if port in last.ports.Values then Some(last.id) else HolderOf(existing[..|existing| - 1], port)
  }

  predicate ListedWith(existing: seq<Listed>, port: int, id: string) {
    exists s :: s in existing && s.id == id && port in s.ports.Values
  }

  // Whatever the ranges, every port belongs to its holder, and only to containers listed with it.
  ghost predicate HoldersEntered(after: PoolSet, existing: seq<Listed>) {
    && (forall p :: HolderOf(existing, p).Some? ==> Owns(after, p, HolderOf(existing, p).value))
    && (forall p, c :: Owns(after, p, c) ==> ListedWith(existing, p, c))
  }

  // Provided the ranges are disjoint, every port belongs to its holder and to nobody else.
  ghost predicate PortsReconciled(after: PoolSet, warm: PoolSet, existing: seq<Listed>) {
    && SameRanges(warm, after) && HoldersEntered(after, existing)
    && (Safe(warm) ==> Safe(after) && forall p, c :: Owns(after, p, c) <==> HolderOf(existing, p) == Some(c))
  }

  lemma HoldersOneMore(now: PoolSet, after: PoolSet, existing: seq<Listed>, i: nat)
    requires i < |existing| && HoldersEntered(now, existing[..i])
    requires Entered(now, after, existing[i].ports.Values, existing[i].id)
    ensures HoldersEntered(after, existing[..i + 1])
  {
    var before, all, s := existing[..i], existing[..i + 1], existing[i];
    assert all[..i] == before && all == before + [s];
    hide Owns;
    forall p | HolderOf(all, p).Some?
      ensures Owns(after, p, HolderOf(all, p).value)
    {
      if p !in s.ports.Values {
        assert Owns(now, p, HolderOf(before, p).value);
      }
    }
    forall p, c | Owns(after, p, c)
      ensures ListedWith(all, p, c)
    {
      if Owns(now, p, c) {
        assert ListedWith(before, p, c);
        var t :| t in before && t.id == c && p in t.ports.Values;
        assert t in all;
      } else {
        assert s in all;
      }
    }
  }

  lemma ReconcileOneMore(now: PoolSet, after: PoolSet, warm: PoolSet, existing: seq<Listed>, i: nat)
    requires i < |existing| && PortsReconciled(now, warm, existing[..i])
    requires ReservedFor(now, after, existing[i].ports.Values, existing[i].id)
    ensures PortsReconciled(after, warm, existing[..i + 1])
  {
    assert existing[..i + 1][..i] == existing[..i];
    HoldersOneMore(now, after, existing, i);
    hide Entered, HoldersEntered;
  }

  // ---------- addresses and capacity of running containers ----------

  function AddressesOf(owners: map<string, string>, existing: seq<Listed>): map<string, string> {
    if existing == [] then owners
    else
      var last := existing[|existing| - 1];
      var before := AddressesOf(owners, existing[..|existing| - 1]);
      if last.ip != "" then before[last.ip := last.id] else before
  }

  predicate NamedAfter(name: string, template: string) {
    template + "-" <= TrimSlash(name)
  }

  // The containers whose limits count: named after some template, with some limit set.
  predicate Managed(s: Listed, templates: set<string>) {
    (exists t :: t in templates && NamedAfter(s.name, t)) && (s.cpuLimit > 0.0 || s.memoryLimit > 0)
  }

  function LimitsOf(s: Listed): Limits {
    Limits(s.cpuLimit, GiB(s.memoryLimit))
  }

  // A managed container that does not fit the budget is left out of the sums.
  function WithListed(t: Tracked, s: Listed, templates: set<string>): Tracked {
    if Managed(s, templates) && CanFit(t.alloc, LimitsOf(s), t.budget) then Allocated(t, s.id, LimitsOf(s)) else t
  }

  function CapacityOf(t: Tracked, existing: seq<Listed>, templates: set<string>): Tracked {
    if existing == [] then t
    else WithListed(CapacityOf(t, existing[..|existing| - 1], templates), existing[|existing| - 1], templates)
  }

  function IDs(existing: seq<Listed>): set<string> {
    set s | s in existing :: s.id
  }

  predicate DistinctIDs(existing: seq<Listed>) {
    forall i, j :: 0 <= i < j < |existing| ==> existing[i].id != existing[j].id
  }

  predicate LimitsNonNegative(existing: seq<Listed>) {
    forall s :: s in existing ==> s.cpuLimit >= 0.0 && s.memoryLimit >= 0
  }

  lemma {:induction false} CapacityReconciledSound(t: Tracked, existing: seq<Listed>, templates: set<string>)
    requires Sound(t) && t.containers == map[] && DistinctIDs(existing) && LimitsNonNegative(existing)
    ensures var after := CapacityOf(t, existing, templates);
            Sound(after) && after.budget == t.budget && forall c :: c in after.containers ==> c in IDs(existing)
  {
    hide Sound;
    if existing != [] {
      var n := |existing| - 1;
      CapacityReconciledSound(t, existing[..n], templates);
      assert forall s :: s in existing[..n] ==> s in existing;
      var before, last := CapacityOf(t, existing[..n], templates), existing[n];
      assert last.id !in IDs(existing[..n]);
      if CanFit(before.alloc, LimitsOf(last), before.budget) {
        AllocateSound(before, last.id, LimitsOf(last));
      }
    }
  }

  method IsNamedAfterTemplate(name: string, templates: set<string>) returns (matched: bool)
    ensures matched <==> exists t :: t in templates && NamedAfter(name, t)
  {
    var todo := templates;
    while todo != {}
      invariant todo <= templates
      invariant forall t :: t in templates && t !in todo ==> !NamedAfter(name, t)
      decreases |todo|
    {
      var t := Next(todo);
      if t + "-" <= TrimSlash(name) {
        return true;
      }
      todo := todo - {t};
    }
    return false;
  }

  method ReconcileCapacity(s: Listed, templates: set<string>, capacity: CapacityTracker)
    modifies capacity
    ensures capacity.View() == WithListed(old(capacity.View()), s, templates)
  {
    var matched := IsNamedAfterTemplate(s.name, templates);
    if !matched {
      return;
    }
    if s.cpuLimit > 0.0 || s.memoryLimit > 0 {
      var error := capacity.TryAllocate(s.id, s.cpuLimit, s.memoryLimit);
    }
  }

  // Enters the ports of one container.
  method ReconcilePorts(existing: seq<Listed>, i: nat, portPools: PortPoolSet, ghost warm: PoolSet)
    requires i < |existing| && portPools.Valid() && PortsReconciled(portPools.Contents, warm, existing[..i])
    modifies portPools, portPools.fallback, portPools.pools.Values
    ensures portPools.Valid() && portPools.pools == old(portPools.pools)
    ensures PortsReconciled(portPools.Contents, warm, existing[..i + 1])
  {
    ghost var now := portPools.Contents;
    ReservePorts(existing[i], portPools);
    ReconcileOneMore(now, portPools.Contents, warm, existing, i);
  }

  method ReconcileOne(existing: seq<Listed>, i: nat, templates: set<string>, capacity: CapacityTracker,
                      portPools: PortPoolSet, ipp: IpPool, ghost warm: PoolSet)
    requires i < |existing| && portPools.Valid() && ipp.Valid() && PortsReconciled(portPools.Contents, warm, existing[..i])
    modifies capacity, ipp, portPools, portPools.fallback, portPools.pools.Values
    ensures portPools.Valid() && ipp.Valid() && portPools.pools == old(portPools.pools)
    ensures PortsReconciled(portPools.Contents, warm, existing[..i + 1])
    ensures ipp.View() == old(ipp.View()).(owners := if existing[i].ip != "" then old(ipp.owners)[existing[i].ip := existing[i].id]
                                                     else old(ipp.owners))
    ensures capacity.View() == WithListed(old(capacity.View()), existing[i], templates)
  {
    hide Managed, PortsReconciled, CanFit;
    ReconcilePorts(existing, i, portPools, warm);
    if existing[i].ip != "" {
      ipp.Reserve(existing[i].ip, existing[i].id);
    }
    ReconcileCapacity(existing[i], templates, capacity);
  }

  method Reconcile(existing: seq<Listed>, templates: set<string>, capacity: CapacityTracker, portPools: PortPoolSet, ipp: IpPool)
    requires portPools.Valid() && ipp.Valid() && PortsReconciled(portPools.Contents, portPools.Contents, [])
    modifies capacity, ipp, portPools, portPools.fallback, portPools.pools.Values
    ensures portPools.Valid() && ipp.Valid() && portPools.pools == old(portPools.pools)
    ensures PortsReconciled(portPools.Contents, old(portPools.Contents), existing)
    ensures ipp.View() == old(ipp.View()).(owners := AddressesOf(old(ipp.owners), existing))
    ensures capacity.View() == CapacityOf(old(capacity.View()), existing, templates)
  {
    hide PortsReconciled, Managed;
    ghost var warm := portPools.Contents;
    var i := 0;
    while i < |existing|
      invariant 0 <= i <= |existing|
      invariant portPools.Valid() && ipp.Valid() && portPools.pools == old(portPools.pools)
      invariant PortsReconciled(portPools.Contents, warm, existing[..i])
      invariant ipp.View() == old(ipp.View()).(owners := AddressesOf(old(ipp.owners), existing[..i]))
      invariant capacity.View() == CapacityOf(old(capacity.View()), existing[..i], templates)
    {
      assert existing[..i + 1][..i] == existing[..i];
      ReconcileOne(existing, i, templates, capacity, portPools, ipp, warm);
      i := i + 1;
    }
    assert existing[..i] == existing;
  }

  // ---------- start-up as a whole ----------

  function PoolOf(range: string): Pool
    requires ParseRange(range).Some?
  {
    Pool(ParseRange(range).value.0, ParseRange(range).value.1, map[])
  }

  // The range strings that name pools, and the fallback range, are pairwise disjoint.
  ghost predicate DisjointTemplateRanges(fallback: Pool, ranges: set<string>) {
    && (forall r :: r in ranges && r != "" && ParseRange(r).Some? ==> !Overlap(fallback, PoolOf(r)))
    && (forall r1, r2 ::
          (r1 in ranges && r2 in ranges && r1 != "" && r2 != "" && r1 != r2 && ParseRange(r1).Some? && ParseRange(r2).Some?) ==>
            !Overlap(PoolOf(r1), PoolOf(r2)))
  }

  lemma WarmedSafeIff(ps: PoolSet, fallback: Pool, ranges: set<string>)
    requires Warmed(ps, fallback, ranges) && fallback.owners == map[]
    ensures Safe(ps) <==> DisjointTemplateRanges(fallback, ranges)
    ensures PortsReconciled(ps, ps, [])
  {
    if DisjointTemplateRanges(fallback, ranges) {
      assert forall r :: r in ps.pools ==> ps.pools[r] == PoolOf(r);
    }
    if Safe(ps) {
      forall r1, r2 | r1 in ranges && r2 in ranges && r1 != "" && r2 != "" && r1 != r2 && ParseRange(r1).Some? && ParseRange(r2).Some?
        ensures !Overlap(PoolOf(r1), PoolOf(r2))
      {
        assert ps.pools[r1] == PoolOf(r1) && ps.pools[r2] == PoolOf(r2);
      }
      forall r | r in ranges && r != "" && ParseRange(r).Some?
        ensures !Overlap(fallback, PoolOf(r))
      {
        assert ps.pools[r] == PoolOf(r);
      }
    }
  }

  // From the pools that start-up makes, every sequence of allocations keeps each port to one owner
  // exactly when no port lies in two of the ranges, the fallback's included.
  lemma WarmedExclusiveIff(ps: PoolSet, fallback: Pool, ranges: set<string>)
    requires Warmed(ps, fallback, ranges) && fallback.owners == map[]
    ensures (forall run :: Known(ps, run) ==> OneOwnerPerPort(AllocateAll(ps, run))) <==>
            DisjointTemplateRanges(fallback, ranges)
  {
    WarmedSafeIff(ps, fallback, ranges);
    ExclusiveIffDisjoint(ps);
  }

  method Start(templates: map<string, TemplateView>, existing: Option<seq<Listed>>, capacity: CapacityTracker,
               portPools: PortPoolSet, ipp: IpPool)
    returns (ghost warm: PoolSet)
    requires portPools.Valid() && portPools.Contents.pools == map[] && portPools.Contents.fallback.owners == map[]
    requires ipp.Valid()
    modifies capacity, ipp, portPools, portPools.fallback, portPools.pools.Values
    ensures portPools.Valid() && ipp.Valid()
    ensures Warmed(warm, old(portPools.Contents).fallback, TemplateRanges(templates, templates.Keys))
    ensures var listed := if existing.Some? then existing.value else [];
            && PortsReconciled(portPools.Contents, warm, listed)
            && ipp.View() == old(ipp.View()).(owners := AddressesOf(old(ipp.owners), listed))
            && capacity.View() == CapacityOf(old(capacity.View()), listed, templates.Keys)
  {
    hide PortsReconciled, Warmed;
    WarmPools(templates, portPools);
    warm := portPools.Contents;
    WarmedSafeIff(warm, old(portPools.Contents).fallback, TemplateRanges(templates, templates.Keys));
    if existing.Some? {
      Reconcile(existing.value, templates.Keys, capacity, portPools, ipp);
    }
  }

  lemma OwnersIncluded(a: PoolSet, b: PoolSet)
    requires Safe(a) && Safe(b) && SameRanges(a, b)
    requires forall p, c :: Owns(a, p, c) ==> Owns(b, p, c)
    ensures forall r :: r in a.pools ==> Included(a.pools[r].owners, b.pools[r].owners)
    ensures Included(a.fallback.owners, b.fallback.owners)
  {
    forall r, p | r in a.pools && p in a.pools[r].owners
      ensures p in b.pools[r].owners && b.pools[r].owners[p] == a.pools[r].owners[p]
    {
      assert PoolOwns(a.pools[r], p, a.pools[r].owners[p]);
      assert Owns(b, p, a.pools[r].owners[p]);
      assert b.pools[r].Contains(p);
    }
    forall p | p in a.fallback.owners
      ensures p in b.fallback.owners && b.fallback.owners[p] == a.fallback.owners[p]
    {
      assert PoolOwns(a.fallback, p, a.fallback.owners[p]);
      assert Owns(b, p, a.fallback.owners[p]);
      assert forall r :: r in b.pools ==> !b.pools[r].Contains(p);
    }
  }

  // What owners the ports have settles the whole pool set: no trace is left of the order in which
  // maps were visited.
  lemma OwnershipDetermines(a: PoolSet, b: PoolSet)
    requires Safe(a) && Safe(b) && SameRanges(a, b)
    requires forall p, c :: Owns(a, p, c) <==> Owns(b, p, c)
    ensures a == b
  {
    OwnersIncluded(a, b);
    OwnersIncluded(b, a);
    forall r | r in a.pools
      ensures a.pools[r] == b.pools[r]
    {
      IncludedBothWays(a.pools[r].owners, b.pools[r].owners);
    }
    IncludedBothWays(a.fallback.owners, b.fallback.owners);
    assert a.pools == b.pools;
  }

  // Start-up ends in one port pool set only, provided the template ranges are disjoint.
  lemma StartIsDeterministic(fallback: Pool, ranges: set<string>, existing: seq<Listed>,
                             warm1: PoolSet, after1: PoolSet, warm2: PoolSet, after2: PoolSet)
    requires fallback.owners == map[] && DisjointTemplateRanges(fallback, ranges)
    requires Warmed(warm1, fallback, ranges) && PortsReconciled(after1, warm1, existing)
    requires Warmed(warm2, fallback, ranges) && PortsReconciled(after2, warm2, existing)
    ensures warm1 == warm2 && after1 == after2
  {
    WarmedSafeIff(warm1, fallback, ranges);
    assert warm1.pools.Keys == warm2.pools.Keys;
    assert warm1.pools == warm2.pools;
    OwnershipDetermines(after1, after2);
  }

  // The ledgers after start-up, for a setup, a budget and what Docker lists.
  ghost predicate Started(setup: Setup, budget: Limits, fallback: Pool, ips: IpState, existing: seq<Listed>, l: Ledger) {
    && (exists warm :: Warmed(warm, fallback, TemplateRanges(setup.templates, setup.templates.Keys)) &&
                       PortsReconciled(l.ports, warm, existing))
    && l.ips == ips.(owners := AddressesOf(ips.owners, existing))
    && l.cap == CapacityOf(Tracked(budget, Limits(0.0, 0.0), map[]), existing, setup.templates.Keys)
  }

  // Start-up enters every listed port, whatever the ranges, and makes the pools safe if they are disjoint.
  lemma StartedPorts(setup: Setup, budget: Limits, fallback: Pool, ips: IpState, existing: seq<Listed>, l: Ledger)
    requires Started(setup, budget, fallback, ips, existing, l) && fallback.owners == map[]
    ensures TemplatesPooled(setup, l.ports) && HoldersEntered(l.ports, existing)
    ensures DisjointTemplateRanges(fallback, TemplateRanges(setup.templates, setup.templates.Keys)) ==>
              Safe(l.ports) && forall p, c :: Owns(l.ports, p, c) <==> HolderOf(existing, p) == Some(c)
  {
    var ranges := TemplateRanges(setup.templates, setup.templates.Keys);
    var warm :| Warmed(warm, fallback, ranges) && PortsReconciled(l.ports, warm, existing);
    WarmedSafeIff(warm, fallback, ranges);
    forall n, p | n in setup.templates && p in setup.templates[n].container.ports
      ensures Pooled(l.ports, p.range)
    {
      assert p.range in ranges;
    }
  }

  // From start-up on, through any run and whatever the ranges: the sums are those of the entries and
  // within budget, and every entry is of a container.
  lemma CapacityStaysSafe(setup: Setup, physical: iset<string>, budget: Limits, fallback: Pool, ips: IpState,
                          existing: seq<Listed>, l: Ledger, run: seq<Step>, end: World)
    requires Started(setup, budget, fallback, ips, existing, l) && ips.Valid()
    requires DistinctIDs(existing) && LimitsNonNegative(existing) && forall s :: s in existing ==> s.id in physical
    requires var w := World(State(l, map[]), IDs(existing)); Reaches(setup, w, run, end) && PossibleRun(setup, physical, w, run)
    requires forall step :: step in run ==> Sensible(setup, step)
    ensures Sound(end.cell.ledger.cap) && forall id :: id in end.cell.ledger.cap.containers ==> id in physical
  {
    hide Reaches, PossibleRun, Sensible;
    CapacityReconciledSound(Tracked(budget, Limits(0.0, 0.0), map[]), existing, setup.templates.Keys);
    RunsKeepCapacity(setup, physical, World(State(l, map[]), IDs(existing)), run, end);
  }

  lemma {:induction false} HolderIsListed(existing: seq<Listed>, port: int)
    ensures HolderOf(existing, port).Some? ==> HolderOf(existing, port).value in IDs(existing)
  {
    if existing != [] {
      HolderIsListed(existing[..|existing| - 1], port);
    }
  }

  // From start-up on, through any run: a port that a listed container holds stays its own for as long
  // as no step retires the container, and nobody else's if the ranges are disjoint.
  lemma ListedPortsAreNeverHandedOut(setup: Setup, physical: iset<string>, budget: Limits, fallback: Pool, ips: IpState,
                                     existing: seq<Listed>, l: Ledger, run: seq<Step>, end: World, port: int, c: string)
    requires Started(setup, budget, fallback, ips, existing, l) && fallback.owners == map[] && ips.Valid()
    requires forall s :: s in existing ==> s.id in physical
    requires var w := World(State(l, map[]), IDs(existing)); Reaches(setup, w, run, end) && PossibleRun(setup, physical, w, run)
    requires HolderOf(existing, port) == Some(c) && Spares(setup, run, c)
    ensures Owns(end.cell.ledger.ports, port, c)
    ensures DisjointTemplateRanges(fallback, TemplateRanges(setup.templates, setup.templates.Keys)) ==>
              forall d :: Owns(end.cell.ledger.ports, port, d) <==> d == c
  {
    var w := World(State(l, map[]), IDs(existing));
    HolderIsListed(existing, port);
    StartedPorts(setup, budget, fallback, ips, existing, l);
    assert w.cell.ledger.ips.Valid() && Owns(l.ports, port, c);
    hide Started, Spares, Reaches, PossibleRun, Safe, TemplatesPooled, Owns, DisjointTemplateRanges;
    SparedContainersKeepTheirPorts(setup, physical, w, run, end, c);
    RunsKeepPorts(setup, w, run, end);
  }
}
