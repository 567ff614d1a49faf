// pulp-cell/capacity.go: running sums of the CPU and memory given to containers. The float64
// sums are real numbers here.
module Capacity {
  import opened Text

  datatype Limits = Limits(cpu: real, mem: real)

  datatype CapacityError = CPUExceeded | MemoryExceeded

  const BYTES_PER_GIB := 1073741824.0

  function GiB(bytes: int): real {
    bytes as real / BYTES_PER_GIB
  }

  // The value of a tracker.
  datatype Tracked = Tracked(budget: Limits, alloc: Limits, containers: map<string, Limits>)

  function Plus(a: Limits, b: Limits): Limits {
    Limits(a.cpu + b.cpu, a.mem + b.mem)
  }

  function Minus(a: Limits, b: Limits): Limits {
    Limits(a.cpu - b.cpu, a.mem - b.mem)
  }

  // capacity.CanFit of the Marrow package, per resource.
  predicate CanFit(alloc: Limits, request: Limits, budget: Limits) {
    && (budget.cpu <= 0.0 || alloc.cpu + request.cpu <= budget.cpu)
    && (budget.mem <= 0.0 || alloc.mem + request.mem <= budget.mem)
  }

  // In cores and bytes.
  lemma CanFitIff(alloc: Limits, cpu: real, bytes: int, budget: Limits)
    ensures CanFit(alloc, Limits(cpu, GiB(bytes)), budget) <==>
            && (budget.cpu <= 0.0 || alloc.cpu + cpu <= budget.cpu)
            && (budget.mem <= 0.0 || alloc.mem * 1073741824.0 + bytes as real <= budget.mem * 1073741824.0)
  {
  }

  function Allocated(t: Tracked, id: string, limits: Limits): Tracked {
    t.(alloc := Plus(t.alloc, limits), containers := t.containers[id := limits])
  }

  function Committed(t: Tracked, tempID: string, realID: string): Tracked {
    if tempID in t.containers
    then t.(containers := (t.containers - {tempID})[realID := t.containers[tempID]])
    else t
  }

  function Released(t: Tracked, id: string): Tracked {
    if id in t.containers
    then t.(alloc := Minus(t.alloc, t.containers[id]), containers := t.containers - {id})
    else t
  }

  class CapacityTracker {
    const cpuBudget: real
    const memBudget: real
    var allocCPU: real
    var allocMem: real
    var containers: map<string, Limits>

    function View(): Tracked
      reads this
    {
      Tracked(Limits(cpuBudget, memBudget), Limits(allocCPU, allocMem), containers)
    }

    constructor (cpuBudget: real, memBudget: real)
      ensures View() == Tracked(Limits(cpuBudget, memBudget), Limits(0.0, 0.0), map[])
    {
      this.cpuBudget, this.memBudget := cpuBudget, memBudget;
      allocCPU, allocMem, containers := 0.0, 0.0, map[];
    }

    method TryAllocate(containerID: string, cpuLimit: real, memLimitBytes: int)
      returns (error: Option<CapacityError>)
      modifies this
      ensures var limits := Limits(cpuLimit, GiB(memLimitBytes));
              if CanFit(old(View()).alloc, limits, old(View()).budget)
              then error == None && View() == Allocated(old(View()), containerID, limits)
              else error.Some? && View() == old(View())
      ensures error == None <==>
                && (cpuBudget <= 0.0 || old(allocCPU) + cpuLimit <= cpuBudget)
                && (memBudget <= 0.0 ||
                      old(allocMem) * 1073741824.0 + memLimitBytes as real <= memBudget * 1073741824.0)
      ensures error == None ==> allocMem * 1073741824.0 == old(allocMem) * 1073741824.0 + memLimitBytes as real
      ensures error == Some(CPUExceeded) <==> cpuBudget > 0.0 && old(allocCPU) + cpuLimit > cpuBudget
    {
      var memGiB := GiB(memLimitBytes);
      if !CanFit(Limits(allocCPU, allocMem), Limits(cpuLimit, memGiB), Limits(cpuBudget, memBudget)) {
        if cpuBudget > 0.0 && allocCPU + cpuLimit > cpuBudget {
          return Some(CPUExceeded);
        }
        return Some(MemoryExceeded);
      }
      allocCPU := allocCPU + cpuLimit;
      allocMem := allocMem + memGiB;
      containers := containers[containerID := Limits(cpuLimit, memGiB)];
      return None;
    }

    method Commit(tempID: string, realID: string)
      modifies this
      ensures View() == Committed(old(View()), tempID, realID)
    {
      if tempID in containers {
        var res := containers[tempID];
        containers := containers - {tempID};
        containers := containers[realID := res];
      }
    }

    method Release(containerID: string)
      modifies this
      ensures View() == Released(old(View()), containerID)
    {
      if containerID in containers {
        var res := containers[containerID];
        allocCPU := allocCPU - res.cpu;
        allocMem := allocMem - res.mem;
        containers := containers - {containerID};
      }
    }
  }

  // ---------- what the running sums are for ----------

  ghost function Total(m: map<string, Limits>): Limits {
    if m == map[] then Limits(0.0, 0.0)
    else
      var k :| k in m;
      Plus(m[k], Total(m - {k}))
  }

  lemma {:induction false} TotalRemove(m: map<string, Limits>, k: string)
    requires k in m
    ensures Total(m) == Plus(m[k], Total(m - {k}))
    decreases |m|
  {
    var first :| first in m && Total(m) == Plus(m[first], Total(m - {first}));
    if first != k {
      var rest := m - {first} - {k};
      TotalRemove(m - {first}, k);
      TotalRemove(m - {k}, first);
      assert m - {k} - {first} == rest;
      assert Total(m) == Plus(m[first], Plus(m[k], Total(rest)));
      assert Total(m - {k}) == Plus(m[first], Total(rest));
    }
  }

  lemma TotalUpdate(m: map<string, Limits>, k: string, v: Limits)
    ensures Total(m[k := v]) == Plus(v, Total(m - {k}))
  {
    TotalRemove(m[k := v], k);
    assert m[k := v] - {k} == m - {k};
  }

  function Held(m: map<string, Limits>, id: string): Limits {
    if id in m then m[id] else Limits(0.0, 0.0)
  }

  lemma TotalWithout(m: map<string, Limits>, id: string) returns (rest: Limits)
    ensures rest == Total(m - {id}) && Total(m) == Plus(Held(m, id), rest)
  {
    rest := Total(m - {id});
    if id in m {
      TotalRemove(m, id);
    } else {
      assert m - {id} == m;
    }
  }

  // The total before and after an entry moves from one ID to another.
  lemma TotalMoved(m: map<string, Limits>, tempID: string, realID: string) returns (rest: Limits)
    requires tempID in m
    ensures Total(m) == Plus(Plus(Held(m - {tempID}, realID), rest), m[tempID])
    ensures Total((m - {tempID})[realID := m[tempID]]) == Plus(m[tempID], rest)
  {
    var moved, others := m[tempID], m - {tempID};
    assert Total(m) == Plus(moved, Total(others)) by { TotalRemove(m, tempID); }
    rest := Total(others - {realID});
    assert Total(others) == Plus(Held(others, realID), rest) by { var _ := TotalWithout(others, realID); }
    assert Total(others[realID := moved]) == Plus(moved, rest) by { TotalUpdate(others, realID, moved); }
  }

  lemma PlusCancels(held: Limits, rest: Limits, added: Limits)
    ensures Plus(Plus(held, rest), added) == Plus(added, rest) <==> held == Limits(0.0, 0.0)
  {
  }

  // The running sums are the sums over the containers.
  ghost predicate Balanced(t: Tracked) {
    t.alloc == Total(t.containers)
  }

  predicate NonNegative(limits: Limits) {
    limits.cpu >= 0.0 && limits.mem >= 0.0
  }

  ghost predicate Sound(t: Tracked) {
    && Balanced(t)
    && (forall id :: id in t.containers ==> NonNegative(t.containers[id]))
    && (t.budget.cpu > 0.0 ==> t.alloc.cpu <= t.budget.cpu)
    && (t.budget.mem > 0.0 ==> t.alloc.mem <= t.budget.mem)
  }

  // An allocation under an ID that is already tracked keeps the old share in the sums: the sums
  // stay right exactly when the ID was unknown or held nothing.
  lemma AllocateBalancedIff(t: Tracked, id: string, limits: Limits)
    requires Balanced(t)
    ensures Balanced(Allocated(t, id, limits)) <==>
            id !in t.containers || t.containers[id] == Limits(0.0, 0.0)
  {
    var rest := TotalWithout(t.containers, id);
    TotalUpdate(t.containers, id, limits);
    PlusCancels(Held(t.containers, id), rest, limits);
  }

  // A commit onto an ID that is already tracked loses that ID's own share.
  lemma CommitBalancedIff(t: Tracked, tempID: string, realID: string)
    requires Balanced(t) && tempID in t.containers
    ensures Balanced(Committed(t, tempID, realID)) <==>
            realID == tempID || realID !in t.containers || t.containers[realID] == Limits(0.0, 0.0)
  {
    var moved, others := t.containers[tempID], t.containers - {tempID};
    var rest := TotalMoved(t.containers, tempID, realID);
    PlusCancels(Held(others, realID), rest, moved);
  }

  lemma AllocateSound(t: Tracked, id: string, limits: Limits)
    requires Sound(t) && id !in t.containers && NonNegative(limits)
    requires CanFit(t.alloc, limits, t.budget)
    ensures Sound(Allocated(t, id, limits))
  {
    AllocateBalancedIff(t, id, limits);
  }

  lemma CommitSound(t: Tracked, tempID: string, realID: string)
    requires Sound(t) && (realID == tempID || realID !in t.containers)
    ensures Sound(Committed(t, tempID, realID))
  {
    if tempID in t.containers {
      CommitBalancedIff(t, tempID, realID);
    }
  }

  lemma ReleaseSound(t: Tracked, id: string)
    requires Sound(t)
    ensures Sound(Released(t, id))
  {
    if id in t.containers {
      TotalRemove(t.containers, id);
    }
  }
}
