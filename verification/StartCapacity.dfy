// Which of the listed containers start-up counts, told by the list alone.
module StartCapacity {
  import opened Capacity
  import opened Docker
  import opened Ips
  import opened Ports
  import opened Creation
  import opened Recreate
  import opened Runs
  import opened Bootstrap
  import opened Promises

  // The name, without a leading slash, is some template's name, a dash and anything; and there is a
  // limit.
  predicate Counts(s: Listed, templates: set<string>) {
    && (exists t :: t in templates && ("/" + t + "-" <= s.name || (t + "-" <= s.name && !("/" <= s.name))))
    && (s.cpuLimit > 0.0 || s.memoryLimit > 0)
  }

  lemma NamedAfterIff(name: string, t: string)
    ensures NamedAfter(name, t) <==> "/" + t + "-" <= name || (t + "-" <= name && !("/" <= name))
  {
    var rest := TrimSlash(name);
    if "/" <= name {
      assert name == "/" + rest;
      if t + "-" <= rest {
        assert ("/" + t + "-") == "/" + (t + "-");
      }
      if "/" + t + "-" <= name {
        assert name[1..][..|t| + 1] == t + "-";
      }
    }
  }

  lemma CountsIff(s: Listed, templates: set<string>)
    ensures Managed(s, templates) <==> Counts(s, templates)
  {
    forall t
      ensures NamedAfter(s.name, t) <==> "/" + t + "-" <= s.name || (t + "-" <= s.name && !("/" <= s.name))
    {
      NamedAfterIff(s.name, t);
    }
    hide NamedAfter;
    if t :| t in templates && NamedAfter(s.name, t) {
      assert Counts(s, templates) <==> s.cpuLimit > 0.0 || s.memoryLimit > 0;
    }
  }

  // What the listed containers with these IDs hold together.
  function SumOf(existing: seq<Listed>, ids: set<string>): Promise {
    if existing == [] then Promise(0.0, 0)
    else
      var n := |existing| - 1;
      var before := SumOf(existing[..n], ids);
      if existing[n].id in ids then Promise(before.cpu + existing[n].cpuLimit, before.bytes + existing[n].memoryLimit) else before
  }

  predicate FitsOnTop(sum: Promise, s: Listed, budget: Limits) {
    && (budget.cpu <= 0.0 || sum.cpu + s.cpuLimit <= budget.cpu)
    && (budget.mem <= 0.0 || (sum.bytes + s.memoryLimit) as real <= budget.mem * 1073741824.0)
  }

  predicate EnteredAt(after: Tracked, existing: seq<Listed>, templates: set<string>, i: nat)
    requires i < |existing|
  {
    var s := existing[i];
    && (s.id in after.containers <==>
          Counts(s, templates) && FitsOnTop(SumOf(existing[..i], after.containers.Keys), s, after.budget))
    && (s.id in after.containers ==>
          after.containers[s.id].cpu == s.cpuLimit && after.containers[s.id].mem * 1073741824.0 == s.memoryLimit as real)
  }

  // The sums of a tracker are those of the entered ones.
  predicate SumsStand(t: Tracked, existing: seq<Listed>) {
    && t.alloc.cpu == SumOf(existing, t.containers.Keys).cpu
    && t.alloc.mem * 1073741824.0 == SumOf(existing, t.containers.Keys).bytes as real
  }

  // The listed containers are taken in their order: one is entered exactly when it counts and fits
  // on top of those entered before it, with its own limits; nothing else is entered, and the sums
  // are those of the entered ones.
  ghost predicate EnteredInOrder(after: Tracked, existing: seq<Listed>, templates: set<string>) {
    && (forall c :: c in after.containers ==> exists i :: 0 <= i < |existing| && existing[i].id == c)
    && (forall i :: 0 <= i < |existing| ==> EnteredAt(after, existing, templates, i))
    && SumsStand(after, existing)
  }

  lemma {:induction false} SumIgnoresOthers(existing: seq<Listed>, ids: set<string>, id: string)
    requires forall s :: s in existing ==> s.id != id
    ensures SumOf(existing, ids + {id}) == SumOf(existing, ids)
  {
    if existing != [] {
      var n := |existing| - 1;
      assert existing[n] in existing && forall s :: s in existing[..n] ==> s in existing;
      SumIgnoresOthers(existing[..n], ids, id);
    }
  }

  lemma SumsAsBefore(before: set<string>, after: set<string>, existing: seq<Listed>, i: nat)
    requires existing != [] && DistinctIDs(existing) && i < |existing|
    requires after == before || after == before + {existing[|existing| - 1].id}
    ensures SumOf(existing[..i], after) == SumOf(existing[..i], before)
  {
    SumIgnoresOthers(existing[..i], before, existing[|existing| - 1].id);
  }

  lemma EarlierOnes(before: Tracked, after: Tracked, existing: seq<Listed>, templates: set<string>, i: nat)
    requires existing != [] && DistinctIDs(existing) && i < |existing| - 1
    requires EnteredInOrder(before, existing[..|existing| - 1], templates)
    requires after == WithListed(before, existing[|existing| - 1], templates)
    ensures EnteredAt(after, existing, templates, i)
  {
    var n := |existing| - 1;
    SumsAsBefore(before.containers.Keys, after.containers.Keys, existing, i);
    assert EnteredAt(before, existing[..n], templates, i);
    assert existing[..n][..i] == existing[..i];
    hide SumOf, Managed, Counts, CanFit;
  }

  lemma NotYetEntered(before: Tracked, existing: seq<Listed>, templates: set<string>)
    requires existing != [] && DistinctIDs(existing) && EnteredInOrder(before, existing[..|existing| - 1], templates)
    ensures existing[|existing| - 1].id !in before.containers
  {
    hide EnteredAt, SumOf;
  }

  lemma LastInSum(existing: seq<Listed>, ids: set<string>)
    requires existing != []
    ensures var s, before := existing[|existing| - 1], SumOf(existing[..|existing| - 1], ids);
            SumOf(existing, ids) == if s.id in ids then Promise(before.cpu + s.cpuLimit, before.bytes + s.memoryLimit) else before
  {
  }

  lemma LastOne(before: Tracked, after: Tracked, existing: seq<Listed>, templates: set<string>)
    requires existing != [] && DistinctIDs(existing) && existing[|existing| - 1].id !in before.containers
    requires SumsStand(before, existing[..|existing| - 1])
    requires after == WithListed(before, existing[|existing| - 1], templates)
    ensures EnteredAt(after, existing, templates, |existing| - 1) && SumsStand(after, existing)
  {
    var n := |existing| - 1;
    CountsIff(existing[n], templates);
    CanFitIff(before.alloc, existing[n].cpuLimit, existing[n].memoryLimit, before.budget);
    SumsAsBefore(before.containers.Keys, after.containers.Keys, existing, n);
    LastInSum(existing, after.containers.Keys);
    hide Managed, Counts, CanFit, SumOf, DistinctIDs;
  }

  lemma OneMore(before: Tracked, after: Tracked, existing: seq<Listed>, templates: set<string>)
    requires existing != [] && DistinctIDs(existing)
    requires EnteredInOrder(before, existing[..|existing| - 1], templates)
    requires after == WithListed(before, existing[|existing| - 1], templates)
    ensures EnteredInOrder(after, existing, templates)
  {
    NotYetEntered(before, existing, templates);
    LastOne(before, after, existing, templates);
    var n := |existing| - 1;
    hide EnteredAt, SumOf, SumsStand, Managed, CanFit;
    forall i | 0 <= i < |existing|
      ensures EnteredAt(after, existing, templates, i)
    {
      if i < n {
        EarlierOnes(before, after, existing, templates, i);
      }
    }
    forall c | c in after.containers
      ensures exists i :: 0 <= i < |existing| && existing[i].id == c
    {
      if c in before.containers {
        var i :| 0 <= i < n && existing[..n][i].id == c;
        assert existing[i].id == c;
      } else {
        assert existing[n].id == c;
      }
    }
  }

  lemma {:induction false} ReconciledInOrder(budget: Limits, existing: seq<Listed>, templates: set<string>)
    requires DistinctIDs(existing)
    ensures var after := CapacityOf(Tracked(budget, Limits(0.0, 0.0), map[]), existing, templates);
            after.budget == budget && EnteredInOrder(after, existing, templates)
  {
    var empty := Tracked(budget, Limits(0.0, 0.0), map[]);
    if existing != [] {
      var n := |existing| - 1;
      ReconciledInOrder(budget, existing[..n], templates);
      OneMore(CapacityOf(empty, existing[..n], templates), CapacityOf(empty, existing, templates), existing, templates);
    }
  }

  // ---------- when everything fits ----------

  // The IDs of all containers that count.
  function Counted(existing: seq<Listed>, templates: set<string>): set<string> {
    set s | s in existing && Counts(s, templates) :: s.id
  }

  lemma {:induction false} SumMonotone(existing: seq<Listed>, fewer: set<string>, more: set<string>)
    requires LimitsNonNegative(existing) && fewer <= more
    ensures SumOf(existing, fewer).cpu <= SumOf(existing, more).cpu && SumOf(existing, fewer).bytes <= SumOf(existing, more).bytes
  {
    if existing != [] {
      var n := |existing| - 1;
      assert existing[n] in existing && forall s :: s in existing[..n] ==> s in existing;
      SumMonotone(existing[..n], fewer, more);
    }
  }

  lemma {:induction false} SumGrows(existing: seq<Listed>, fewer: set<string>, more: set<string>, i: nat)
    requires LimitsNonNegative(existing) && fewer <= more && i < |existing| && existing[i].id in more
    ensures SumOf(existing[..i], fewer).cpu + existing[i].cpuLimit <= SumOf(existing, more).cpu
    ensures SumOf(existing[..i], fewer).bytes + existing[i].memoryLimit <= SumOf(existing, more).bytes
  {
    var n := |existing| - 1;
    assert existing[n] in existing && forall s :: s in existing[..n] ==> s in existing;
    if i < n {
      SumGrows(existing[..n], fewer, more, i);
      assert existing[..n][..i] == existing[..i];
    } else {
      SumMonotone(existing[..n], fewer, more);
    }
  }

  // If all that count fit the budget together, every one of them is entered, and the sums are their
  // total.
  lemma AllThatFitAreEntered(budget: Limits, existing: seq<Listed>, templates: set<string>)
    requires DistinctIDs(existing) && LimitsNonNegative(existing)
    requires budget.cpu <= 0.0 || SumOf(existing, Counted(existing, templates)).cpu <= budget.cpu
    requires budget.mem <= 0.0 || SumOf(existing, Counted(existing, templates)).bytes as real <= budget.mem * 1073741824.0
    ensures var after := CapacityOf(Tracked(budget, Limits(0.0, 0.0), map[]), existing, templates);
            && after.containers.Keys == Counted(existing, templates)
            && after.alloc.cpu == SumOf(existing, Counted(existing, templates)).cpu
            && after.alloc.mem * 1073741824.0 == SumOf(existing, Counted(existing, templates)).bytes as real
  {
    var all := Counted(existing, templates);
    var after := CapacityOf(Tracked(budget, Limits(0.0, 0.0), map[]), existing, templates);
    ReconciledInOrder(budget, existing, templates);
    hide Counts, CapacityOf;
    forall c | c in after.containers
      ensures c in all
    {
      var i :| 0 <= i < |existing| && existing[i].id == c;
      assert EnteredAt(after, existing, templates, i) && existing[i] in existing;
    }
    forall i | 0 <= i < |existing| && Counts(existing[i], templates)
      ensures existing[i].id in after.containers
    {
      assert EnteredAt(after, existing, templates, i) && existing[i] in existing && existing[i].id in all;
      SumGrows(existing, after.containers.Keys, all, i);
    }
    assert all <= after.containers.Keys;
  }

  // ---------- from start-up on ----------

  // What a container was listed with.
  function ListedPromise(existing: seq<Listed>, id: string): Promise {
    if existing == [] then Promise(0.0, 0)
    else
      var s := existing[|existing| - 1];
      if s.id == id then Promise(s.cpuLimit, s.memoryLimit) else ListedPromise(existing[..|existing| - 1], id)
  }

  lemma {:induction false} ListedPromiseIs(existing: seq<Listed>, i: nat)
    requires DistinctIDs(existing) && i < |existing|
    ensures ListedPromise(existing, existing[i].id) == Promise(existing[i].cpuLimit, existing[i].memoryLimit)
  {
    var n := |existing| - 1;
    if i < n {
      ListedPromiseIs(existing[..n], i);
    }
  }

  function StartPromised(existing: seq<Listed>, ids: set<string>): Promised {
    map c | c in ids :: ListedPromise(existing, c)
  }

  lemma StartStands(existing: seq<Listed>, templates: set<string>, cap: Tracked)
    requires DistinctIDs(existing) && EnteredInOrder(cap, existing, templates)
    ensures Stands(StartPromised(existing, cap.containers.Keys), cap)
  {
    hide Counts, FitsOnTop, SumOf, SumsStand;
    forall c | c in cap.containers
      ensures var p := ListedPromise(existing, c);
              cap.containers[c].cpu == p.cpu && cap.containers[c].mem * 1073741824.0 == p.bytes as real
    {
      var i :| 0 <= i < |existing| && existing[i].id == c;
      ListedPromiseIs(existing, i);
      assert EnteredAt(cap, existing, templates, i);
    }
  }

  // From start-up on, through any run: what the listed containers that were entered hold, and what
  // Docker is asked to give to new ones, stays within the budget together, until they are destroyed.
  lemma PromisesFromStartUp(setup: Setup, physical: iset<string>, budget: Limits, fallback: Pool, ips: IpState,
                            existing: seq<Listed>, l: Ledger, run: seq<Step>, end: World)
    requires Started(setup, budget, fallback, ips, existing, l) && ips.Valid()
    requires DistinctIDs(existing) && LimitsNonNegative(existing) && forall s :: s in existing ==> s.id in physical
    requires var w := World(State(l, map[]), IDs(existing)); Reaches(setup, w, run, end) && PossibleRun(setup, physical, w, run)
    requires forall step :: step in run ==> Sensible(setup, step)
    ensures var w := World(State(l, map[]), IDs(existing));
            var after := AfterRun(setup, w, StartPromised(existing, l.cap.containers.Keys), run);
            Stands(after, end.cell.ledger.cap) && WithinBudget(after, budget)
  {
    hide Reaches, PossibleRun, Sensible, Stands, WithinBudget, EnteredInOrder;
    var templates := setup.templates.Keys;
    CapacityReconciledSound(Tracked(budget, Limits(0.0, 0.0), map[]), existing, templates);
    ReconciledInOrder(budget, existing, templates);
    StartStands(existing, templates, l.cap);
    PromisesStayWithinBudget(setup, physical, World(State(l, map[]), IDs(existing)),
                             StartPromised(existing, l.cap.containers.Keys), run, end);
  }
}
