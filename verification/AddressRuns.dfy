// Addresses over whole runs: as long as no retirement hands addresses on to a logical ID, every
// container has at most one, and a retirement leaves its container with nothing.
module AddressRuns {
  import opened Text
  import opened Ownership
  import opened Capacity
  import opened Ports
  import opened PortGrants
  import opened Ips
  import opened Docker
  import opened Creation
  import opened Rollback
  import opened Recreate
  import opened RecreateRuns
  import opened Runs
  import opened Bootstrap

  // Every address is a container's, and no container has two.
  ghost predicate OneAddressEach(issued: set<string>, ips: IpState) {
    (forall a :: a in ips.owners ==> ips.owners[a] in issued) && forall id :: AtMostOne(ips, id)
  }

  // after has the addresses of before, and possibly one more for c.
  ghost predicate AtMostOneMore(before: IpState, after: IpState, c: string) {
    after.owners == before.owners || exists a :: a !in before.owners && after.owners == before.owners[a := c]
  }

  predicate Holds(ips: IpState, a: string, c: string) {
    a in ips.owners && ips.owners[a] == c
  }

  // Nobody but these has lost or gained an address.
  ghost predicate OthersKeepAddresses(before: IpState, after: IpState, exempt: set<string>) {
    forall a, c :: c !in exempt ==> (Holds(after, a, c) <==> Holds(before, a, c))
  }

  predicate HandsOver(step: Step) {
    step.RetireStep? && step.keep && step.newID != ""
  }

  lemma OneMoreIsOne(issued: set<string>, before: IpState, after: IpState, c: string)
    requires OneAddressEach(issued, before) && AtMostOneMore(before, after, c) && OwnsNone(before.owners, c)
    ensures OneAddressEach(issued + {c}, after)
  {
    forall id
      ensures AtMostOne(after, id)
    {
      assert AtMostOne(before, id);
    }
  }

  lemma FewerIsOne(issued: set<string>, before: IpState, after: IpState)
    requires OneAddressEach(issued, before) && forall a :: a in after.owners ==> a in before.owners && after.owners[a] == before.owners[a]
    ensures OneAddressEach(issued, after)
  {
    forall id
      ensures AtMostOne(after, id)
    {
      assert AtMostOne(before, id);
    }
  }

  // ---------- one create ----------

  ghost predicate AddressMove(before: IpState, after: IpState, id: string, c: string) {
    || after.owners == before.owners
    || exists a :: a !in before.owners && after.owners == ReKeyed(before.owners[a := id], id, c)
  }

  // Without a container the addresses are as they were; with one they are too, or a new one was
  // allocated to the logical ID and all of the ID's addresses were handed on to the container.
  lemma ConnectedAddresses(setup: Setup, l: Ledger, preStart: string, b: Blueprint, req: ServerRequest, id: string,
                           o: Outcomes, calls: seq<Call>)
    requires l.ips.Valid()
    ensures var r := Connected(setup, l, preStart, b, req, id, o, calls);
            if r.reply.Created? then AddressMove(l.ips, r.ledger.ips, id, r.reply.server.id) else r.ledger.ips == l.ips
  {
    hide Hooked, HostNetwork;
    HostNetworkOwnership(l.ports, l.ips, id, b.ports, b.environment);
    var net := AllocatedNetwork(l.ports, l.ips, id, b.network, b.ports, b.environment);
    if net.Network? {
      var draft := CreateRequest(id, b.network, net.ip, net.env, net.ports, b.cpuLimit, b.memoryLimit, b.memorySwap);
      HookedMoves(setup, l.(ports := net.ps, ips := net.ips), preStart, draft, req, id, o, calls, net.port);
      if b.network != "" {
        AddressGivenBack(l.ips, id);
        AllocatesFirstFree(l.ips, id);
      }
    }
  }

  lemma MoveAddsOne(before: IpState, after: IpState, id: string, c: string)
    requires AddressMove(before, after, id, c) && OwnsNone(before.owners, id)
    ensures AtMostOneMore(before, after, c)
  {
    if a :| a !in before.owners && after.owners == ReKeyed(before.owners[a := id], id, c) {
      assert after.owners == before.owners[a := c];
    }
  }

  lemma MoveKeepsOthers(before: IpState, after: IpState, id: string, c: string)
    requires AddressMove(before, after, id, c)
    ensures OthersKeepAddresses(before, after, {id, c})
  {
  }

  // The IDs of a create and what it does to addresses from the template lookup on.
  lemma ProceedingAddresses(setup: Setup, l: Ledger, req: ServerRequest, key: string, effect: string, o: Outcomes,
                            freed: Option<string>)
    requires l.ips.Valid()
    ensures var base := BaseLedger(setup, l, req, key, effect, o, freed).ips;
            var r := CreateSpec(setup, l, req, key, effect, o, freed);
            if r.reply.Created? then AddressMove(base, r.ledger.ips, EffectiveID(req, o), r.reply.server.id)
            else r.ledger.ips == base
  {
    hide Connected, Admitted, AddressMove;
    AdmissionMakesNothing(setup, l, req, key, effect, o, freed);
    AdmittedKeepsRange(setup, l, req, key, effect, o, freed);
    var admission, id := Admitted(setup, l, req, key, effect, o, freed), EffectiveID(req, o);
    if admission.Proceed? && HasTemplate(setup, req) {
      var t, b := setup.templates[req.templateName], Prepared(setup, req);
      ConnectedAddresses(setup, admission.ledger, t.preStart, b, req, id, o, admission.calls);
    }
  }

  lemma NobodyOwns(issued: set<string>, ips: IpState, id: string)
    requires OneAddressEach(issued, ips)
    ensures id !in issued ==> OwnsNone(ips.owners, id)
  {
  }

  lemma AdmittedAddresses(setup: Setup, issued: set<string>, l: Ledger, req: ServerRequest, key: string, effect: string,
                          o: Outcomes, freed: Option<string>)
    requires OneAddressEach(issued, l.ips)
    ensures OneAddressEach(issued, BaseLedger(setup, l, req, key, effect, o, freed).ips)
  {
    FewerIsOne(issued, l.ips, IpReleased(l.ips, freed));
    hide OneAddressEach, FailedStatus, Resolve;
  }

  lemma CreateAddresses(setup: Setup, issued: set<string>, l: Ledger, req: ServerRequest, key: string, effect: string,
                        o: Outcomes, freed: Option<string>)
    requires l.ips.Valid() && OneAddressEach(issued, l.ips)
    requires EffectiveID(req, o) !in issued && (o.create.Ok? ==> o.create.value.id !in issued)
    ensures var r := CreateSpec(setup, l, req, key, effect, o, freed);
            OneAddressEach(issued + Given(r), r.ledger.ips)
  {
    AdmittedAddresses(setup, issued, l, req, key, effect, o, freed);
    ProceedingAddresses(setup, l, req, key, effect, o, freed);
    CreateAnswer(setup, l, req, key, effect, o, freed);
    hide CreateSpec, BaseLedger, OneAddressEach;
    var base, r := BaseLedger(setup, l, req, key, effect, o, freed).ips, CreateSpec(setup, l, req, key, effect, o, freed);
    NobodyOwns(issued, base, EffectiveID(req, o));
    if r.reply.Created? {
      NobodyOwns(issued, base, r.reply.server.id);
      MoveAddsOne(base, r.ledger.ips, EffectiveID(req, o), r.reply.server.id);
      OneMoreIsOne(issued, base, r.ledger.ips, r.reply.server.id);
    } else {
      assert issued + Given(r) == issued;
    }
  }

  // ---------- runs ----------

  lemma StepAddresses(setup: Setup, physical: iset<string>, w: World, step: Step)
    requires Grounded(physical, w) && Possible(setup, physical, w, step) && !HandsOver(step)
    requires OneAddressEach(w.issued, w.cell.ledger.ips)
    ensures OneAddressEach(Stepped(setup, w, step).issued, Stepped(setup, w, step).cell.ledger.ips)
  {
    hide CreateSpec, OneAddressEach, Settles, Frees, Recovers;
    match step
    case CreateStep(req, key, effect, o, freed) =>
      CreateAddresses(setup, w.issued, w.cell.ledger, req, key, effect, o, freed);
    case RetireStep(id, keep, newID, destroy, freed) =>
      FewerIsOne(w.issued, w.cell.ledger.ips, IpReleased(w.cell.ledger.ips, freed));
      assert w.issued + {} == w.issued;
    case RecreateStep(a) =>
      if Settles(w.cell, a.oldID, a.req) {
        assert w.issued + {} == w.issued;
      } else {
        CreateAddresses(setup, w.issued, w.cell.ledger, a.req.replacement, "", "", a.o.create, None);
        var made := Replacing(setup, w.cell, a.req, a.o);
        FewerIsOne(w.issued + Given(made), made.ledger.ips, IpReleased(made.ledger.ips, a.freed));
      }
  }

  // Over every run in which no retirement hands addresses on, every container has at most one.
  lemma {:induction false} RunsKeepOneAddressEach(setup: Setup, physical: iset<string>, w: World, run: seq<Step>, end: World)
    requires Grounded(physical, w) && Reaches(setup, w, run, end) && PossibleRun(setup, physical, w, run)
    requires OneAddressEach(w.issued, w.cell.ledger.ips) && forall step :: step in run ==> !HandsOver(step)
    ensures Grounded(physical, end) && OneAddressEach(end.issued, end.cell.ledger.ips)
    decreases |run|
  {
    hide Possible, Stepped, OneAddressEach;
    if run != [] {
      assert run[0] in run && forall step :: step in run[1..] ==> step in run;
      StepGrounded(setup, physical, w, run[0]);
      StepAddresses(setup, physical, w, run[0]);
      RunsKeepOneAddressEach(setup, physical, Stepped(setup, w, run[0]), run[1..], end);
    }
  }

  lemma NothingReleased(ps: PoolSet, id: string)
    ensures SetOwnsNone(SetReleased(ps, id), id)
  {
  }

  // So in every cell that such a run reaches, retiring a container gives back all it has: capacity,
  // ports and its address.
  lemma RetirementLeavesNothing(setup: Setup, physical: iset<string>, w: World, run: seq<Step>, end: World, id: string,
                                newID: string, freed: Option<string>)
    requires Grounded(physical, w) && Reaches(setup, w, run, end) && PossibleRun(setup, physical, w, run)
    requires OneAddressEach(w.issued, w.cell.ledger.ips) && forall step :: step in run ==> !HandsOver(step)
    requires Frees(end.cell.ledger.ips, id, freed)
    ensures OwnsNothing(Retired(end.cell.ledger, id, false, newID, freed), id)
  {
    hide Reaches, PossibleRun;
    RunsKeepOneAddressEach(setup, physical, w, run, end);
    ReleaseFreesAllIff(end.cell.ledger.ips, id);
    NothingReleased(end.cell.ledger.ports, id);
  }

  // ---------- whose addresses a step may move ----------

  lemma RetiredAddresses(l: Ledger, id: string, keep: bool, newID: string, freed: Option<string>)
    requires !keep ==> Frees(l.ips, id, freed)
    ensures OthersKeepAddresses(l.ips, Retired(l, id, keep, newID, freed).ips, {id} + Heir(keep, newID))
  {
  }

  lemma CreateSparesAddresses(setup: Setup, l: Ledger, req: ServerRequest, key: string, effect: string, o: Outcomes,
                              freed: Option<string>)
    requires l.ips.Valid()
    requires Recovers(setup, req, key, effect, o) && !DestroyFails(o.destroy) ==>
               Frees(l.ips, Resolve(req.serverID, o.before).server.id, freed)
    ensures var r := CreateSpec(setup, l, req, key, effect, o, freed);
            OthersKeepAddresses(l.ips, r.ledger.ips, Replaced(setup, req, key, effect, o) + {EffectiveID(req, o)} + Given(r))
  {
    ProceedingAddresses(setup, l, req, key, effect, o, freed);
    var base, r := BaseLedger(setup, l, req, key, effect, o, freed).ips, CreateSpec(setup, l, req, key, effect, o, freed);
    var replaced := Replaced(setup, req, key, effect, o);
    assert OthersKeepAddresses(l.ips, base, replaced) by {
      hide Retired, CreateSpec, FailedStatus;
      if Recovers(setup, req, key, effect, o) && !DestroyFails(o.destroy) {
        RetiredAddresses(l, Resolve(req.serverID, o.before).server.id, false, req.serverID, freed);
      }
    }
    hide CreateSpec, BaseLedger, AddressMove, Replaced;
    if r.reply.Created? {
      MoveKeepsOthers(base, r.ledger.ips, EffectiveID(req, o), r.reply.server.id);
    }
  }

  // One step: containers it does not concern keep exactly the addresses they have.
  lemma StepSparesAddresses(setup: Setup, physical: iset<string>, w: World, step: Step)
    requires Ready(w.cell) && Possible(setup, physical, w, step)
    ensures OthersKeepAddresses(w.cell.ledger.ips, Stepped(setup, w, step).cell.ledger.ips,
                                Touched(setup, step) + GivenBy(setup, w, step))
  {
    hide CreateSpec, Retired, Settles, Frees, Recovers, Replaced, EffectiveID;
    match step
    case CreateStep(req, key, effect, o, freed) =>
      CreateSparesAddresses(setup, w.cell.ledger, req, key, effect, o, freed);
    case RetireStep(id, keep, newID, destroy, freed) =>
      if !DestroyFails(destroy) {
        RetiredAddresses(w.cell.ledger, id, keep, newID, freed);
      }
    case RecreateStep(a) =>
      if !Settles(w.cell, a.oldID, a.req) {
        var made := Replacing(setup, w.cell, a.req, a.o);
        NeverRecoversWithoutTokens(setup, a.req.replacement, a.o.create);
        NothingReplacedWithoutTokens(setup, a.req.replacement, a.o.create);
        CreateSparesAddresses(setup, w.cell.ledger, a.req.replacement, "", "", a.o.create, None);
        if !made.reply.Failed? && !DestroyFails(a.o.destroy) {
          RetiredAddresses(made.ledger, a.oldID, false, "", a.freed);
        }
      }
  }

  // A container that no step of a run retires has the same addresses at the end.
  lemma {:induction false} SparedContainersKeepTheirAddresses(setup: Setup, physical: iset<string>, w: World, run: seq<Step>,
                                                              end: World, c: string)
    requires Grounded(physical, w) && Reaches(setup, w, run, end) && PossibleRun(setup, physical, w, run)
    requires c in w.issued && Spares(setup, run, c)
    ensures forall a :: Holds(end.cell.ledger.ips, a, c) <==> Holds(w.cell.ledger.ips, a, c)
    decreases |run|
  {
    hide Possible, GivenBy, CellAfter, Touched, Holds;
    if run != [] {
      assert run[0] in run && forall step :: step in run[1..] ==> step in run;
      StepGrounded(setup, physical, w, run[0]);
      StepSparesAddresses(setup, physical, w, run[0]);
      SparedContainersKeepTheirAddresses(setup, physical, Stepped(setup, w, run[0]), run[1..], end, c);
    }
  }

  // ---------- start-up ----------

  // The last listed container that has the address.
  function AddressHolder(existing: seq<Listed>, a: string): Option<string> {
    if existing == [] || a == "" then None
    else
      var last := existing[|existing| - 1];
      if last.ip == a then Some(last.id) else AddressHolder(existing[..|existing| - 1], a)
  }

  lemma {:induction false} HoldersGetAddresses(owners: map<string, string>, existing: seq<Listed>, a: string)
    requires AddressHolder(existing, a).Some?
    ensures var c := AddressHolder(existing, a).value;
            && c in IDs(existing) && a in AddressesOf(owners, existing) && AddressesOf(owners, existing)[a] == c
  {
    if existing[|existing| - 1].ip != a {
      HoldersGetAddresses(owners, existing[..|existing| - 1], a);
    }
  }

  // From start-up on, through any run: an address that a listed container has stays its own, and so
  // nobody else's, for as long as no step retires the container.
  lemma ListedAddressesAreNeverHandedOut(setup: Setup, physical: iset<string>, budget: Limits, fallback: Pool, ips: IpState,
                                         existing: seq<Listed>, l: Ledger, run: seq<Step>, end: World, a: string, c: string)
    requires Started(setup, budget, fallback, ips, existing, l) && ips.Valid()
    requires forall s :: s in existing ==> s.id in physical
    requires var w := World(State(l, map[]), IDs(existing)); Reaches(setup, w, run, end) && PossibleRun(setup, physical, w, run)
    requires AddressHolder(existing, a) == Some(c) && Spares(setup, run, c)
    ensures forall d :: Holds(end.cell.ledger.ips, a, d) <==> d == c
  {
    var w := World(State(l, map[]), IDs(existing));
    HoldersGetAddresses(ips.owners, existing, a);
    hide Reaches, PossibleRun, Spares, AddressHolder, AddressesOf;
    SparedContainersKeepTheirAddresses(setup, physical, w, run, end, c);
    assert Holds(end.cell.ledger.ips, a, c);
  }

  // Start-up gives every listed container at most the one address it is listed with.
  lemma {:induction false} ReconciledAddresses(ips: IpState, existing: seq<Listed>)
    requires ips.owners == map[] && DistinctIDs(existing)
    ensures OneAddressEach(IDs(existing), ips.(owners := AddressesOf(ips.owners, existing)))
  {
    if existing != [] {
      var n := |existing| - 1;
      ReconciledAddresses(ips, existing[..n]);
      var before := ips.(owners := AddressesOf(ips.owners, existing[..n]));
      var after, last := ips.(owners := AddressesOf(ips.owners, existing)), existing[n];
      assert IDs(existing) == IDs(existing[..n]) + {last.id};
      assert last.id !in IDs(existing[..n]);
      NobodyOwns(IDs(existing[..n]), before, last.id);
      forall id
        ensures AtMostOne(after, id)
      {
        assert AtMostOne(before, id);
      }
    }
  }
}
