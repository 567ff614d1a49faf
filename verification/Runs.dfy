// Safety of the three ledgers over runs of creates, retirements and recreates.
module Runs {
  import opened Text
  import opened Ownership
  import opened Capacity
  import opened Ports
  import opened PortSafety
  import opened PortGrants
  import opened Ips
  import opened Docker
  import opened Creation
  import opened Rollback
  import opened Recreate
  import opened RecreateRuns

  // The ledgers and receipts of a cell, and the container IDs that Docker has given out.
  datatype World = World(cell: State, issued: set<string>)

  datatype Step =
    | CreateStep(req: ServerRequest, key: string, effect: string, o: Outcomes, freed: Option<string>)
    | RetireStep(id: string, keep: bool, newID: string, destroy: Option<DockerError>, freed: Option<string>)
    | RecreateStep(attempt: Attempt)

  // The limits that apply do not come out negative.
  predicate FinalLimitsNonNegative(default: Blueprint, req: ServerRequest) {
    FinalCPU(default.cpuLimit, Override(req)) >= 0.0 && FinalMemory(default.memoryLimit, Override(req)) >= 0
  }

  predicate SensibleLimits(setup: Setup, req: ServerRequest) {
    HasTemplate(setup, req) ==> FinalLimitsNonNegative(setup.templates[req.templateName].container, req)
  }

  predicate Sensible(setup: Setup, step: Step) {
    match step
    case CreateStep(req, _, _, _, _) => SensibleLimits(setup, req)
    case RetireStep(_, _, _, _, _) => true
    case RecreateStep(a) => SensibleLimits(setup, a.req.replacement)
  }

  // ---------- steps ----------

  // The ID of the container a create makes.
  function Given(r: CreateResult): set<string> {
    if r.reply.Created? then {r.reply.server.id} else {}
  }

  ghost function GivenBy(setup: Setup, w: World, step: Step): set<string>
    requires Ready(w.cell)
  {
    match step
    case CreateStep(req, key, effect, o, freed) => Given(CreateSpec(setup, w.cell.ledger, req, key, effect, o, freed))
    case RetireStep(_, _, _, _, _) => {}
    case RecreateStep(a) => if Settles(w.cell, a.oldID, a.req) then {} else Given(Replacing(setup, w.cell, a.req, a.o))
  }

  ghost function CellAfter(setup: Setup, s: State, step: Step): State
    requires Ready(s)
  {
    match step
    case CreateStep(req, key, effect, o, freed) => s.(ledger := CreateSpec(setup, s.ledger, req, key, effect, o, freed).ledger)
    case RetireStep(id, keep, newID, destroy, freed) =>
      if DestroyFails(destroy) then s else s.(ledger := Retired(s.ledger, id, keep, newID, freed))
    case RecreateStep(a) => Do(setup, s, a).state
  }

  ghost function Stepped(setup: Setup, w: World, step: Step): World
    requires Ready(w.cell)
  {
    World(CellAfter(setup, w.cell, step), w.issued + GivenBy(setup, w, step))
  }

  lemma StepStaysReady(setup: Setup, w: World, step: Step)
    requires Ready(w.cell)
    ensures Ready(Stepped(setup, w, step).cell)
  {
    hide CreateSpec, Do;
    match step
    case CreateStep(req, key, effect, o, freed) =>
      CreateKeepsRange(setup, w.cell.ledger, req, key, effect, o, freed);
    case RetireStep(_, _, _, _, _) =>
    case RecreateStep(a) =>
      StaysReady(setup, w.cell, a);
  }

  // end is what these steps make of w.
  ghost predicate Reaches(setup: Setup, w: World, run: seq<Step>, end: World)
    decreases |run|
  {
    if run == [] then end == w else Ready(w.cell) && Reaches(setup, Stepped(setup, w, run[0]), run[1..], end)
  }

  // ---------- what is assumed of the outside ----------

  // Docker gives a new container an ID that it has not given before; all its IDs are physical.
  ghost predicate FreshAnswer(physical: iset<string>, w: World, o: Outcomes) {
    o.create.Ok? ==> o.create.value.id in physical && o.create.value.id !in w.issued
  }

  // The logical ID of a request is never a container ID.
  ghost predicate LogicalID(physical: iset<string>, req: ServerRequest, o: Outcomes) {
    EffectiveID(req, o) !in physical
  }

  ghost predicate PossibleCreate(physical: iset<string>, w: World, req: ServerRequest, o: Outcomes) {
    FreshAnswer(physical, w, o) && LogicalID(physical, req, o)
  }

  // Any step may be taken, as long as Docker answers like that; an address that the IP pool gives
  // back is one of the retired container's.
  ghost predicate Possible(setup: Setup, physical: iset<string>, w: World, step: Step)
    requires Ready(w.cell)
  {
    var l := w.cell.ledger;
    match step
    case CreateStep(req, key, effect, o, freed) =>
      && PossibleCreate(physical, w, req, o)
      && (Recovers(setup, req, key, effect, o) && !DestroyFails(o.destroy) ==>
            Frees(l.ips, Resolve(req.serverID, o.before).server.id, freed))
    case RetireStep(id, keep, _, destroy, freed) => !keep && !DestroyFails(destroy) ==> Frees(l.ips, id, freed)
    case RecreateStep(a) =>
      && PossibleCreate(physical, w, a.req.replacement, a.o.create)
      && var made := Replacing(setup, w.cell, a.req, a.o);
         (!Settles(w.cell, a.oldID, a.req) && !made.reply.Failed? && !DestroyFails(a.o.destroy) ==>
            Frees(made.ledger.ips, a.oldID, a.freed))
  }

  ghost predicate PossibleRun(setup: Setup, physical: iset<string>, w: World, run: seq<Step>)
    decreases |run|
  {
    run != [] ==>
      && Ready(w.cell) && Possible(setup, physical, w, run[0])
      && PossibleRun(setup, physical, Stepped(setup, w, run[0]), run[1..])
  }

  // All container IDs are physical.
  ghost predicate Grounded(physical: iset<string>, w: World) {
    Ready(w.cell) && forall c :: c in w.issued ==> c in physical
  }

  lemma ConnectedAnswer(setup: Setup, l: Ledger, preStart: string, b: Blueprint, req: ServerRequest, id: string,
                        o: Outcomes, calls: seq<Call>)
    requires l.ips.Valid()
    ensures var r := Connected(setup, l, preStart, b, req, id, o, calls);
            r.reply.Created? ==> o.create.Ok? && r.reply.server.id == o.create.value.id
  {
    hide AllocatedNetwork;
  }

  lemma CreateAnswer(setup: Setup, l: Ledger, req: ServerRequest, key: string, effect: string, o: Outcomes, freed: Option<string>)
    requires l.ips.Valid()
    ensures var r := CreateSpec(setup, l, req, key, effect, o, freed);
            r.reply.Created? ==> o.create.Ok? && r.reply.server.id == o.create.value.id
  {
    hide Connected, Admitted;
    AdmissionMakesNothing(setup, l, req, key, effect, o, freed);
    AdmittedKeepsRange(setup, l, req, key, effect, o, freed);
    var admission := Admitted(setup, l, req, key, effect, o, freed);
    if admission.Proceed? && HasTemplate(setup, req) {
      ConnectedAnswer(setup, admission.ledger, setup.templates[req.templateName].preStart, Prepared(setup, req), req,
                      EffectiveID(req, o), o, admission.calls);
    }
  }

  // A container ID that a step gives is new.
  lemma StepGrounded(setup: Setup, physical: iset<string>, w: World, step: Step)
    requires Grounded(physical, w) && Possible(setup, physical, w, step)
    ensures Grounded(physical, Stepped(setup, w, step)) && GivenBy(setup, w, step) !! w.issued
  {
    StepStaysReady(setup, w, step);
    hide CreateSpec, CellAfter, Settles;
    match step
    case CreateStep(req, key, effect, o, freed) =>
      CreateAnswer(setup, w.cell.ledger, req, key, effect, o, freed);
    case RetireStep(_, _, _, _, _) =>
    case RecreateStep(a) =>
      CreateAnswer(setup, w.cell.ledger, a.req.replacement, "", "", a.o.create, None);
  }

  lemma {:induction false} RunsStayGrounded(setup: Setup, physical: iset<string>, w: World, run: seq<Step>, end: World)
    requires Grounded(physical, w) && Reaches(setup, w, run, end) && PossibleRun(setup, physical, w, run)
    ensures Grounded(physical, end) && w.issued <= end.issued
    decreases |run|
  {
    hide Possible, GivenBy, CellAfter;
    if run != [] {
      StepGrounded(setup, physical, w, run[0]);
      RunsStayGrounded(setup, physical, Stepped(setup, w, run[0]), run[1..], end);
    }
  }

  // ---------- capacity ----------

  // The sums are right and within budget, and every entry is of a container.
  ghost predicate SafeCapacity(issued: set<string>, cap: Tracked) {
    Sound(cap) && forall c :: c in cap.containers ==> c in issued
  }

  lemma HookedCapacity(setup: Setup, l: Ledger, preStart: string, draft: CreateRequest, req: ServerRequest, id: string,
                       o: Outcomes, calls: seq<Call>, port: int) returns (limits: Limits)
    requires id !in l.cap.containers
    requires FinalCPU(draft.cpuLimit, Override(req)) >= 0.0 && FinalMemory(draft.memoryLimit, Override(req)) >= 0
    ensures NonNegative(limits)
    ensures var r := Hooked(setup, l, preStart, draft, req, id, o, calls, port);
            if r.reply.Created?
            then o.create.Ok? && r.reply.server.id == o.create.value.id &&
                 CanFit(l.cap.alloc, limits, l.cap.budget) && r.ledger.cap == Allocated(l.cap, r.reply.server.id, limits)
            else r.ledger.cap == l.cap
  {
    var hookEnv := if preStart == "" || o.hook == None then map[] else o.hook.value;
    limits := RequestLimits(Equipped(draft, hookEnv, req));
    if Hooked(setup, l, preStart, draft, req, id, o, calls, port).reply.Created? {
      CommitMovesAllocation(l.cap, id, o.create.value.id, limits);
    } else {
      HookedNotCreated(setup, l, preStart, draft, req, id, o, calls, port);
    }
  }

  lemma ConnectedCapacity(setup: Setup, issued: set<string>, l: Ledger, preStart: string, b: Blueprint,
                          req: ServerRequest, id: string, o: Outcomes, calls: seq<Call>)
    requires l.ips.Valid() && SafeCapacity(issued, l.cap) && FinalLimitsNonNegative(b, req)
    requires id !in issued && (o.create.Ok? ==> o.create.value.id !in issued)
    ensures var r := Connected(setup, l, preStart, b, req, id, o, calls);
            SafeCapacity(issued + Given(r), r.ledger.cap)
  {
    hide Hooked, HostNetwork;
    var net := AllocatedNetwork(l.ports, l.ips, id, b.network, b.ports, b.environment);
    if net.Network? {
      var l1 := l.(ports := net.ps, ips := net.ips);
      var draft := CreateRequest(id, b.network, net.ip, net.env, net.ports, b.cpuLimit, b.memoryLimit, b.memorySwap);
      var limits := HookedCapacity(setup, l1, preStart, draft, req, id, o, calls, net.port);
      if Hooked(setup, l1, preStart, draft, req, id, o, calls, net.port).reply.Created? {
        AllocateSound(l.cap, o.create.value.id, limits);
      }
    }
  }

  lemma AdmittedCapacity(setup: Setup, issued: set<string>, l: Ledger, req: ServerRequest, key: string, effect: string,
                         o: Outcomes, freed: Option<string>)
    requires SafeCapacity(issued, l.cap)
    ensures SafeCapacity(issued, BaseLedger(setup, l, req, key, effect, o, freed).cap)
  {
    hide Sound, FailedStatus;
    if Recovers(setup, req, key, effect, o) {
      ReleaseSound(l.cap, Resolve(req.serverID, o.before).server.id);
    }
  }

  lemma CreateKeepsCapacity(setup: Setup, issued: set<string>, l: Ledger, req: ServerRequest, key: string, effect: string,
                            o: Outcomes, freed: Option<string>)
    requires l.ips.Valid() && SafeCapacity(issued, l.cap) && SensibleLimits(setup, req)
    requires EffectiveID(req, o) !in issued && (o.create.Ok? ==> o.create.value.id !in issued)
    ensures var r := CreateSpec(setup, l, req, key, effect, o, freed);
            SafeCapacity(issued + Given(r), r.ledger.cap)
  {
    hide Connected, Admitted, Sound;
    AdmittedCapacity(setup, issued, l, req, key, effect, o, freed);
    AdmittedKeepsRange(setup, l, req, key, effect, o, freed);
    AdmissionMakesNothing(setup, l, req, key, effect, o, freed);
    var base, id := BaseLedger(setup, l, req, key, effect, o, freed), EffectiveID(req, o);
    var admission := Admitted(setup, l, req, key, effect, o, freed);
    if admission.Proceed? && HasTemplate(setup, req) {
      ConnectedCapacity(setup, issued, base, setup.templates[req.templateName].preStart, Prepared(setup, req), req, id, o,
                        admission.calls);
    }
  }

  lemma StepKeepsCapacity(setup: Setup, physical: iset<string>, w: World, step: Step)
    requires Grounded(physical, w) && Possible(setup, physical, w, step) && Sensible(setup, step)
    requires SafeCapacity(w.issued, w.cell.ledger.cap)
    ensures SafeCapacity(Stepped(setup, w, step).issued, Stepped(setup, w, step).cell.ledger.cap)
  {
    hide CreateSpec, Sound, SensibleLimits, Settles;
    match step
    case CreateStep(req, key, effect, o, freed) =>
      CreateKeepsCapacity(setup, w.issued, w.cell.ledger, req, key, effect, o, freed);
    case RetireStep(id, _, _, _, _) =>
      ReleaseSound(w.cell.ledger.cap, id);
    case RecreateStep(a) =>
      if !Settles(w.cell, a.oldID, a.req) {
        CreateKeepsCapacity(setup, w.issued, w.cell.ledger, a.req.replacement, "", "", a.o.create, None);
        ReleaseSound(Replacing(setup, w.cell, a.req, a.o).ledger.cap, a.oldID);
      }
  }

  // Over every run, whatever the ports: the running sums are the sums of the entries and keep to the
  // budgets, and no entry stands under a logical ID.
  lemma {:induction false} RunsKeepCapacity(setup: Setup, physical: iset<string>, w: World, run: seq<Step>, end: World)
    requires Grounded(physical, w) && Reaches(setup, w, run, end) && PossibleRun(setup, physical, w, run)
    requires SafeCapacity(w.issued, w.cell.ledger.cap) && forall step :: step in run ==> Sensible(setup, step)
    ensures Sound(end.cell.ledger.cap)
    ensures forall id :: id in end.cell.ledger.cap.containers ==> id in end.issued && id in physical
    decreases |run|
  {
    hide Possible, GivenBy, CellAfter, Sensible;
    if run != [] {
      assert run[0] in run && forall step :: step in run[1..] ==> step in run;
      StepGrounded(setup, physical, w, run[0]);
      StepKeepsCapacity(setup, physical, w, run[0]);
      RunsKeepCapacity(setup, physical, Stepped(setup, w, run[0]), run[1..], end);
    }
  }

  // ---------- the pools ----------

  // Every range string a template asks ports of.
  ghost predicate TemplatesPooled(setup: Setup, ps: PoolSet) {
    forall n, p :: n in setup.templates && p in setup.templates[n].container.ports ==> Pooled(ps, p.range)
  }

  // The pools are the same, and as safe as they were.
  ghost predicate KeepsPools(before: PoolSet, after: PoolSet) {
    after.pools.Keys == before.pools.Keys && (Safe(before) ==> Safe(after))
  }

  lemma PooledByNames(setup: Setup, before: PoolSet, after: PoolSet)
    requires TemplatesPooled(setup, before) && after.pools.Keys == before.pools.Keys
    ensures TemplatesPooled(setup, after)
  {
  }

  lemma {:induction false} KeptAreGiven(ports: seq<PortSpec>, active: set<string>)
    ensures forall p :: p in KeptPorts(ports, active) ==> p in ports
  {
    if ports != [] {
      KeptAreGiven(ports[..|ports| - 1], active);
    }
  }

  lemma HostNetworkKeepsPools(ps: PoolSet, ips: IpState, id: string, ports: seq<PortSpec>, env: map<string, string>)
    requires forall p :: p in ports ==> Pooled(ps, p.range)
    ensures KeepsPools(ps, HostNetwork(ps, ips, id, ports, env).ps)
  {
    var ranges := Ranges(ports);
    assert forall r :: r in ranges ==> Pooled(ps, r);
    AllocateAddsNoPool(ps, "", id);
    AllocateEachAddsNoPool(ps, ranges, id);
    ReleaseOwnership(AllocateEach(ps, ranges, id).ps, id);
    if Safe(ps) {
      var (after, port) := SetAllocated(ps, "", id);
      AllocateHandsOutUnowned(ps, "", id, after, port);
      AllocateEachDistinct(ps, ranges, id);
    }
    hide Safe, Owns, NetworkEnv;
  }

  // ---------- whose ports a step may move ----------

  // Nobody but these has lost or gained a port.
  ghost predicate OthersKeepPorts(before: PoolSet, after: PoolSet, exempt: set<string>) {
    forall p, c :: c !in exempt ==> (Owns(after, p, c) <==> Owns(before, p, c))
  }

  lemma HookedPorts(setup: Setup, l: Ledger, preStart: string, draft: CreateRequest, req: ServerRequest, id: string,
                    o: Outcomes, calls: seq<Call>, port: int)
    ensures var r := Hooked(setup, l, preStart, draft, req, id, o, calls, port);
            && OthersKeepPorts(l.ports, r.ledger.ports, {id} + Given(r)) && KeepsPools(l.ports, r.ledger.ports)
  {
    HookedMoves(setup, l, preStart, draft, req, id, o, calls, port);
    ReleaseOwnership(l.ports, id);
    if o.create.Ok? {
      ReKeyOwnership(l.ports, id, o.create.value.id);
    }
    hide Hooked, Owns, Safe;
  }

  lemma ConnectedPorts(setup: Setup, l: Ledger, preStart: string, b: Blueprint, req: ServerRequest, id: string,
                       o: Outcomes, calls: seq<Call>)
    requires l.ips.Valid()
    ensures var r := Connected(setup, l, preStart, b, req, id, o, calls);
            && OthersKeepPorts(l.ports, r.ledger.ports, {id} + Given(r))
            && ((forall p :: p in b.ports ==> Pooled(l.ports, p.range)) ==> KeepsPools(l.ports, r.ledger.ports))
  {
    hide Hooked, HostNetwork, Safe, Owns, HostGrant;
    var net := AllocatedNetwork(l.ports, l.ips, id, b.network, b.ports, b.environment);
    HostNetworkOwnership(l.ports, l.ips, id, b.ports, b.environment);
    if forall p :: p in b.ports ==> Pooled(l.ports, p.range) {
      HostNetworkKeepsPools(l.ports, l.ips, id, b.ports, b.environment);
    }
    if net.Network? {
      var l1 := l.(ports := net.ps, ips := net.ips);
      var draft := CreateRequest(id, b.network, net.ip, net.env, net.ports, b.cpuLimit, b.memoryLimit, b.memorySwap);
      HookedPorts(setup, l1, preStart, draft, req, id, o, calls, net.port);
    }
  }

  // Who a retirement hands ports and addresses to.
  function Heir(keep: bool, newID: string): set<string> {
    if keep && newID != "" then {newID} else {}
  }

  lemma RetiredPorts(l: Ledger, id: string, keep: bool, newID: string, freed: Option<string>)
    ensures var after := Retired(l, id, keep, newID, freed).ports;
            OthersKeepPorts(l.ports, after, {id} + Heir(keep, newID)) && KeepsPools(l.ports, after)
  {
    ReleaseOwnership(l.ports, id);
    ReKeyOwnership(l.ports, id, newID);
    hide Owns, Safe;
  }

  // The containers that a create may take ports from: the failed runtime it replaces.
  function Replaced(setup: Setup, req: ServerRequest, key: string, effect: string, o: Outcomes): set<string> {
    if Recovers(setup, req, key, effect, o) then {Resolve(req.serverID, o.before).server.id} else {}
  }

  lemma AdmittedPorts(setup: Setup, l: Ledger, req: ServerRequest, key: string, effect: string, o: Outcomes, freed: Option<string>)
    ensures var after := BaseLedger(setup, l, req, key, effect, o, freed).ports;
            OthersKeepPorts(l.ports, after, Replaced(setup, req, key, effect, o)) && KeepsPools(l.ports, after)
  {
    hide Retired, FailedStatus, Owns, Safe;
    if Recovers(setup, req, key, effect, o) {
      RetiredPorts(l, Resolve(req.serverID, o.before).server.id, false, req.serverID, freed);
    }
  }

  lemma KeptRanges(ports: seq<PortSpec>, engines: seq<EngineOption>, env: map<string, string>)
    ensures forall p :: p in FilteredPorts(ports, engines, env) ==> p in ports
  {
    KeptAreGiven(ports, ActivePlatforms(engines, env));
  }

  lemma PreparedPooled(setup: Setup, ps: PoolSet, req: ServerRequest)
    requires TemplatesPooled(setup, ps) && HasTemplate(setup, req)
    ensures forall p :: p in Prepared(setup, req).ports ==> Pooled(ps, p.range)
  {
    var t := setup.templates[req.templateName];
    KeptRanges(t.container.ports, t.engines, req.env);
  }

  lemma PreparedIsConnected(setup: Setup, l: Ledger, req: ServerRequest, id: string, o: Outcomes, calls: seq<Call>)
    requires l.ips.Valid() && HasTemplate(setup, req)
    ensures Provisioned(setup, l, req, id, o, calls) ==
            Connected(setup, l, setup.templates[req.templateName].preStart, Prepared(setup, req), req, id, o, calls)
  {
  }

  lemma CreatePorts(setup: Setup, l: Ledger, req: ServerRequest, key: string, effect: string, o: Outcomes, freed: Option<string>)
    requires l.ips.Valid()
    ensures var r := CreateSpec(setup, l, req, key, effect, o, freed);
            && OthersKeepPorts(l.ports, r.ledger.ports, Replaced(setup, req, key, effect, o) + {EffectiveID(req, o)} + Given(r))
            && (TemplatesPooled(setup, l.ports) ==> KeepsPools(l.ports, r.ledger.ports))
  {
    hide Connected, Admitted, Owns, Safe, TemplatesPooled, Prepared, Replaced;
    AdmittedPorts(setup, l, req, key, effect, o, freed);
    AdmittedKeepsRange(setup, l, req, key, effect, o, freed);
    var base, id := BaseLedger(setup, l, req, key, effect, o, freed), EffectiveID(req, o);
    var admission := Admitted(setup, l, req, key, effect, o, freed);
    if admission.Proceed? && HasTemplate(setup, req) {
      if TemplatesPooled(setup, l.ports) {
        PooledByNames(setup, l.ports, base.ports);
        PreparedPooled(setup, base.ports, req);
      }
      PreparedIsConnected(setup, base, req, id, o, admission.calls);
      ConnectedPorts(setup, base, setup.templates[req.templateName].preStart, Prepared(setup, req), req, id, o, admission.calls);
    }
  }

  // The containers whose ports and addresses a step may take: the ones it retires, and the one it
  // hands them to.
  function Touched(setup: Setup, step: Step): set<string> {
    match step
    case CreateStep(req, key, effect, o, _) => Replaced(setup, req, key, effect, o) + {EffectiveID(req, o)}
    case RetireStep(id, keep, newID, _, _) => {id} + Heir(keep, newID)
    case RecreateStep(a) => {a.oldID, EffectiveID(a.req.replacement, a.o.create)}
  }

  lemma NeverRecoversWithoutTokens(setup: Setup, req: ServerRequest, o: Outcomes)
    ensures !Recovers(setup, req, "", "", o)
  {
  }

  lemma NothingReplacedWithoutTokens(setup: Setup, req: ServerRequest, o: Outcomes)
    ensures Replaced(setup, req, "", "", o) == {}
  {
  }

  // One step, whatever the ranges: containers it does not concern keep exactly the ports they have.
  // It keeps the set of pools and, if they are disjoint, their safety.
  lemma StepPorts(setup: Setup, w: World, step: Step)
    requires Ready(w.cell)
    ensures var before, after := w.cell.ledger.ports, Stepped(setup, w, step).cell.ledger.ports;
            && OthersKeepPorts(before, after, Touched(setup, step) + GivenBy(setup, w, step))
            && (TemplatesPooled(setup, before) ==> KeepsPools(before, after))
  {
    hide CreateSpec, Retired, Owns, Safe, TemplatesPooled, Settles, Replaced;
    match step
    case CreateStep(req, key, effect, o, freed) =>
      CreatePorts(setup, w.cell.ledger, req, key, effect, o, freed);
    case RetireStep(id, keep, newID, destroy, freed) =>
      RetiredPorts(w.cell.ledger, id, keep, newID, freed);
    case RecreateStep(a) =>
      if !Settles(w.cell, a.oldID, a.req) {
        CreatePorts(setup, w.cell.ledger, a.req.replacement, "", "", a.o.create, None);
        NothingReplacedWithoutTokens(setup, a.req.replacement, a.o.create);
        RetiredPorts(Replacing(setup, w.cell, a.req, a.o).ledger, a.oldID, false, "", a.freed);
      }
  }

  // ---------- ports over runs ----------

  // Over every run, whoever is asked for what: the set of pools is the one it started with and, if
  // their ranges are disjoint, every port has at most one owner.
  lemma {:induction false} RunsKeepPorts(setup: Setup, w: World, run: seq<Step>, end: World)
    requires Ready(w.cell) && TemplatesPooled(setup, w.cell.ledger.ports) && Reaches(setup, w, run, end)
    ensures Ready(end.cell) && end.cell.ledger.ports.pools.Keys == w.cell.ledger.ports.pools.Keys
    ensures Safe(w.cell.ledger.ports) ==> Safe(end.cell.ledger.ports) && OneOwnerPerPort(end.cell.ledger.ports)
    decreases |run|
  {
    hide Stepped, Safe, OneOwnerPerPort, TemplatesPooled;
    if Safe(w.cell.ledger.ports) {
      SafePortsHaveOneOwner(w.cell.ledger.ports);
    }
    if run != [] {
      var next := Stepped(setup, w, run[0]);
      StepStaysReady(setup, w, run[0]);
      StepPorts(setup, w, run[0]);
      PooledByNames(setup, w.cell.ledger.ports, next.cell.ledger.ports);
      RunsKeepPorts(setup, next, run[1..], end);
    }
  }

  ghost predicate Spares(setup: Setup, run: seq<Step>, c: string) {
    forall step :: step in run ==> c !in Touched(setup, step)
  }

  // Whatever the ranges, a container that no step of a run retires has the same ports at the end.
  lemma {:induction false} SparedContainersKeepTheirPorts(setup: Setup, physical: iset<string>, w: World, run: seq<Step>,
                                                          end: World, c: string)
    requires Grounded(physical, w) && Reaches(setup, w, run, end) && PossibleRun(setup, physical, w, run)
    requires c in w.issued && Spares(setup, run, c)
    ensures forall p :: Owns(end.cell.ledger.ports, p, c) <==> Owns(w.cell.ledger.ports, p, c)
    decreases |run|
  {
    hide Possible, GivenBy, CellAfter, Touched, Owns;
    if run != [] {
      assert run[0] in run && forall step :: step in run[1..] ==> step in run;
      var next := Stepped(setup, w, run[0]);
      StepGrounded(setup, physical, w, run[0]);
      StepPorts(setup, w, run[0]);
      SparedContainersKeepTheirPorts(setup, physical, next, run[1..], end, c);
    }
  }

  // With disjoint ranges, a port that changes hands in a step was held by nobody but those the step
  // retires.
  lemma OnlyUnheldPortsAreGiven(setup: Setup, physical: iset<string>, w: World, step: Step, port: int, c: string, d: string)
    requires Grounded(physical, w) && Possible(setup, physical, w, step)
    requires TemplatesPooled(setup, w.cell.ledger.ports) && Safe(w.cell.ledger.ports)
    requires Owns(Stepped(setup, w, step).cell.ledger.ports, port, c) && !Owns(w.cell.ledger.ports, port, c)
    requires Owns(w.cell.ledger.ports, port, d) && d in w.issued
    ensures d in Touched(setup, step)
  {
    StepGrounded(setup, physical, w, step);
    StepPorts(setup, w, step);
    SafePortsHaveOneOwner(Stepped(setup, w, step).cell.ledger.ports);
    hide Stepped, Touched, GivenBy, Safe, Owns, TemplatesPooled;
  }

  // ---------- addresses ----------

  // A create in overlay mode leaves its container with one address exactly when the logical ID had
  // none before: an address kept for the ID is handed over together with the new one.
  lemma OneAddressIff(setup: Setup, l: Ledger, preStart: string, b: Blueprint, req: ServerRequest, id: string,
                      o: Outcomes, calls: seq<Call>)
    requires l.ips.Valid() && b.network != ""
    requires Connected(setup, l, preStart, b, req, id, o, calls).reply.Created?
    requires var c := Connected(setup, l, preStart, b, req, id, o, calls).reply.server.id;
             OwnsNone(l.ips.owners, c)
    ensures var r := Connected(setup, l, preStart, b, req, id, o, calls);
            AtMostOne(r.ledger.ips, r.reply.server.id) <==> OwnsNone(l.ips.owners, id)
  {
    hide Hooked;
    var net := OverlayNetwork(l.ports, l.ips, id, b.ports, b.environment);
    var draft := CreateRequest(id, b.network, net.ip, net.env, net.ports, b.cpuLimit, b.memoryLimit, b.memorySwap);
    HookedMoves(setup, l.(ports := net.ps, ips := net.ips), preStart, draft, req, id, o, calls, net.port);
    AddressGivenBack(l.ips, id);
    AllocatesFirstFree(l.ips, id);
    var after := Connected(setup, l, preStart, b, req, id, o, calls).ledger.ips.owners;
    var c := o.create.value.id;
    assert net.ip in after && after[net.ip] == c && net.ip !in l.ips.owners;
    if a :| a in l.ips.owners && l.ips.owners[a] == id {
      assert after[a] == c && a != net.ip;
    }
  }

  // So after a retirement that kept an address for a logical ID, and a create under that ID, some
  // retirement of the new container leaves one of its two addresses taken.
  lemma KeptAddressLeaks(setup: Setup, l: Ledger, c0: string, preStart: string, b: Blueprint, req: ServerRequest, id: string,
                         o: Outcomes, calls: seq<Call>) returns (freed: Option<string>)
    requires l.ips.Valid() && b.network != "" && id != "" && !OwnsNone(l.ips.owners, c0)
    requires var l1 := Retired(l, c0, true, id, None);
             && Connected(setup, l1, preStart, b, req, id, o, calls).reply.Created?
             && OwnsNone(l1.ips.owners, Connected(setup, l1, preStart, b, req, id, o, calls).reply.server.id)
    ensures var l1 := Retired(l, c0, true, id, None);
            var r := Connected(setup, l1, preStart, b, req, id, o, calls);
            var c := r.reply.server.id;
            Frees(r.ledger.ips, c, freed) && !OwnsNone(Retired(r.ledger, c, false, "", freed).ips.owners, c)
  {
    hide Connected;
    var l1 := Retired(l, c0, true, id, None);
    var a :| a in l.ips.owners && l.ips.owners[a] == c0;
    assert a in l1.ips.owners && l1.ips.owners[a] == id;
    OneAddressIff(setup, l1, preStart, b, req, id, o, calls);
    var r := Connected(setup, l1, preStart, b, req, id, o, calls);
    ReleaseFreesAllIff(r.ledger.ips, r.reply.server.id);
    freed :| Frees(r.ledger.ips, r.reply.server.id, freed) && !OwnsNone(IpReleased(r.ledger.ips, freed).owners, r.reply.server.id);
  }
}
