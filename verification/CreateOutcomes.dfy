// Which way out a create takes: exactly when it makes a container, and what every other ending
// tells the caller.
module CreateOutcomes {
  import opened Text
  import opened Tokens
  import opened Capacity
  import opened Ports
  import opened PortGrants
  import opened PortRoom
  import opened Ips
  import opened Docker
  import opened Creation
  import opened Rollback

  // The limits that the capacity check sees.
  function FinalLimits(b: Blueprint, req: ServerRequest): Limits {
    Limits(FinalCPU(b.cpuLimit, Override(req)), GiB(FinalMemory(b.memoryLimit, Override(req))))
  }

  predicate HookSucceeds(preStart: string, o: Outcomes) {
    preStart == "" || o.hook.Some?
  }

  // Another request has won the race for the name, and its container can be found.
  predicate LosesRace(id: string, o: Outcomes) {
    o.create.Err? && o.create.error.nameConflict && Resolve(id, o.after).Present?
  }

  // The network has room for the container: a free address between start and end, or enough free
  // ports for every range string; a container without ports takes one of the fallback pool.
  ghost predicate NetworkHasRoom(l: Ledger, b: Blueprint)
    requires l.ips.Valid()
  {
    if b.network != "" then exists k: nat :: k <= Span(l.ips) && Candidate(l.ips, k) !in l.ips.owners
    else if b.ports == [] then Room(l.ports.fallback) > 0
    else AllFit(l.ports, Ranges(b.ports))
  }

  // That is what it takes for the allocation to succeed.
  lemma NetworkAllocatedIff(l: Ledger, b: Blueprint, id: string)
    requires l.ips.Valid()
    ensures AllocatedNetwork(l.ports, l.ips, id, b.network, b.ports, b.environment).Network? <==> NetworkHasRoom(l, b)
  {
    hide NetworkEnv, AllocateEach, AllFit, FreeCount, FreeFrom, Candidate, Span;
    if b.network != "" {
      AllocatesFirstFree(l.ips, id);
    } else if b.ports == [] {
      AllocationTakesRoom(l.ports, "", id);
    } else {
      GrantedIff(l.ports, Ranges(b.ports), id);
    }
  }

  lemma HookedOutcome(setup: Setup, l: Ledger, preStart: string, draft: CreateRequest, b: Blueprint, req: ServerRequest,
                      id: string, o: Outcomes, calls: seq<Call>, port: int)
    requires draft.cpuLimit == b.cpuLimit && draft.memoryLimit == b.memoryLimit
    ensures var reply := Hooked(setup, l, preStart, draft, req, id, o, calls, port).reply;
            var fits := CanFit(l.cap.alloc, FinalLimits(b, req), l.cap.budget);
            && (reply.Created? <==> HookSucceeds(preStart, o) && fits && o.create.Ok?)
            && (reply.Adopted? <==> HookSucceeds(preStart, o) && fits && LosesRace(id, o))
            && (reply == Failed(503) <==> HookSucceeds(preStart, o) && !fits)
            && (reply.Failed? ==> reply.status in {500, 503})
  {
    hide Project, AdvertisedPorts, RolledBack, Settled, Resolve;
  }

  // From the template on: which ending, exactly.
  lemma ConnectedOutcome(setup: Setup, l: Ledger, preStart: string, b: Blueprint, req: ServerRequest, id: string,
                         o: Outcomes, calls: seq<Call>)
    requires l.ips.Valid()
    ensures var reply := Connected(setup, l, preStart, b, req, id, o, calls).reply;
            var ready := NetworkHasRoom(l, b) && HookSucceeds(preStart, o);
            var fits := CanFit(l.cap.alloc, FinalLimits(b, req), l.cap.budget);
            && (reply.Created? <==> ready && fits && o.create.Ok?)
            && (reply.Adopted? <==> ready && fits && LosesRace(id, o))
            && (reply == Failed(503) <==> !NetworkHasRoom(l, b) || (ready && !fits))
            && (reply.Failed? ==> reply.status in {500, 503})
  {
    hide Hooked, AllocatedNetwork, CanFit, FinalLimits, NetworkHasRoom;
    NetworkAllocatedIff(l, b, id);
    var net := AllocatedNetwork(l.ports, l.ips, id, b.network, b.ports, b.environment);
    if net.Network? {
      var draft := CreateRequest(id, b.network, net.ip, net.env, net.ports, b.cpuLimit, b.memoryLimit, b.memorySwap);
      HookedOutcome(setup, l.(ports := net.ps, ips := net.ips), preStart, draft, b, req, id, o, calls, net.port);
    }
  }

  lemma AdmittedOutcome(setup: Setup, l: Ledger, req: ServerRequest, key: string, effect: string, o: Outcomes,
                        freed: Option<string>)
    requires l.ips.Valid()
    ensures match Admitted(setup, l, req, key, effect, o, freed)
            case Done(reply, _) => !reply.Created? && reply != Failed(404)
            case Proceed(base, _) => base.ips.Valid()
  {
    hide FailedStatus, ValidToken, Project;
  }

  // A create makes a container exactly when the lookup lets it proceed, the template exists, the
  // network has room, the hook succeeds, the final limits fit the budget, in cores and bytes, and
  // Docker agrees. A missing template is a 404; no room is a 503.
  lemma CreatedIff(setup: Setup, l: Ledger, req: ServerRequest, key: string, effect: string, o: Outcomes, freed: Option<string>)
    requires l.ips.Valid()
    ensures var base := BaseLedger(setup, l, req, key, effect, o, freed);
            var reply := CreateSpec(setup, l, req, key, effect, o, freed).reply;
            && base.ips.Valid()
            && (reply.Created? <==>
                  && Admitted(setup, l, req, key, effect, o, freed).Proceed? && HasTemplate(setup, req) && o.create.Ok?
                  && NetworkHasRoom(base, Prepared(setup, req))
                  && (setup.templates[req.templateName].preStart == "" || o.hook.Some?)
                  && (var t, b := base.cap, Prepared(setup, req);
                      var cpu, bytes := FinalCPU(b.cpuLimit, Override(req)), FinalMemory(b.memoryLimit, Override(req));
                      && (t.budget.cpu <= 0.0 || t.alloc.cpu + cpu <= t.budget.cpu)
                      && (t.budget.mem <= 0.0 || t.alloc.mem * 1073741824.0 + bytes as real <= t.budget.mem * 1073741824.0)))
            && (reply == Failed(404) <==>
                  Admitted(setup, l, req, key, effect, o, freed).Proceed? && !HasTemplate(setup, req))
  {
    AdmittedOutcome(setup, l, req, key, effect, o, freed);
    hide Connected, Admitted, NetworkHasRoom, CanFit, FinalCPU, FinalMemory;
    match Admitted(setup, l, req, key, effect, o, freed)
    case Done(_, _) =>
    case Proceed(base, calls) =>
      if HasTemplate(setup, req) {
        var b := Prepared(setup, req);
        CanFitIff(base.cap.alloc, FinalCPU(b.cpuLimit, Override(req)), FinalMemory(b.memoryLimit, Override(req)), base.cap.budget);
        ConnectedOutcome(setup, base, setup.templates[req.templateName].preStart, b, req, EffectiveID(req, o), o, calls);
      }
  }

  // ---------- a create that succeeds ----------

  // An empty cell without budget and with one free port, and a template that asks for nothing but
  // that port: the statements about successful creates speak of something.
  lemma ACreateCanSucceed() returns (setup: Setup, l: Ledger, req: ServerRequest, o: Outcomes)
    ensures l.ips.Valid() && OwnsNothing(l, EffectiveID(req, o)) && o.create.Ok? && OwnsNothing(l, o.create.value.id)
    ensures CreateSpec(setup, l, req, "", "", o, None).reply.Created?
    ensures BaseLedger(setup, l, req, "", "", o, None) == l
  {
    var nothing := Limits(0.0, 0.0);
    var plain := Blueprint("", map[], [], 0.0, 0, 0);
    var absent := Lookup(Err(DockerError(true, false)), Err(DockerError(true, false)));
    setup := Setup(map["t" := TemplateView(plain, map[], "", [])], "", "", false);
    l := Ledger(Tracked(nothing, nothing, map[]), PoolSet(Pool(1, 1, map[]), map[]), IpState([0, 0, 0, 1], [0, 0, 0, 1], map[]));
    req := ServerRequest("t", "s", map[], None);
    o := Outcomes(0, absent, None, None, Ok(Server("c", "s", "running", "", map[], 0.0, 0)), absent);
    assert Admitted(setup, l, req, "", "", o, None).Proceed?;
    assert Prepared(setup, req).ports == [] && Prepared(setup, req).network == "";
    assert FreeCount(1, 1, map[]) == 1;
    hide CreateSpec, FinalLimits, Prepared, Admitted;
    CreatedIff(setup, l, req, "", "", o, None);
  }
}
