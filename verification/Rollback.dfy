// What a create that does not end in a new container leaves behind, and what a retirement undoes.
module Rollback {
  import opened Text
  import opened Ownership
  import opened Capacity
  import opened Ports
  import opened PortSafety
  import opened PortGrants
  import opened Ips
  import opened Docker
  import opened Creation

  ghost predicate OwnsNothing(l: Ledger, id: string) {
    id !in l.cap.containers && SetOwnsNone(l.ports, id) && OwnsNone(l.ips.owners, id)
  }

  // The three ledgers agree, except for added pools that hold no port.
  ghost predicate Restored(before: Ledger, after: Ledger) {
    before.cap == after.cap && before.ips == after.ips && SameUpToEmptyPools(before.ports, after.ports)
  }

  // The ledger a create works on: the given one, less a failed runtime it was allowed to retire.
  function BaseLedger(setup: Setup, l: Ledger, req: ServerRequest, key: string, effect: string, o: Outcomes,
                      freed: Option<string>): Ledger
  {
    match Admitted(setup, l, req, key, effect, o, freed)
    case Done(_, _) => l
    case Proceed(l1, _) => l1
  }

  // ---------- from the inside out ----------

  lemma SpeculationUndoneIff(t: Tracked, id: string, limits: Limits)
    ensures Released(Allocated(t, id, limits), id) == t <==> id !in t.containers
  {
    var after := Released(Allocated(t, id, limits), id);
    if id !in t.containers {
      assert after.containers == t.containers;
    }
  }

  lemma HookedNotCreated(setup: Setup, l: Ledger, preStart: string, draft: CreateRequest, req: ServerRequest, id: string,
                         o: Outcomes, calls: seq<Call>, port: int)
    requires id !in l.cap.containers
    ensures var r := Hooked(setup, l, preStart, draft, req, id, o, calls, port);
            !r.reply.Created? ==> r.ledger == RolledBack(l, draft.ip, id)
  {
    var hookEnv := if preStart == "" || o.hook == None then map[] else o.hook.value;
    SpeculationUndoneIff(l.cap, id, RequestLimits(Equipped(draft, hookEnv, req)));
  }

  lemma AddressGivenBack(ips: IpState, id: string)
    requires ips.Valid() && IpAllocated(ips, id).1.Some?
    ensures var (after, ip) := IpAllocated(ips, id);
            ip.value != "" && after.(owners := after.owners - {ip.value}) == ips
  {
    AllocatesFirstFree(ips, id);
    var (after, ip) := IpAllocated(ips, id);
    assert after.owners - {ip.value} == ips.owners;
  }

  // The port of the fallback pool that a template without ports asks for is not to be had.
  ghost predicate FallbackExhausted(ps: PoolSet, b: Blueprint) {
    b.network == "" && b.ports == [] && FirstFree(ps.fallback.start, ps.fallback.end, ps.fallback.owners) == None
  }

  // In host mode the ports are what a release of the ID makes of some extension.
  lemma HostPortsExtend(ps: PoolSet, ips: IpState, id: string, b: Blueprint) returns (ext: PoolSet)
    requires b.network == ""
    ensures SetExtends(ps, ext, id)
    ensures match HostNetwork(ps, ips, id, b.ports, b.environment)
            case NoNetwork(ps1, ips1) => ips1 == ips && ps1 == (if FallbackExhausted(ps, b) then ps else SetReleased(ext, id))
            case Network(ps1, ips1, ip, _, _, _) => ips1 == ips && ps1 == ext && ip == "" && !FallbackExhausted(ps, b)
  {
    if b.ports == [] {
      ext := SetAllocated(ps, "", id).0;
      AllocatedExtends(ps, "", id);
    } else {
      ext := AllocateEach(ps, Ranges(b.ports), id).ps;
      AllocateEachExtends(ps, Ranges(b.ports), id);
    }
  }

  // Every exit after the template lookup that makes no container: capacity and addresses are as
  // they were; ports are restored exactly when the ID owned none, but in overlay mode always.
  lemma ConnectedNotCreated(setup: Setup, l: Ledger, preStart: string, b: Blueprint, req: ServerRequest, id: string,
                            o: Outcomes, calls: seq<Call>)
    requires l.ips.Valid() && id !in l.cap.containers
    requires !Connected(setup, l, preStart, b, req, id, o, calls).reply.Created?
    ensures var after := Connected(setup, l, preStart, b, req, id, o, calls).ledger;
            && after.cap == l.cap && after.ips == l.ips
            && if b.network != "" || FallbackExhausted(l.ports, b) then after.ports == l.ports
               else SameUpToEmptyPools(l.ports, after.ports) <==> SetOwnsNone(l.ports, id)
  {
    hide Hooked, HostNetwork;
    var net := AllocatedNetwork(l.ports, l.ips, id, b.network, b.ports, b.environment);
    if net.Network? {
      var draft := CreateRequest(id, b.network, net.ip, net.env, net.ports, b.cpuLimit, b.memoryLimit, b.memorySwap);
      HookedNotCreated(setup, l.(ports := net.ps, ips := net.ips), preStart, draft, req, id, o, calls, net.port);
    }
    if b.network != "" {
      if net.Network? {
        AddressGivenBack(l.ips, id);
      }
    } else {
      var ext := HostPortsExtend(l.ports, l.ips, id, b);
      ReleaseUndoesIff(l.ports, ext, id);
    }
  }

  lemma HostBound(ports: seq<PortSpec>, numbers: seq<int>)
    requires |ports| == |numbers|
    ensures forall i :: 0 <= i < |numbers| ==> Bound(ports, numbers)[i].host == numbers[i]
    ensures forall p :: p in numbers <==> exists i :: 0 <= i < |numbers| && Bound(ports, numbers)[i].host == p
  {
  }

  // Host mode is all or nothing. Either every port specification has a port of its own: the first
  // free one of its range, the same inside and outside, owned by nobody before and by the server
  // now, and nothing else changed hands; or the server ID is left without ports. (A template
  // without ports asks for one of the fallback pool, and leaves the pools alone if there is none.)
  lemma HostModeAllOrNothing(ps: PoolSet, ips: IpState, id: string, ports: seq<PortSpec>, env: map<string, string>)
    requires Safe(ps) && ports != [] && forall p :: p in ports ==> Pooled(ps, p.range)
    ensures match HostNetwork(ps, ips, id, ports, env)
            case NoNetwork(after, _) => SetOwnsNone(after, id)
            case Network(after, _, _, port, bound, _) =>
              && |bound| == |ports| && port == bound[0].host
              && (forall i :: 0 <= i < |ports| ==>
                    bound[i] == ports[i].(host := bound[i].host, container := bound[i].host) &&
                    FirstFit(after, ports[i].range, bound[i].host, id) && (forall c :: !Owns(ps, bound[i].host, c)))
              && (forall i, j :: 0 <= i < j < |bound| ==> bound[i].host != bound[j].host)
              && (forall p, c :: Owns(after, p, c) <==> Owns(ps, p, c) || (c == id && exists i :: 0 <= i < |bound| && bound[i].host == p))
  {
    var ranges := Ranges(ports);
    var g := AllocateEach(ps, ranges, id);
    assert forall r :: r in ranges ==> Pooled(ps, r);
    AllocateEachDistinct(ps, ranges, id);
    if g.ok {
      AllocateEachFirstFit(ps, ranges, id);
      HostBound(ports, g.ports);
    }
  }

  // ---------- whole creates ----------

  predicate HasTemplate(setup: Setup, req: ServerRequest) {
    req.templateName in setup.templates
  }

  // The container as it is when the network is allocated.
  function Prepared(setup: Setup, req: ServerRequest): Blueprint
    requires HasTemplate(setup, req)
  {
    var t := setup.templates[req.templateName];
    t.container.(ports := FilteredPorts(t.container.ports, t.engines, req.env), environment := t.container.environment + t.server)
  }

  lemma AdmissionMakesNothing(setup: Setup, l: Ledger, req: ServerRequest, key: string, effect: string, o: Outcomes,
                              freed: Option<string>)
    ensures var admission := Admitted(setup, l, req, key, effect, o, freed);
            admission.Done? ==> !admission.reply.Created?
  {
  }

  // Every failing or already-exists exit, when the server ID owns nothing: all three ledgers are
  // as they were, after any failed runtime was retired.
  lemma UnsuccessfulCreateRestores(setup: Setup, l: Ledger, req: ServerRequest, key: string, effect: string, o: Outcomes,
                                   freed: Option<string>)
    requires l.ips.Valid()
    requires !CreateSpec(setup, l, req, key, effect, o, freed).reply.Created?
    requires OwnsNothing(BaseLedger(setup, l, req, key, effect, o, freed), EffectiveID(req, o))
    ensures Restored(BaseLedger(setup, l, req, key, effect, o, freed), CreateSpec(setup, l, req, key, effect, o, freed).ledger)
  {
    hide Connected;
    var id := EffectiveID(req, o);
    match Admitted(setup, l, req, key, effect, o, freed)
    case Done(_, _) =>
    case Proceed(base, calls) =>
      if HasTemplate(setup, req) {
        ConnectedNotCreated(setup, base, setup.templates[req.templateName].preStart, Prepared(setup, req), req, id, o, calls);
      }
  }

  // When the ID does own ports, host mode drops them on every exit that gives ports back: the
  // ports are restored exactly when there were none.
  lemma HostRollbackDropsEarlierPorts(setup: Setup, l: Ledger, req: ServerRequest, key: string, effect: string, o: Outcomes,
                                      freed: Option<string>)
    requires l.ips.Valid() && HasTemplate(setup, req)
    requires Admitted(setup, l, req, key, effect, o, freed).Proceed?
    requires !CreateSpec(setup, l, req, key, effect, o, freed).reply.Created?
    requires var base := BaseLedger(setup, l, req, key, effect, o, freed);
             && EffectiveID(req, o) !in base.cap.containers
             && Prepared(setup, req).network == "" && !FallbackExhausted(base.ports, Prepared(setup, req))
    ensures var base := BaseLedger(setup, l, req, key, effect, o, freed);
            SameUpToEmptyPools(base.ports, CreateSpec(setup, l, req, key, effect, o, freed).ledger.ports) <==>
            SetOwnsNone(base.ports, EffectiveID(req, o))
  {
    hide Connected;
    var base := BaseLedger(setup, l, req, key, effect, o, freed);
    var calls := Admitted(setup, l, req, key, effect, o, freed).calls;
    ConnectedNotCreated(setup, base, setup.templates[req.templateName].preStart, Prepared(setup, req), req,
                        EffectiveID(req, o), o, calls);
  }

  // ---------- ports and addresses, whatever the ID had before ----------

  // What becomes of ports and addresses from the hook on.
  lemma HookedMoves(setup: Setup, l: Ledger, preStart: string, draft: CreateRequest, req: ServerRequest, id: string,
                    o: Outcomes, calls: seq<Call>, port: int)
    ensures var r := Hooked(setup, l, preStart, draft, req, id, o, calls, port);
            if r.reply.Created? then
              && o.create.Ok? && r.reply.server.id == o.create.value.id
              && r.ledger.ips == (if draft.ip == "" then l.ips else l.ips.(owners := ReKeyed(l.ips.owners, id, o.create.value.id)))
              && r.ledger.ports == (if draft.ip == "" then SetReKeyed(l.ports, id, o.create.value.id) else l.ports)
            else
              && r.ledger.ips == RolledBack(l, draft.ip, id).ips
              && r.ledger.ports == RolledBack(l, draft.ip, id).ports
  {
    hide AdvertisedPorts, HeapEnv, Resolve, CanFit, SetReleased, SetReKeyed, ReKeyed, Committed, Released;
  }

  // The ports that host mode allocates: one for every specification, or one of the fallback pool.
  ghost function HostGrant(ps: PoolSet, ports: seq<PortSpec>, id: string): seq<int> {
    if ports == [] then AsList(SetAllocated(ps, "", id).1) else AllocateEach(ps, Ranges(ports), id).ports
  }

  lemma HostNetworkOwnership(ps: PoolSet, ips: IpState, id: string, ports: seq<PortSpec>, env: map<string, string>)
    ensures match HostNetwork(ps, ips, id, ports, env)
            case NoNetwork(after, ips1) => ips1 == ips && forall p, c :: c != id ==> (Owns(after, p, c) <==> Owns(ps, p, c))
            case Network(after, ips1, ip, _, _, _) =>
              && ips1 == ips && ip == "" && |HostGrant(ps, ports, id)| == (if ports == [] then 1 else |ports|)
              && Gains(ps, after, id, HostGrant(ps, ports, id))
  {
    if ports == [] {
      AllocateGains(ps, "", id);
    } else {
      AllocateEachOwnership(ps, Ranges(ports), id);
      ReleaseOwnership(AllocateEach(ps, Ranges(ports), id).ps, id);
    }
    hide Owns, SetReleased, NetworkEnv;
  }

  // With disjoint ranges the granted ports are different from each other and nobody's before.
  lemma HostGrantIsNew(ps: PoolSet, ports: seq<PortSpec>, id: string)
    requires Safe(ps) && forall p :: p in ports ==> Pooled(ps, p.range)
    ensures var g := HostGrant(ps, ports, id);
            && (forall i, j :: 0 <= i < j < |g| ==> g[i] != g[j])
            && (forall p, c :: p in g ==> !Owns(ps, p, c))
  {
    hide Owns, Safe;
    if ports == [] {
      var (after, port) := SetAllocated(ps, "", id);
      AllocateHandsOutUnowned(ps, "", id, after, port);
    } else {
      AllocateEachDistinct(ps, Ranges(ports), id);
    }
  }

  // after has the ports of before, except that those of id and the granted ones are c's now.
  ghost predicate HandedOn(before: PoolSet, after: PoolSet, id: string, c: string, granted: seq<int>) {
    && (forall p :: Owns(after, p, c) <==> Owns(before, p, c) || Owns(before, p, id) || p in granted)
    && (forall p :: c != id ==> !Owns(after, p, id))
    && (forall p, d :: d != c && d != id ==> (Owns(after, p, d) <==> Owns(before, p, d)))
  }

  lemma ConnectedHandsOn(setup: Setup, l: Ledger, preStart: string, b: Blueprint, req: ServerRequest, id: string,
                         o: Outcomes, calls: seq<Call>)
    requires l.ips.Valid() && b.network == "" && Connected(setup, l, preStart, b, req, id, o, calls).reply.Created?
    ensures var r := Connected(setup, l, preStart, b, req, id, o, calls);
            && HandedOn(l.ports, r.ledger.ports, id, r.reply.server.id, HostGrant(l.ports, b.ports, id))
            && |HostGrant(l.ports, b.ports, id)| == (if b.ports == [] then 1 else |b.ports|)
  {
    hide Hooked, HostNetwork, HostGrant, Owns;
    var net := AllocatedNetwork(l.ports, l.ips, id, b.network, b.ports, b.environment);
    HostNetworkOwnership(l.ports, l.ips, id, b.ports, b.environment);
    var draft := CreateRequest(id, b.network, net.ip, net.env, net.ports, b.cpuLimit, b.memoryLimit, b.memorySwap);
    HookedMoves(setup, l.(ports := net.ps, ips := net.ips), preStart, draft, req, id, o, calls, net.port);
    ReKeyOwnership(net.ps, id, o.create.value.id);
  }

  // A successful create in host mode hands on whatever ports were kept for the ID: the container has
  // those and the newly granted ones, one for every specification, and the ID has none.
  lemma KeptPortsGoToContainer(setup: Setup, l: Ledger, req: ServerRequest, key: string, effect: string, o: Outcomes,
                               freed: Option<string>)
    requires l.ips.Valid() && HasTemplate(setup, req) && Prepared(setup, req).network == ""
    requires CreateSpec(setup, l, req, key, effect, o, freed).reply.Created?
    ensures var base := BaseLedger(setup, l, req, key, effect, o, freed);
            var r := CreateSpec(setup, l, req, key, effect, o, freed);
            var ports, id := Prepared(setup, req).ports, EffectiveID(req, o);
            var granted := HostGrant(base.ports, ports, id);
            && HandedOn(base.ports, r.ledger.ports, id, r.reply.server.id, granted)
            && |granted| == (if ports == [] then 1 else |ports|)
            && (Safe(base.ports) && (forall p :: p in ports ==> Pooled(base.ports, p.range)) ==>
                  && (forall i, j :: 0 <= i < j < |granted| ==> granted[i] != granted[j])
                  && forall p, c :: p in granted ==> !Owns(base.ports, p, c))
  {
    hide Connected, HandedOn, HostGrant, Safe, Owns;
    var base := BaseLedger(setup, l, req, key, effect, o, freed);
    AdmissionMakesNothing(setup, l, req, key, effect, o, freed);
    var calls := Admitted(setup, l, req, key, effect, o, freed).calls;
    ConnectedHandsOn(setup, base, setup.templates[req.templateName].preStart, Prepared(setup, req), req, EffectiveID(req, o), o, calls);
    if Safe(base.ports) && forall p :: p in Prepared(setup, req).ports ==> Pooled(base.ports, p.range) {
      HostGrantIsNew(base.ports, Prepared(setup, req).ports, EffectiveID(req, o));
    }
  }

  // ---------- success, and its inverse ----------

  // What a successful create adds to the ledger it works on, once everything belongs to the container.
  ghost predicate Adds(base: Ledger, after: Ledger, c: string) {
    && (exists limits :: CanFit(base.cap.alloc, limits, base.cap.budget) && after.cap == Allocated(base.cap, c, limits))
    && SetExtends(base.ports, after.ports, c)
    && after.ips.start == base.ips.start && after.ips.end == base.ips.end
    && Extends(base.ips.owners, after.ips.owners, c) && AtMostOne(after.ips, c)
  }

  lemma CommitMovesAllocation(t: Tracked, id: string, c: string, limits: Limits)
    requires id !in t.containers
    ensures Committed(Allocated(t, id, limits), id, c) == Allocated(t, c, limits)
  {
    assert t.containers[id := limits] - {id} == t.containers;
  }

  lemma HookedCreated(setup: Setup, l: Ledger, preStart: string, draft: CreateRequest, req: ServerRequest, id: string,
                      o: Outcomes, calls: seq<Call>, port: int) returns (limits: Limits)
    requires id !in l.cap.containers
    requires Hooked(setup, l, preStart, draft, req, id, o, calls, port).reply.Created?
    ensures o.create.Ok? && CanFit(l.cap.alloc, limits, l.cap.budget)
    ensures Hooked(setup, l, preStart, draft, req, id, o, calls, port).reply.server.id == o.create.value.id
    ensures var after := Hooked(setup, l, preStart, draft, req, id, o, calls, port).ledger;
            var c := o.create.value.id;
            && after.cap == Allocated(l.cap, c, limits)
            && after.ips == (if draft.ip == "" then l.ips else l.ips.(owners := ReKeyed(l.ips.owners, id, c)))
            && after.ports == (if draft.ip == "" then SetReKeyed(l.ports, id, c) else l.ports)
  {
    var hookEnv := if preStart == "" then map[] else o.hook.value;
    limits := RequestLimits(Equipped(draft, hookEnv, req));
    CommitMovesAllocation(l.cap, id, o.create.value.id, limits);
  }

  lemma OneAddressAdded(ips: IpState, id: string, c: string)
    requires ips.Valid() && IpAllocated(ips, id).1.Some? && OwnsNone(ips.owners, id) && OwnsNone(ips.owners, c)
    ensures var (after, ip) := IpAllocated(ips, id);
            && ip.value != ""
            && Extends(ips.owners, ReKeyed(after.owners, id, c), c)
            && AtMostOne(after.(owners := ReKeyed(after.owners, id, c)), c)
  {
    AllocatesFirstFree(ips, id);
    AddressGivenBack(ips, id);
  }

  lemma ConnectedCreated(setup: Setup, l: Ledger, preStart: string, b: Blueprint, req: ServerRequest, id: string,
                         o: Outcomes, calls: seq<Call>)
    requires l.ips.Valid() && OwnsNothing(l, id)
    requires Connected(setup, l, preStart, b, req, id, o, calls).reply.Created?
    requires o.create.Ok? ==> OwnsNothing(l, o.create.value.id)
    ensures var r := Connected(setup, l, preStart, b, req, id, o, calls);
            o.create.Ok? && r.reply.server.id == o.create.value.id && Adds(l, r.ledger, o.create.value.id)
  {
    hide Hooked, HostNetwork;
    var net := AllocatedNetwork(l.ports, l.ips, id, b.network, b.ports, b.environment);
    var draft := CreateRequest(id, b.network, net.ip, net.env, net.ports, b.cpuLimit, b.memoryLimit, b.memorySwap);
    var limits := HookedCreated(setup, l.(ports := net.ps, ips := net.ips), preStart, draft, req, id, o, calls, net.port);
    var c := o.create.value.id;
    if b.network != "" {
      OneAddressAdded(l.ips, id, c);
    } else {
      var ext := HostPortsExtend(l.ports, l.ips, id, b);
      ReKeyKeepsExtension(l.ports, ext, id, c);
    }
  }

  // A create that makes container c adds capacity, ports and at most one address, all of them c's.
  lemma SuccessfulCreateAdds(setup: Setup, l: Ledger, req: ServerRequest, key: string, effect: string, o: Outcomes,
                             freed: Option<string>)
    requires l.ips.Valid()
    requires CreateSpec(setup, l, req, key, effect, o, freed).reply.Created?
    requires OwnsNothing(BaseLedger(setup, l, req, key, effect, o, freed), EffectiveID(req, o))
    requires o.create.Ok? ==> OwnsNothing(BaseLedger(setup, l, req, key, effect, o, freed), o.create.value.id)
    ensures o.create.Ok? && CreateSpec(setup, l, req, key, effect, o, freed).reply.server.id == o.create.value.id
    ensures Adds(BaseLedger(setup, l, req, key, effect, o, freed), CreateSpec(setup, l, req, key, effect, o, freed).ledger,
                 o.create.value.id)
  {
    hide Connected;
    var base := BaseLedger(setup, l, req, key, effect, o, freed);
    var calls := Admitted(setup, l, req, key, effect, o, freed).calls;
    ConnectedCreated(setup, base, setup.templates[req.templateName].preStart, Prepared(setup, req), req, EffectiveID(req, o), o, calls);
  }

  // Retiring the container gives all of that back, whichever of its addresses the pool drops first.
  lemma RetireUndoes(base: Ledger, after: Ledger, c: string, newID: string, freed: Option<string>)
    requires OwnsNothing(base, c) && Adds(base, after, c) && Frees(after.ips, c, freed)
    ensures Restored(base, Retired(after, c, false, newID, freed))
  {
    var limits :| after.cap == Allocated(base.cap, c, limits);
    SpeculationUndoneIff(base.cap, c, limits);
    ReleaseUndoesIff(base.ports, after.ports, c);
    if freed == None {
      assert after.ips.owners == base.ips.owners;
    } else {
      assert after.ips.owners - {freed.value} == base.ips.owners;
    }
  }

  // Create, then retire the container that was returned: all three ledgers are back.
  lemma CreateThenRetireRestores(setup: Setup, l: Ledger, req: ServerRequest, key: string, effect: string, o: Outcomes,
                                 freed: Option<string>, newID: string, freed2: Option<string>)
    requires l.ips.Valid()
    requires var r := CreateSpec(setup, l, req, key, effect, o, freed);
             r.reply.Created? && Frees(r.ledger.ips, r.reply.server.id, freed2)
    requires OwnsNothing(BaseLedger(setup, l, req, key, effect, o, freed), EffectiveID(req, o))
    requires o.create.Ok? ==> OwnsNothing(BaseLedger(setup, l, req, key, effect, o, freed), o.create.value.id)
    ensures var r := CreateSpec(setup, l, req, key, effect, o, freed);
            Restored(BaseLedger(setup, l, req, key, effect, o, freed), Retired(r.ledger, r.reply.server.id, false, newID, freed2))
  {
    hide CreateSpec, BaseLedger;
    SuccessfulCreateAdds(setup, l, req, key, effect, o, freed);
    RetireUndoes(BaseLedger(setup, l, req, key, effect, o, freed), CreateSpec(setup, l, req, key, effect, o, freed).ledger,
                 o.create.value.id, newID, freed2);
  }
}
