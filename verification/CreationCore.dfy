// The create and retire operations over the mutable ledgers, in the form the cell runs them.
module CreationCore {
  import opened Text
  import opened Tokens
  import opened Ownership
  import opened Capacity
  import opened Ports
  import opened PortGrants
  import opened Ips
  import opened Docker
  import opened Creation

  class ContainerSpec {
    var name: string
    var network: string
    var ip: string
    var environment: map<string, string>
    var ports: array<PortSpec>
    // The length of the slice over the array.
    var portCount: nat
    var cpuLimit: real
    var memoryLimit: int
    var memorySwap: int

    predicate Valid()
      reads this
    {
      portCount <= ports.Length
    }

    function PortList(): (s: seq<PortSpec>)
      requires Valid()
      reads this, ports
      ensures |s| == portCount
    {
      ports[..portCount]
    }

    function View(): Blueprint
      requires Valid()
      reads this, ports
    {
      Blueprint(network, environment, PortList(), cpuLimit, memoryLimit, memorySwap)
    }

    // deepCopyContainer
    constructor DeepCopy(src: ContainerSpec)
      requires src.Valid()
      ensures Valid() && fresh(ports) && View() == src.View()
      ensures portCount == ports.Length && ip == src.ip
    {
      name, network, ip := src.name, src.network, src.ip;
      environment, cpuLimit := src.environment, src.cpuLimit;
      memoryLimit, memorySwap := src.memoryLimit, src.memorySwap;
      var copied := new PortSpec[src.portCount](_ => PortSpec(0, 0, "", "", ""));
      forall i | 0 <= i < src.portCount {
        copied[i] := src.ports[i];
      }
      ports, portCount := copied, src.portCount;
      new;
      assert ports[..portCount] == src.ports[..src.portCount];
    }

    function Request(): CreateRequest
      requires Valid()
      reads this, ports
    {
      CreateRequest(name, network, ip, environment, PortList(), cpuLimit, memoryLimit, memorySwap)
    }
  }

  datatype Template = Template(
    container: ContainerSpec, server: map<string, string>, preStart: string, engines: seq<EngineOption>)

  function ViewOf(t: Template): TemplateView
    requires t.container.Valid()
    reads t.container, t.container.ports
  {
    TemplateView(t.container.View(), t.server, t.preStart, t.engines)
  }

  method Compact(container: ContainerSpec, active: set<string>)
    requires container.Valid()
    modifies container`portCount, container.ports
    ensures container.Valid() && container.portCount <= old(container.portCount)
    ensures container.PortList() == KeptPorts(old(container.PortList()), active)
  {
    hide Dropped;
    ghost var source := container.PortList();
    var kept, i := 0, 0;
    while i < container.portCount
      invariant 0 <= kept <= i <= container.portCount == old(container.portCount)
      invariant forall k :: i <= k < container.portCount ==> container.ports[k] == source[k]
      invariant container.ports[..kept] == KeptPorts(source[..i], active)
      modifies container.ports
    {
      var port := container.ports[i];
      ghost var done := container.ports[..kept];
      assert source[..i + 1][..i] == source[..i];
      if !Dropped(port, active) {
        container.ports[kept] := port;
        assert container.ports[..kept + 1] == done + [port];
        kept := kept + 1;
      }
      i := i + 1;
    }
    assert source[..i] == source;
    container.portCount := kept;
  }

  // Compacts the port slice in place.
  method FilterCreatePlatforms(container: ContainerSpec, engines: seq<EngineOption>, env: map<string, string>)
    requires container.Valid()
    modifies container`portCount, container.ports
    ensures container.Valid() && container.portCount <= old(container.portCount)
    ensures container.PortList() == FilteredPorts(old(container.PortList()), engines, env)
  {
    if engines == [] || container.portCount == 0 {
      return;
    }
    var active: set<string> := {};
    var e := 0;
    while e < |engines|
      invariant 0 <= e <= |engines| && active == {}
      invariant ActiveFor(engines, ValueOf(env, "ENGINE")) == ActiveFor(engines[e..], ValueOf(env, "ENGINE"))
    {
      if engines[e].value == ValueOf(env, "ENGINE") {
        active := set p | p in engines[e].platforms;
        break;
      }
      assert engines[e..][1..] == engines[e + 1..];
      e := e + 1;
    }
    assert active == ActiveFor(engines, ValueOf(env, "ENGINE"));
    if ValueOf(env, "_CROSSPLAY") == "true" {
      active := active + {"bedrock"};
    }
    assert active == ActivePlatforms(engines, env);
    if active == {} {
      return;
    }
    Compact(container, active);
  }

  // The loop over named ports that both network modes end with.
  method AddPortVars(container: ContainerSpec)
    requires container.Valid()
    modifies container`environment
    ensures container.environment == WithPortVars(old(container.environment), container.PortList())
  {
    ghost var env, list := container.environment, container.PortList();
    var i := 0;
    while i < container.portCount
      invariant 0 <= i <= container.portCount
      invariant container.environment == WithPortVars(env, list[..i])
    {
      var p := container.ports[i];
      assert list[..i + 1][..i] == list[..i];
      if p.name != "" {
        container.environment := container.environment["PORT_" + ToUpper(p.name) := SignedDecimal(p.container)];
      }
      i := i + 1;
    }
    assert list[..i] == list;
  }

  method SetNetworkEnv(container: ContainerSpec, host: string, port: int, id: string)
    requires container.Valid()
    modifies container`environment
    ensures container.environment == NetworkEnv(old(container.environment), host, container.PortList(), port, id)
  {
    container.environment := container.environment["SERVER_HOST" := host];
    AddPortVars(container);
    container.environment := container.environment["SERVER_PORT" := SignedDecimal(port)];
    container.environment := container.environment["SERVER_ID" := id];
  }

  method AllocateHostPort(serverID: string, container: ContainerSpec, i: nat, portPools: PortPoolSet)
    returns (port: Option<int>)
    requires container.Valid() && i < container.portCount && portPools.Valid()
    modifies portPools, portPools.fallback, portPools.pools.Values, container.ports
    ensures portPools.Valid() && fresh(portPools.pools.Values - old(portPools.pools.Values))
    ensures (portPools.Contents, port) == SetAllocated(old(portPools.Contents), old(container.ports[i].range), serverID)
    ensures container.ports[..] == if port.None? then old(container.ports[..])
                                   else old(container.ports[..])[i := old(container.ports[i]).(host := port.value, container := port.value)]
  {
    port := portPools.Allocate(container.ports[i].range, serverID);
    if port.Some? {
      container.ports[i] := container.ports[i].(host := port.value, container := port.value);
    }
  }

  // The first slots of an array hold the ports that were granted, the others are as in list.
  predicate Filled(slots: seq<PortSpec>, list: seq<PortSpec>, ports: seq<int>) {
    && |ports| <= |list| <= |slots|
    && (forall k :: 0 <= k < |ports| ==> slots[k] == list[k].(host := ports[k], container := ports[k]))
    && (forall k :: |ports| <= k < |list| ==> slots[k] == list[k])
  }

  lemma FilledStep(slots: seq<PortSpec>, list: seq<PortSpec>, ports: seq<int>, port: int)
    requires Filled(slots, list, ports) && |ports| < |list|
    ensures Filled(slots[|ports| := slots[|ports|].(host := port, container := port)], list, ports + [port])
  {
  }

  lemma FilledIsBound(slots: seq<PortSpec>, list: seq<PortSpec>, ports: seq<int>)
    requires Filled(slots, list, ports) && |ports| == |list|
    ensures slots[..|list|] == Bound(list, ports)
  {
  }

  lemma SlotIsListed(slots: seq<PortSpec>, list: seq<PortSpec>, ports: seq<int>)
    requires Filled(slots, list, ports) && |ports| < |list|
    ensures slots[|ports|] == list[|ports|]
  {
  }

  // One more slot, after the ones that ports stands for.
  method TakeHostPort(serverID: string, container: ContainerSpec, portPools: PortPoolSet, ports: seq<int>,
                      ghost before: PoolSet, ghost list: seq<PortSpec>)
    returns (port: Option<int>)
    requires container.Valid() && portPools.Valid() && |ports| < |list| == container.portCount
    requires AllocateEach(before, Ranges(list)[..|ports|], serverID) == Granted(portPools.Contents, ports, true)
    requires Filled(container.ports[..], list, ports)
    modifies portPools, portPools.fallback, portPools.pools.Values, container.ports
    ensures portPools.Valid() && fresh(portPools.pools.Values - old(portPools.pools.Values))
    ensures if port.Some?
            then Filled(container.ports[..], list, ports + [port.value]) &&
                 AllocateEach(before, Ranges(list)[..|ports| + 1], serverID) ==
                 Granted(portPools.Contents, ports + [port.value], true)
            else AllocateEach(before, Ranges(list), serverID) == Granted(portPools.Contents, ports, false)
  {
    hide AllocateEach, SetAllocated;
    AllocateEachStep(before, Ranges(list), |ports|, serverID);
    ghost var slots := container.ports[..];
    SlotIsListed(slots, list, ports);
    port := AllocateHostPort(serverID, container, |ports|, portPools);
    if port.None? {
      AllocateEachStops(before, Ranges(list), |ports| + 1, serverID);
    } else {
      FilledStep(slots, list, ports, port.value);
    }
  }

  lemma NothingFilled(slots: seq<PortSpec>, list: seq<PortSpec>)
    requires list <= slots
    ensures Filled(slots, list, [])
  {
  }

  // One host port per slot of the slice, written into the slice, up to the first that fails.
  method TakeHostPorts(serverID: string, container: ContainerSpec, portPools: PortPoolSet)
    returns (ports: seq<int>, ok: bool)
    requires container.Valid() && portPools.Valid()
    modifies portPools, portPools.fallback, portPools.pools.Values, container.ports
    ensures portPools.Valid() && fresh(portPools.pools.Values - old(portPools.pools.Values))
    ensures AllocateEach(old(portPools.Contents), Ranges(old(container.PortList())), serverID) ==
            Granted(portPools.Contents, ports, ok)
    ensures ok ==> container.PortList() == Bound(old(container.PortList()), ports)
  {
    ghost var list, before := container.PortList(), portPools.Contents;
    ports := [];
    assert AllocateEach(before, Ranges(list)[..0], serverID) == Granted(before, [], true);
    NothingFilled(container.ports[..], list);
    hide AllocateEach, Filled, Bound, Ranges;
    while |ports| < container.portCount
      invariant |ports| <= container.portCount
      invariant portPools.Valid() && fresh(portPools.pools.Values - old(portPools.pools.Values))
      invariant AllocateEach(before, Ranges(list)[..|ports|], serverID) == Granted(portPools.Contents, ports, true)
      invariant Filled(container.ports[..], list, ports)
    {
      var port := TakeHostPort(serverID, container, portPools, ports, before, list);
      if port.None? {
        return ports, false;
      }
      ports := ports + [port.value];
    }
    assert Ranges(list)[..|ports|] == Ranges(list);
    FilledIsBound(container.ports[..], list, ports);
    return ports, true;
  }

  method AllocateOverlay(serverID: string, container: ContainerSpec, ipp: IpPool, ghost ps: PoolSet)
    returns (address: Option<string>, port: int)
    requires container.Valid() && ipp.Valid()
    modifies ipp, container`ip, container`environment
    ensures ipp.Valid()
    ensures var net := OverlayNetwork(ps, old(ipp.View()), serverID, container.PortList(), old(container.environment));
            && net.ps == ps && net.ips == ipp.View() && address.Some? == net.Network?
            && (net.Network? ==> address.value == net.ip && port == net.port && container.ip == net.ip &&
                                 container.PortList() == net.ports && container.environment == net.env)
  {
    port := 0;
    address := ipp.Allocate(serverID);
    if address.None? {
      return;
    }
    container.ip := address.value;
    port := DEFAULT_PORT;
    if container.portCount > 0 {
      port := container.ports[0].container;
    }
    SetNetworkEnv(container, address.value, port, serverID);
  }

  method AllocateHost(serverID: string, container: ContainerSpec, portPools: PortPoolSet, ghost ips: IpState)
    returns (port: Option<int>)
    requires container.Valid() && portPools.Valid()
    modifies portPools, portPools.fallback, portPools.pools.Values, container`environment, container.ports
    ensures portPools.Valid() && fresh(portPools.pools.Values - old(portPools.pools.Values))
    ensures var net := HostNetwork(old(portPools.Contents), ips, serverID, old(container.PortList()), old(container.environment));
            && net.ps == portPools.Contents && net.ips == ips && port.Some? == net.Network?
            && (net.Network? ==> net.ip == "" && port.value == net.port &&
                                 container.PortList() == net.ports && container.environment == net.env)
  {
    if container.portCount == 0 {
      port := portPools.Allocate("", serverID);
    } else {
      var ports, ok := TakeHostPorts(serverID, container, portPools);
      if !ok {
        portPools.ReleaseByServer(serverID);
        return None;
      }
      port := Some(ports[0]);
    }
    if port.Some? {
      SetNetworkEnv(container, "0.0.0.0", port.value, serverID);
    }
  }

  method AllocateCreateNetwork(serverID: string, container: ContainerSpec, portPools: PortPoolSet, ipp: IpPool)
    returns (ok: bool, ip: string, port: int)
    requires container.Valid() && container.ip == "" && portPools.Valid() && ipp.Valid()
    modifies ipp, portPools, portPools.fallback, portPools.pools.Values, container`ip, container`environment, container.ports
    ensures portPools.Valid() && ipp.Valid() && fresh(portPools.pools.Values - old(portPools.pools.Values))
    ensures var net := AllocatedNetwork(old(portPools.Contents), old(ipp.View()), serverID, container.network,
                                        old(container.PortList()), old(container.environment));
            && net.ps == portPools.Contents && net.ips == ipp.View() && ok == net.Network?
            && (ok ==> ip == net.ip && port == net.port && container.ip == ip &&
                       container.PortList() == net.ports && container.environment == net.env)
  {
    hide OverlayNetwork, HostNetwork;
    ip, port := "", 0;
    if container.network != "" {
      var address;
      address, port := AllocateOverlay(serverID, container, ipp, portPools.Contents);
      ok := address.Some?;
      if ok {
        ip := address.value;
      }
    } else {
      var p := AllocateHost(serverID, container, portPools, ipp.View());
      ok := p.Some?;
      if ok {
        port := p.value;
      }
    }
  }

  // The private copy of a template's container, filtered for the request.
  method Prepare(tmpl: Template, req: ServerRequest) returns (container: ContainerSpec)
    requires tmpl.container.Valid() && tmpl.container.ip == ""
    ensures fresh(container) && fresh(container.ports) && container.Valid() && container.ip == ""
    ensures container.PortList() == FilteredPorts(tmpl.container.PortList(), tmpl.engines, req.env)
    ensures container.environment == tmpl.container.environment + tmpl.server
    ensures container.network == tmpl.container.network
    ensures container.cpuLimit == tmpl.container.cpuLimit && container.memoryLimit == tmpl.container.memoryLimit
    ensures container.memorySwap == tmpl.container.memorySwap
  {
    container := new ContainerSpec.DeepCopy(tmpl.container);
    FilterCreatePlatforms(container, tmpl.engines, req.env);
    container.environment := container.environment + tmpl.server;
  }

  // resources.Apply, after the hook's variables.
  method ApplyResources(container: ContainerSpec, hookEnv: map<string, string>, req: ServerRequest)
    modifies container`environment, container`cpuLimit, container`memoryLimit, container`memorySwap
    ensures container.environment == old(container.environment) + hookEnv + HeapEnv(Override(req)) + req.env
    ensures container.cpuLimit == FinalCPU(old(container.cpuLimit), Override(req))
    ensures container.memoryLimit == FinalMemory(old(container.memoryLimit), Override(req))
    ensures container.memorySwap == FinalSwap(old(container.memorySwap), Override(req))
  {
    var o := Override(req);
    container.environment := container.environment + hookEnv;
    if o.memoryLimit > 0 {
      container.memoryLimit := o.memoryLimit;
    }
    if o.cpuLimit > 0.0 {
      container.cpuLimit := o.cpuLimit;
    }
    if o.maxRamMb > 0 {
      container.memoryLimit := Int64(o.maxRamMb * 1024 * 1024);
      container.memorySwap := container.memoryLimit;
    }
    if o.maxCpuCores > 0.0 {
      container.cpuLimit := o.maxCpuCores;
    }
    container.environment := container.environment + HeapEnv(o);
    container.environment := container.environment + req.env;
  }

  ghost function LedgerOf(capacity: CapacityTracker, portPools: PortPoolSet, ipp: IpPool): Ledger
    reads capacity, portPools, ipp, ipp.start, ipp.end
  {
    Ledger(capacity.View(), portPools.Contents, ipp.View())
  }

  method GiveBack(id: string, portPools: PortPoolSet, ipp: IpPool) returns (freed: Option<string>)
    requires portPools.Valid() && ipp.Valid()
    modifies ipp, portPools, portPools.fallback, portPools.pools.Values
    ensures portPools.Valid() && ipp.Valid() && portPools.pools == old(portPools.pools)
    ensures portPools.Contents == SetReleased(old(portPools.Contents), id)
    ensures Frees(old(ipp.View()), id, freed) && ipp.View() == IpReleased(old(ipp.View()), freed)
  {
    portPools.ReleaseByServer(id);
    freed := ipp.ReleaseByServer(id);
  }

  method HandOn(id: string, newID: string, portPools: PortPoolSet, ipp: IpPool)
    requires portPools.Valid() && ipp.Valid()
    modifies ipp, portPools, portPools.fallback, portPools.pools.Values
    ensures portPools.Valid() && ipp.Valid() && portPools.pools == old(portPools.pools)
    ensures portPools.Contents == SetReKeyed(old(portPools.Contents), id, newID)
    ensures ipp.View() == old(ipp.View()).(owners := ReKeyed(old(ipp.owners), id, newID))
  {
    portPools.ReKey(id, newID);
    ipp.ReKey(id, newID);
  }

  // Destroys first: a failed destroy leaves every allocation where it was.
  method RetireServer(id: string, keepAllocations: bool, newID: string, destroy: Option<DockerError>,
                      capacity: CapacityTracker, portPools: PortPoolSet, ipp: IpPool)
    returns (ok: bool, freed: Option<string>)
    requires portPools.Valid() && ipp.Valid()
    modifies capacity, ipp, portPools, portPools.fallback, portPools.pools.Values
    ensures portPools.Valid() && ipp.Valid() && portPools.pools == old(portPools.pools)
    ensures ok == !DestroyFails(destroy)
    ensures LedgerOf(capacity, portPools, ipp) ==
            if ok then Retired(old(LedgerOf(capacity, portPools, ipp)), id, keepAllocations, newID, freed)
            else old(LedgerOf(capacity, portPools, ipp))
    ensures if ok && !keepAllocations then Frees(old(ipp.View()), id, freed) else freed == None
  {
    freed := None;
    if DestroyFails(destroy) {
      return false, None;
    }
    capacity.Release(id);
    if !keepAllocations {
      freed := GiveBack(id, portPools, ipp);
    } else if newID != "" {
      HandOn(id, newID, portPools, ipp);
    }
    ok := true;
  }

  lemma NoTokens(setup: Setup, req: ServerRequest, o: Outcomes)
    ensures !Recovers(setup, req, "", "", o)
  {
  }

  class CreationCore {
    const templates: map<string, Template>
    const externalHost: string
    const runtimeNodeID: string
    const capacity: CapacityTracker
    const ipp: IpPool
    const portPools: PortPoolSet
    const canRecover: bool

    constructor (templates: map<string, Template>, externalHost: string, runtimeNodeID: string,
                 capacity: CapacityTracker, ipp: IpPool, portPools: PortPoolSet, canRecover: bool)
      requires portPools.Valid() && ipp.Valid()
      requires forall n :: n in templates ==> templates[n].container.Valid() && templates[n].container.ip == ""
      ensures Valid() && Loaded()
      ensures this.templates == templates && this.externalHost == externalHost && this.runtimeNodeID == runtimeNodeID
      ensures this.capacity == capacity && this.ipp == ipp && this.portPools == portPools && this.canRecover == canRecover
    {
      this.templates, this.externalHost, this.runtimeNodeID := templates, externalHost, runtimeNodeID;
      this.capacity, this.ipp, this.portPools, this.canRecover := capacity, ipp, portPools, canRecover;
    }

    function Containers(): set<ContainerSpec> {
      set n | n in templates :: templates[n].container
    }

    ghost predicate Valid()
      reads portPools, portPools.fallback, portPools.pools.Values, ipp, ipp.start, ipp.end
    {
      portPools.Valid() && ipp.Valid()
    }

    // The templates as they were loaded.
    predicate Loaded()
      reads Containers()
    {
      forall c :: c in Containers() ==> c.Valid() && c.ip == ""
    }

    function Settings(): Setup
      reads Containers(), set c | c in Containers() :: c.ports
      requires Loaded()
    {
      Setup(map n | n in templates :: ViewOf(templates[n]), externalHost, runtimeNodeID, canRecover)
    }

    ghost function View(): Ledger
      reads capacity, portPools, ipp, ipp.start, ipp.end
    {
      LedgerOf(capacity, portPools, ipp)
    }

    method ReleaseResources(allocatedIP: string, serverID: string)
      requires Valid()
      modifies capacity, ipp, portPools, portPools.fallback, portPools.pools.Values
      ensures Valid() && portPools.pools == old(portPools.pools) && View() == RolledBack(old(View()), allocatedIP, serverID)
    {
      if allocatedIP != "" {
        ipp.Release(allocatedIP);
      } else {
        portPools.ReleaseByServer(serverID);
      }
    }

    method Settle(serverID: string, containerID: string, allocatedIP: string)
      requires Valid()
      modifies capacity, ipp, portPools, portPools.fallback, portPools.pools.Values
      ensures Valid() && portPools.pools == old(portPools.pools) && View() == Settled(old(View()), serverID, containerID, allocatedIP)
    {
      capacity.Commit(serverID, containerID);
      if allocatedIP != "" {
        ipp.ReKey(serverID, containerID);
      } else {
        portPools.ReKey(serverID, containerID);
      }
    }

    // createWithSpeculativeResources and what follows it.
    method Launch(serverID: string, request: CreateRequest, o: Outcomes, calls: seq<Call>, port: int, setup: Setup)
      returns (reply: Reply, made: seq<Call>)
      requires Valid()
      modifies capacity, ipp, portPools, portPools.fallback, portPools.pools.Values
      ensures Valid() && portPools.pools == old(portPools.pools)
      ensures CreateResult(View(), reply, made) == Launched(setup, old(View()), request, serverID, o, calls, port)
    {
      made := calls + [CreateContainer(request)];
      match o.create
      case Ok(server) =>
        Settle(serverID, server.id, request.ip);
        var ports := AdvertisedPorts(server.ports, request.ports, port);
        reply := Created(Project(setup, server.(ports := ports), serverID));
      case Err(e) =>
        capacity.Release(serverID);
        ReleaseResources(request.ip, serverID);
        if !e.nameConflict {
          return Failed(500), made;
        }
        made := made + LookupCalls(serverID, o.after);
        match Resolve(serverID, o.after)
        case Present(server) => reply := Adopted(Project(setup, server, serverID));
        case _ => reply := Failed(500);
    }

    // The capacity check, and the create if it passes.
    method Contain(container: ContainerSpec, o: Outcomes, calls: seq<Call>, port: int, setup: Setup)
      returns (reply: Reply, made: seq<Call>)
      requires Valid() && container.Valid()
      modifies capacity, ipp, portPools, portPools.fallback, portPools.pools.Values
      ensures Valid() && portPools.pools == old(portPools.pools)
      ensures CreateResult(View(), reply, made) ==
              Contained(setup, old(View()), old(container.Request()), old(container.name), o, calls, port)
    {
      var serverID, request := container.name, container.Request();
      var error := capacity.TryAllocate(serverID, container.cpuLimit, container.memoryLimit);
      if error.Some? {
        ReleaseResources(container.ip, serverID);
        return Failed(503), calls;
      }
      reply, made := Launch(serverID, request, o, calls, port, setup);
    }

    // CreateFenced from the pre-start hook on.
    method RunHook(preStart: string, container: ContainerSpec, req: ServerRequest, o: Outcomes, calls: seq<Call>,
                   port: int, setup: Setup)
      returns (reply: Reply, made: seq<Call>)
      requires Valid() && container.Valid()
      modifies capacity, ipp, portPools, portPools.fallback, portPools.pools.Values, container
      ensures Valid() && portPools.pools == old(portPools.pools)
      ensures CreateResult(View(), reply, made) ==
              Hooked(setup, old(View()), preStart, old(container.Request()), req, old(container.name), o, calls, port)
    {
      made := calls;
      var hookEnv: map<string, string> := map[];
      if preStart != "" {
        made := calls + [Hook(preStart)];
        if o.hook == None {
          ReleaseResources(container.ip, container.name);
          return Failed(500), made;
        }
        hookEnv := o.hook.value;
      }
      ghost var draft := container.Request();
      ApplyResources(container, hookEnv, req);
      assert container.Request() == Equipped(draft, hookEnv, req);
      reply, made := Contain(container, o, made, port, setup);
    }

    // CreateFenced from the network allocation on.
    method Connect(preStart: string, container: ContainerSpec, req: ServerRequest, serverID: string, o: Outcomes,
                   calls: seq<Call>, setup: Setup)
      returns (reply: Reply, made: seq<Call>)
      requires Valid() && container.Valid() && container.ip == ""
      modifies capacity, ipp, portPools, portPools.fallback, portPools.pools.Values, container, container.ports
      ensures Valid() && fresh(portPools.pools.Values - old(portPools.pools.Values))
      ensures CreateResult(View(), reply, made) ==
              Connected(setup, old(View()), preStart, old(container.View()), req, serverID, o, calls)
    {
      hide AllocatedNetwork, Hooked, Launched, Contained;
      ghost var l, b := View(), container.View();
      ghost var net := AllocatedNetwork(l.ports, l.ips, serverID, b.network, b.ports, b.environment);
      var ok, ip, port := AllocateCreateNetwork(serverID, container, portPools, ipp);
      assert View() == l.(ports := net.ps, ips := net.ips);
      if !ok {
        return Failed(503), calls;
      }
      container.name := serverID;
      reply, made := RunHook(preStart, container, req, o, calls, port, setup);
    }

    // CreateFenced from the template lookup on.
    method Provision(req: ServerRequest, serverID: string, o: Outcomes, calls: seq<Call>, setup: Setup)
      returns (reply: Reply, made: seq<Call>)
      requires Valid() && Loaded() && setup == Settings()
      modifies capacity, ipp, portPools, portPools.fallback, portPools.pools.Values
      ensures Valid() && fresh(portPools.pools.Values - old(portPools.pools.Values))
      ensures CreateResult(View(), reply, made) == Provisioned(setup, old(View()), req, serverID, o, calls)
    {
      hide Connected, FilteredPorts;
      if req.templateName !in templates {
        return Failed(404), calls;
      }
      var tmpl := templates[req.templateName];
      var container := Prepare(tmpl, req);
      ghost var t := setup.templates[req.templateName];
      assert t == ViewOf(tmpl);
      assert container.View() == t.container.(ports := FilteredPorts(t.container.ports, t.engines, req.env),
                                              environment := t.container.environment + t.server);
      hide Settings, ViewOf, Loaded;
      reply, made := Connect(tmpl.preStart, container, req, serverID, o, calls, setup);
    }

    // Templates keep their values when nothing they consist of changes.
    twostate lemma SettingsKept()
      requires old(Loaded())
      requires forall c :: c in Containers() ==> unchanged(c) && unchanged(old(c.ports))
      ensures Loaded() && Settings() == old(Settings())
    {
      forall n | n in templates
        ensures templates[n].container.Valid() && ViewOf(templates[n]) == old(ViewOf(templates[n]))
      {
        var c := templates[n].container;
        assert c in Containers() && unchanged(c) && unchanged(old(c.ports));
      }
    }

    // CreateFenced up to the template lookup.
    method Admit(req: ServerRequest, idempotencyKey: string, effectID: string, o: Outcomes, setup: Setup)
      returns (early: Option<Reply>, made: seq<Call>, freed: Option<string>)
      requires Valid() && setup.canRecover == canRecover
      modifies capacity, ipp, portPools, portPools.fallback, portPools.pools.Values
      ensures Valid() && portPools.pools == old(portPools.pools)
      ensures match Admitted(setup, old(View()), req, idempotencyKey, effectID, o, freed)
              case Done(reply, calls) => early == Some(reply) && made == calls && View() == old(View())
              case Proceed(l, calls) => early == None && made == calls && View() == l
      ensures if Recovers(setup, req, idempotencyKey, effectID, o) && !DestroyFails(o.destroy)
              then Frees(old(ipp.View()), Resolve(req.serverID, o.before).server.id, freed)
              else freed == None
    {
      if req.serverID == "" {
        return None, [], None;
      }
      made := LookupCalls(req.serverID, o.before);
      match Resolve(req.serverID, o.before)
      case Unclear => return Some(Failed(500)), made, None;
      case Absent => return None, made, None;
      case Present(existing) =>
        if !FailedStatus(existing.status) {
          return Some(Adopted(Project(setup, existing, req.serverID))), made, None;
        }
        if !canRecover || !ValidToken(idempotencyKey) || !ValidToken(effectID) {
          return Some(Failed(409)), made, None;
        }
        made := made + [Destroy(existing.id)];
        var ok;
        ok, freed := RetireServer(existing.id, false, req.serverID, o.destroy, capacity, portPools, ipp);
        early := if ok then None else Some(Failed(500));
    }

    // Admit and Provision, with the templates as they were.
    method AdmitKeeping(req: ServerRequest, idempotencyKey: string, effectID: string, o: Outcomes, setup: Setup)
      returns (early: Option<Reply>, made: seq<Call>, freed: Option<string>)
      requires Valid() && Loaded() && setup == Settings()
      modifies capacity, ipp, portPools, portPools.fallback, portPools.pools.Values
      ensures Valid() && portPools.pools == old(portPools.pools)
      ensures Loaded() && Settings() == setup
      ensures match Admitted(setup, old(View()), req, idempotencyKey, effectID, o, freed)
              case Done(reply, calls) => early == Some(reply) && made == calls && View() == old(View())
              case Proceed(l, calls) => early == None && made == calls && View() == l
      ensures if Recovers(setup, req, idempotencyKey, effectID, o) && !DestroyFails(o.destroy)
              then Frees(old(ipp.View()), Resolve(req.serverID, o.before).server.id, freed)
              else freed == None
    {
      hide Admitted, Recovers, Resolve, Frees;
      early, made, freed := Admit(req, idempotencyKey, effectID, o, setup);
      SettingsKept();
    }

    method ProvisionKeeping(req: ServerRequest, serverID: string, o: Outcomes, calls: seq<Call>, setup: Setup)
      returns (reply: Reply, made: seq<Call>)
      requires Valid() && Loaded() && setup == Settings()
      modifies capacity, ipp, portPools, portPools.fallback, portPools.pools.Values
      ensures Valid() && fresh(portPools.pools.Values - old(portPools.pools.Values))
      ensures Loaded() && Settings() == setup
      ensures CreateResult(View(), reply, made) == Provisioned(setup, old(View()), req, serverID, o, calls)
    {
      hide Provisioned;
      reply, made := Provision(req, serverID, o, calls, setup);
      SettingsKept();
    }

    // No create changes a template: ports, environments and limits are as they were loaded.
    method CreateFenced(req: ServerRequest, idempotencyKey: string, effectID: string, o: Outcomes)
      returns (reply: Reply, made: seq<Call>, freed: Option<string>)
      requires Valid() && Loaded()
      modifies capacity, ipp, portPools, portPools.fallback, portPools.pools.Values
      ensures Valid() && fresh(portPools.pools.Values - old(portPools.pools.Values))
      ensures Loaded() && Settings() == old(Settings())
      ensures CreateResult(View(), reply, made) ==
              CreateSpec(old(Settings()), old(View()), req, idempotencyKey, effectID, o, freed)
      ensures if Recovers(old(Settings()), req, idempotencyKey, effectID, o) && !DestroyFails(o.destroy)
              then Frees(old(ipp.View()), Resolve(req.serverID, o.before).server.id, freed)
              else freed == None
    {
      hide Provisioned, Admitted, Recovers, Frees, Resolve, DestroyFails, EffectiveID, Settings, Loaded, LedgerOf;
      var setup := Settings();
      var early;
      early, made, freed := AdmitKeeping(req, idempotencyKey, effectID, o, setup);
      if early.Some? {
        return early.value, made, freed;
      }
      reply, made := ProvisionKeeping(req, EffectiveID(req, o), o, made, setup);
    }

    method Create(req: ServerRequest, o: Outcomes) returns (reply: Reply, made: seq<Call>, freed: Option<string>)
      requires Valid() && Loaded()
      modifies capacity, ipp, portPools, portPools.fallback, portPools.pools.Values
      ensures Valid() && fresh(portPools.pools.Values - old(portPools.pools.Values))
      ensures Loaded() && Settings() == old(Settings())
      ensures CreateResult(View(), reply, made) == CreateSpec(old(Settings()), old(View()), req, "", "", o, None)
    {
      hide CreateSpec, Settings, Loaded;
      NoTokens(old(Settings()), req, o);
      reply, made, freed := CreateFenced(req, "", "", o);
    }
  }
}
