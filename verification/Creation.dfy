// pulp-cell/creation_core.go, idempotent_create.go, retirement_core.go and the final limits of
// resources.go: one create or retirement, and what it does to the three ledgers.
module Creation {
  import opened Text
  import opened Tokens
  import opened Ownership
  import opened Capacity
  import opened Ports
  import opened PortGrants
  import opened Ips
  import opened Docker

  // The values of the capacity tracker, the port pool set and the IP pool.
  datatype Ledger = Ledger(cap: Tracked, ports: PoolSet, ips: IpState)

  datatype ResourceOverride = ResourceOverride(
    memoryLimit: int, cpuLimit: real, maxCpuCores: real, maxRamMb: int, jvmHeapMb: int)

  datatype ServerRequest = ServerRequest(
    templateName: string, serverID: string, env: map<string, string>, resources: Option<ResourceOverride>)

  datatype EngineOption = EngineOption(value: string, platforms: seq<string>)

  // The values of a container specification and of a template.
  datatype Blueprint = Blueprint(
    network: string, environment: map<string, string>, ports: seq<PortSpec>, cpuLimit: real, memoryLimit: int,
    memorySwap: int)

  datatype TemplateView = TemplateView(
    container: Blueprint, server: map<string, string>, preStart: string, engines: seq<EngineOption>)

  // What never changes during a create.
  datatype Setup = Setup(
    templates: map<string, TemplateView>, externalHost: string, nodeID: string, canRecover: bool)

  // What the outside answers, should it be asked.
  datatype Outcomes = Outcomes(
    nanos: nat, before: Lookup, destroy: Option<DockerError>, hook: Option<map<string, string>>,
    create: Result<Server>, after: Lookup)

  datatype PublicServer = PublicServer(
    id: string, name: string, nodeID: string, worldName: string, status: string, ip: string, ports: map<string, int>,
    cpuLimit: real, memoryLimit: int)

  datatype Reply = Failed(status: int) | Adopted(server: PublicServer) | Created(server: PublicServer)

  datatype CreateResult = CreateResult(ledger: Ledger, reply: Reply, calls: seq<Call>)

  // ---------- retirement ----------

  predicate DestroyFails(destroy: Option<DockerError>) {
    destroy.Some? && !destroy.value.notFound
  }

  // freed is the address the IP pool happens to give back.
  function Retired(l: Ledger, id: string, keep: bool, newID: string, freed: Option<string>): Ledger {
    var l1 := l.(cap := Released(l.cap, id));
    if !keep then l1.(ports := SetReleased(l.ports, id), ips := IpReleased(l.ips, freed))
    else if newID != "" then
      l1.(ports := SetReKeyed(l.ports, id, newID), ips := l.ips.(owners := ReKeyed(l.ips.owners, id, newID)))
    else l1
  }

  // ---------- recovery of a failed runtime ----------

  function LowerChar(c: char): char {
    if 'A' <= c <= 'Z' then (c as int + 32) as char else c
  }

  function ToLower(s: string): string {
    seq(|s|, i requires 0 <= i < |s| => LowerChar(s[i]))
  }

  predicate FailedStatus(status: string) {
    ToLower(TrimSpace(status)) in ["stopped", "exited", "dead"]
  }

  // ---------- container preparation ----------

  function ActiveFor(engines: seq<EngineOption>, engine: string): set<string> {
    if engines == [] then {}
    else if engines[0].value == engine then set p | p in engines[0].platforms
    else ActiveFor(engines[1..], engine)
  }

  function ValueOf(env: map<string, string>, key: string): string {
    if key in env then env[key] else ""
  }

  function ActivePlatforms(engines: seq<EngineOption>, env: map<string, string>): set<string> {
    ActiveFor(engines, ValueOf(env, "ENGINE")) + (if ValueOf(env, "_CROSSPLAY") == "true" then {"bedrock"} else {})
  }

  predicate Dropped(p: PortSpec, active: set<string>) {
    (p.name == "java" || p.name == "bedrock") && p.name !in active
  }

  function KeptPorts(ports: seq<PortSpec>, active: set<string>): seq<PortSpec> {
    if ports == [] then []
    else
      var kept := KeptPorts(ports[..|ports| - 1], active);
      if Dropped(ports[|ports| - 1], active) then kept else kept + [ports[|ports| - 1]]
  }

  function FilteredPorts(ports: seq<PortSpec>, engines: seq<EngineOption>, env: map<string, string>): seq<PortSpec> {
    if engines == [] || ports == [] || ActivePlatforms(engines, env) == {} then ports
    else KeptPorts(ports, ActivePlatforms(engines, env))
  }

  function Ranges(ports: seq<PortSpec>): seq<string> {
    seq(|ports|, i requires 0 <= i < |ports| => ports[i].range)
  }

  function Bound(ports: seq<PortSpec>, numbers: seq<int>): seq<PortSpec>
    requires |ports| == |numbers|
  {
    seq(|ports|, i requires 0 <= i < |ports| => ports[i].(host := numbers[i], container := numbers[i]))
  }

  function WithPortVars(env: map<string, string>, ports: seq<PortSpec>): map<string, string> {
    if ports == [] then env
    else
      var last := ports[|ports| - 1];
      var env1 := WithPortVars(env, ports[..|ports| - 1]);
      if last.name == "" then env1 else env1["PORT_" + ToUpper(last.name) := SignedDecimal(last.container)]
  }

  function NetworkEnv(env: map<string, string>, host: string, ports: seq<PortSpec>, port: int, id: string)
    : map<string, string>
  {
    WithPortVars(env["SERVER_HOST" := host], ports)["SERVER_PORT" := SignedDecimal(port)]["SERVER_ID" := id]
  }

  datatype Network =
    | NoNetwork(ps: PoolSet, ips: IpState)
    | Network(ps: PoolSet, ips: IpState, ip: string, port: int, ports: seq<PortSpec>, env: map<string, string>)

  const DEFAULT_PORT := 5520

  // Overlay mode: one address, and the ports of the template as they are.
  ghost function OverlayNetwork(ps: PoolSet, ips: IpState, id: string, ports: seq<PortSpec>, env: map<string, string>)
    : Network
    requires ips.Valid()
  {
    match IpAllocated(ips, id)
    case (_, None) => NoNetwork(ps, ips)
    case (ips1, Some(ip)) =>
      var port := if ports == [] then DEFAULT_PORT else ports[0].container;
      Network(ps, ips1, ip, port, ports, NetworkEnv(env, ip, ports, port, id))
  }

  // Host mode: one port per port specification, or one port of the fallback pool.
  ghost function HostNetwork(ps: PoolSet, ips: IpState, id: string, ports: seq<PortSpec>, env: map<string, string>)
    : Network
  {
    if ports == [] then
      match SetAllocated(ps, "", id)
      case (_, None) => NoNetwork(ps, ips)
      case (ps1, Some(port)) => Network(ps1, ips, "", port, ports, NetworkEnv(env, "0.0.0.0", ports, port, id))
    else
      var g := AllocateEach(ps, Ranges(ports), id);
      if !g.ok then NoNetwork(SetReleased(g.ps, id), ips)
      else
        var bound := Bound(ports, g.ports);
        Network(g.ps, ips, "", g.ports[0], bound, NetworkEnv(env, "0.0.0.0", bound, g.ports[0], id))
  }

  ghost function AllocatedNetwork(ps: PoolSet, ips: IpState, id: string, network: string, ports: seq<PortSpec>,
                                  env: map<string, string>): Network
    requires ips.Valid()
  {
    if network != "" then OverlayNetwork(ps, ips, id, ports, env) else HostNetwork(ps, ips, id, ports, env)
  }

  // What releaseResources does: the allocated address in overlay mode, every port of the ID otherwise.
  function RolledBack(l: Ledger, ip: string, id: string): Ledger {
    if ip != "" then l.(ips := l.ips.(owners := l.ips.owners - {ip}))
    else l.(ports := SetReleased(l.ports, id))
  }

  // Conversion of a mathematical integer to int64.
  function Int64(n: int): int {
    (n + 0x8000_0000_0000_0000) % 0x1_0000_0000_0000_0000 - 0x8000_0000_0000_0000
  }

  const NO_OVERRIDE := ResourceOverride(0, 0.0, 0.0, 0, 0)

  function Override(req: ServerRequest): ResourceOverride {
    if req.resources.Some? then req.resources.value else NO_OVERRIDE
  }

  function FinalCPU(default: real, o: ResourceOverride): real {
    if o.maxCpuCores > 0.0 then o.maxCpuCores
    else if o.cpuLimit > 0.0 then o.cpuLimit
    else default
  }

  function FinalMemory(default: int, o: ResourceOverride): int {
    if o.maxRamMb > 0 then Int64(o.maxRamMb * 1024 * 1024)
    else if o.memoryLimit > 0 then o.memoryLimit
    else default
  }

  // Swap is pinned to a memory limit that is given in megabytes, and to no other.
  function FinalSwap(default: int, o: ResourceOverride): int {
    if o.maxRamMb > 0 then Int64(o.maxRamMb * 1024 * 1024) else default
  }

  function HeapEnv(o: ResourceOverride): map<string, string> {
    var heap := if o.jvmHeapMb == 0 && o.maxRamMb > 0 then o.maxRamMb - 1536 else o.jvmHeapMb;
    if heap > 0 then map["MEMORY" := SignedDecimal(heap) + "M"] else map[]
  }

  // ---------- the reply ----------

  function Project(setup: Setup, s: Server, id: string): PublicServer {
    PublicServer(s.id, id, setup.nodeID, id, s.status, if setup.externalHost != "" then setup.externalHost else s.ip, s.ports,
                 s.cpuLimit, s.memoryLimit)
  }

  function PortKey(p: PortSpec): string {
    if p.name == "" then SignedDecimal(p.container) else p.name
  }

  function Advertised(known: map<string, int>, ports: seq<PortSpec>): map<string, int> {
    if ports == [] then known
    else
      var last := ports[|ports| - 1];
      var m := Advertised(known, ports[..|ports| - 1]);
      if PortKey(last) in m then m else m[PortKey(last) := last.host]
  }

  function AdvertisedPorts(known: map<string, int>, ports: seq<PortSpec>, port: int): map<string, int> {
    if ports != [] then Advertised(known, ports)
    else if SignedDecimal(port) in known then known
    else known[SignedDecimal(port) := port]
  }

  // ---------- one create ----------

  // The hook's variables, the final limits and the caller's variables, in this order.
  function Equipped(draft: CreateRequest, hookEnv: map<string, string>, req: ServerRequest): CreateRequest {
    draft.(environment := draft.environment + hookEnv + HeapEnv(Override(req)) + req.env,
           cpuLimit := FinalCPU(draft.cpuLimit, Override(req)),
           memoryLimit := FinalMemory(draft.memoryLimit, Override(req)),
           memorySwap := FinalSwap(draft.memorySwap, Override(req)))
  }

  function RequestLimits(request: CreateRequest): Limits {
    Limits(request.cpuLimit, GiB(request.memoryLimit))
  }

  // The speculative entries become the new container's.
  function Settled(l: Ledger, id: string, containerID: string, ip: string): Ledger {
    var l1 := l.(cap := Committed(l.cap, id, containerID));
    if ip != "" then l1.(ips := l.ips.(owners := ReKeyed(l.ips.owners, id, containerID)))
    else l1.(ports := SetReKeyed(l.ports, id, containerID))
  }

  // From the Docker create on.
  function Launched(setup: Setup, l: Ledger, request: CreateRequest, id: string, o: Outcomes, calls: seq<Call>, port: int)
    : CreateResult
  {
    var calls1 := calls + [CreateContainer(request)];
    match o.create
    case Ok(server) =>
      var named := server.(ports := AdvertisedPorts(server.ports, request.ports, port));
      CreateResult(Settled(l, id, server.id, request.ip), Created(Project(setup, named, id)), calls1)
    case Err(e) =>
      var l1 := RolledBack(l.(cap := Released(l.cap, id)), request.ip, id);
      if !e.nameConflict then CreateResult(l1, Failed(500), calls1)
      else
        var calls2 := calls1 + LookupCalls(id, o.after);
        match Resolve(id, o.after)
        case Present(server) => CreateResult(l1, Adopted(Project(setup, server, id)), calls2)
        case _ => CreateResult(l1, Failed(500), calls2)
  }

  // From the capacity check on.
  function Contained(setup: Setup, l: Ledger, request: CreateRequest, id: string, o: Outcomes, calls: seq<Call>, port: int)
    : CreateResult
  {
    var limits := RequestLimits(request);
    if !CanFit(l.cap.alloc, limits, l.cap.budget) then CreateResult(RolledBack(l, request.ip, id), Failed(503), calls)
    else Launched(setup, l.(cap := Allocated(l.cap, id, limits)), request, id, o, calls, port)
  }

  // From the pre-start hook on.
  function Hooked(setup: Setup, l: Ledger, preStart: string, draft: CreateRequest, req: ServerRequest, id: string,
                  o: Outcomes, calls: seq<Call>, port: int): CreateResult
  {
    if preStart == "" then Contained(setup, l, Equipped(draft, map[], req), id, o, calls, port)
    else if o.hook == None then CreateResult(RolledBack(l, draft.ip, id), Failed(500), calls + [Hook(preStart)])
    else Contained(setup, l, Equipped(draft, o.hook.value, req), id, o, calls + [Hook(preStart)], port)
  }

  // From the network allocation on, for a prepared container.
  ghost function Connected(setup: Setup, l: Ledger, preStart: string, b: Blueprint, req: ServerRequest, id: string,
                           o: Outcomes, calls: seq<Call>): CreateResult
    requires l.ips.Valid()
  {
    match AllocatedNetwork(l.ports, l.ips, id, b.network, b.ports, b.environment)
    case NoNetwork(ps, ips) => CreateResult(l.(ports := ps, ips := ips), Failed(503), calls)
    case Network(ps, ips, ip, port, bound, env) =>
      var draft := CreateRequest(id, b.network, ip, env, bound, b.cpuLimit, b.memoryLimit, b.memorySwap);
      Hooked(setup, l.(ports := ps, ips := ips), preStart, draft, req, id, o, calls, port)
  }

  // From the template lookup on.
  ghost function Provisioned(setup: Setup, l: Ledger, req: ServerRequest, id: string, o: Outcomes, calls: seq<Call>)
    : CreateResult
    requires l.ips.Valid()
  {
    if req.templateName !in setup.templates then CreateResult(l, Failed(404), calls)
    else
      var t := setup.templates[req.templateName];
      var ports := FilteredPorts(t.container.ports, t.engines, req.env);
      var env := t.container.environment + t.server;
      Connected(setup, l, t.preStart, t.container.(ports := ports, environment := env), req, id, o, calls)
  }

  function GeneratedID(templateName: string, nanos: nat): string {
    templateName + "-" + Decimal(nanos)
  }

  function EffectiveID(req: ServerRequest, o: Outcomes): string {
    if req.serverID == "" then GeneratedID(req.templateName, o.nanos) else req.serverID
  }

  // CreateFenced has a failed runtime in the way and is allowed to replace it.
  predicate Recovers(setup: Setup, req: ServerRequest, key: string, effect: string, o: Outcomes) {
    && req.serverID != ""
    && Resolve(req.serverID, o.before).Present?
    && FailedStatus(Resolve(req.serverID, o.before).server.status)
    && setup.canRecover && ValidToken(key) && ValidToken(effect)
  }

  datatype Admission = Done(reply: Reply, calls: seq<Call>) | Proceed(ledger: Ledger, calls: seq<Call>)

  // What the lookup of a requested server ID leads to.
  function Admitted(setup: Setup, l: Ledger, req: ServerRequest, key: string, effect: string, o: Outcomes,
                    freed: Option<string>): Admission
  {
    if req.serverID == "" then Proceed(l, [])
    else
      var calls := LookupCalls(req.serverID, o.before);
      match Resolve(req.serverID, o.before)
      case Unclear => Done(Failed(500), calls)
      case Absent => Proceed(l, calls)
      case Present(server) =>
        if !FailedStatus(server.status) then Done(Adopted(Project(setup, server, req.serverID)), calls)
        else if !setup.canRecover || !ValidToken(key) || !ValidToken(effect) then Done(Failed(409), calls)
        else if DestroyFails(o.destroy) then Done(Failed(500), calls + [Destroy(server.id)])
        else Proceed(Retired(l, server.id, false, req.serverID, freed), calls + [Destroy(server.id)])
  }

  // CreateFenced.
  ghost function CreateSpec(setup: Setup, l: Ledger, req: ServerRequest, key: string, effect: string, o: Outcomes,
                            freed: Option<string>): CreateResult
    requires l.ips.Valid()
  {
    match Admitted(setup, l, req, key, effect, o, freed)
    case Done(reply, calls) => CreateResult(l, reply, calls)
    case Proceed(l1, calls) => Provisioned(setup, l1, req, EffectiveID(req, o), o, calls)
  }
}
