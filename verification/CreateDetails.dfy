// What a create says to Docker and to its caller, field by field: the container it asks for, its
// calls in order, its reply, and the ports that the platform filter keeps.
module CreateDetails {
  import opened Text
  import opened Tokens
  import opened Capacity
  import opened Ports
  import opened PortGrants
  import opened Ips
  import opened Docker
  import opened Creation
  import opened Rollback
  import opened CreateOutcomes

  // ---------- which ports are kept ----------

  // The filter keeps every port but those of inactive platforms, as often as it is there.
  lemma {:induction false} FilterKeepsExactly(ports: seq<PortSpec>, active: set<string>, p: PortSpec)
    ensures multiset(KeptPorts(ports, active))[p] == if Dropped(p, active) then 0 else multiset(ports)[p]
  {
    if ports != [] {
      var n := |ports| - 1;
      FilterKeepsExactly(ports[..n], active, p);
      assert ports == ports[..n] + [ports[n]];
    }
  }

  // It keeps them in their order: it can be applied piece by piece.
  lemma {:induction false} FilterKeepsOrder(a: seq<PortSpec>, b: seq<PortSpec>, active: set<string>)
    ensures KeptPorts(a + b, active) == KeptPorts(a, active) + KeptPorts(b, active)
    decreases |b|
  {
    if b == [] {
      assert a + b == a;
    } else {
      var n := |b| - 1;
      FilterKeepsOrder(a, b[..n], active);
      assert (a + b)[..|a + b| - 1] == a + b[..n];
    }
  }

  // The engine option that the ENGINE variable selects, the first of its value, names the platform.
  predicate EngineNames(engines: seq<EngineOption>, engine: string, platform: string) {
    exists i :: 0 <= i < |engines| && engines[i].value == engine && platform in engines[i].platforms &&
      forall j :: 0 <= j < i ==> engines[j].value != engine
  }

  lemma {:induction false} ActiveForIff(engines: seq<EngineOption>, engine: string, platform: string)
    ensures platform in ActiveFor(engines, engine) <==> EngineNames(engines, engine, platform)
  {
    if engines != [] && engines[0].value != engine {
      ActiveForIff(engines[1..], engine, platform);
      if i :| 0 <= i < |engines[1..]| && engines[1..][i].value == engine && platform in engines[1..][i].platforms &&
              forall j :: 0 <= j < i ==> engines[1..][j].value != engine {
        assert engines[i + 1].value == engine;
        assert forall j :: 0 < j < i + 1 ==> engines[j] == engines[1..][j - 1];
      }
      if i :| 0 <= i < |engines| && engines[i].value == engine && platform in engines[i].platforms &&
              forall j :: 0 <= j < i ==> engines[j].value != engine {
        assert engines[1..][i - 1] == engines[i];
        assert forall j :: 0 <= j < i - 1 ==> engines[1..][j] == engines[j + 1];
      }
    }
  }

  // A platform is active if the selected engine names it, or for crossplay if it is bedrock.
  predicate PlatformActive(engines: seq<EngineOption>, env: map<string, string>, platform: string) {
    || EngineNames(engines, if "ENGINE" in env then env["ENGINE"] else "", platform)
    || (platform == "bedrock" && "_CROSSPLAY" in env && env["_CROSSPLAY"] == "true")
  }

  // Taken away are the java and bedrock ports of platforms that are not active, unless the template
  // has no engines or no platform is active at all.
  ghost predicate PortRemoved(engines: seq<EngineOption>, env: map<string, string>, p: PortSpec) {
    && engines != [] && (exists platform :: PlatformActive(engines, env, platform))
    && (p.name == "java" || p.name == "bedrock") && !PlatformActive(engines, env, p.name)
  }

  lemma ActivePlatformsIff(engines: seq<EngineOption>, env: map<string, string>)
    ensures forall platform :: platform in ActivePlatforms(engines, env) <==> PlatformActive(engines, env, platform)
  {
    forall platform
      ensures platform in ActivePlatforms(engines, env) <==> PlatformActive(engines, env, platform)
    {
      ActiveForIff(engines, ValueOf(env, "ENGINE"), platform);
    }
  }

  lemma FilteredIff(ports: seq<PortSpec>, engines: seq<EngineOption>, env: map<string, string>, p: PortSpec)
    ensures multiset(FilteredPorts(ports, engines, env))[p] ==
            if PortRemoved(engines, env, p) then 0 else multiset(ports)[p]
  {
    ActivePlatformsIff(engines, env);
    FilterKeepsExactly(ports, ActivePlatforms(engines, env), p);
    hide ActivePlatforms, PlatformActive, KeptPorts;
    if exists platform :: PlatformActive(engines, env, platform) {
      var platform :| PlatformActive(engines, env, platform);
      assert platform in ActivePlatforms(engines, env);
    }
  }

  // ---------- the variables of the network ----------

  // The last of the ports whose variable this is.
  predicate LastNamed(ports: seq<PortSpec>, k: string, i: nat) {
    && i < |ports| && ports[i].name != "" && k == "PORT_" + ToUpper(ports[i].name)
    && forall j :: i < j < |ports| && ports[j].name != "" ==> "PORT_" + ToUpper(ports[j].name) != k
  }

  // k has its value from the port of that name or, if there is none, from env.
  ghost predicate PortVarSays(after: map<string, string>, env: map<string, string>, ports: seq<PortSpec>, k: string) {
    if exists i: nat :: LastNamed(ports, k, i)
    then k in after && exists i: nat :: LastNamed(ports, k, i) && after[k] == SignedDecimal(ports[i].container)
    else (k in after <==> k in env) && (k in env ==> after[k] == env[k])
  }

  lemma LastNamedStep(ports: seq<PortSpec>, k: string, i: nat)
    requires ports != []
    ensures var n, last := |ports| - 1, ports[|ports| - 1];
            if last.name != "" && k == "PORT_" + ToUpper(last.name) then LastNamed(ports, k, i) <==> i == n
            else LastNamed(ports, k, i) <==> LastNamed(ports[..n], k, i)
  {
  }

  lemma LastNamedIsIndex(ports: seq<PortSpec>, k: string)
    ensures forall i: nat :: LastNamed(ports, k, i) ==> i < |ports|
  {
  }

  lemma {:induction false} WithPortVarsSay(env: map<string, string>, ports: seq<PortSpec>, k: string)
    ensures PortVarSays(WithPortVars(env, ports), env, ports, k)
  {
    if ports != [] {
      var n := |ports| - 1;
      WithPortVarsSay(env, ports[..n], k);
      forall i: nat
        ensures var last := ports[n];
                if last.name != "" && k == "PORT_" + ToUpper(last.name) then LastNamed(ports, k, i) <==> i == n
                else LastNamed(ports, k, i) <==> LastNamed(ports[..n], k, i)
      {
        LastNamedStep(ports, k, i);
      }
      LastNamedIsIndex(ports[..n], k);
      hide LastNamed, ToUpper, SignedDecimal;
      if ports[n].name != "" && k == "PORT_" + ToUpper(ports[n].name) {
        assert LastNamed(ports, k, n);
      } else if i: nat :| LastNamed(ports[..n], k, i) && WithPortVars(env, ports[..n])[k] == SignedDecimal(ports[..n][i].container) {
        assert LastNamed(ports, k, i) && ports[i] == ports[..n][i];
      }
    }
  }

  // The variable as the network sets it: the server's ID, port and host, then the ports by name, and
  // everything else as the template has it.
  ghost predicate NetworkSays(env: map<string, string>, b: Blueprint, ports: seq<PortSpec>, host: string, port: int, id: string, k: string)
  {
    if k == "SERVER_ID" then k in env && env[k] == id
    else if k == "SERVER_PORT" then k in env && env[k] == SignedDecimal(port)
    else if k == "SERVER_HOST" then k in env && env[k] == host
    else PortVarSays(env, b.environment, ports, k)
  }

  lemma PortVarIsOther(name: string)
    ensures "PORT_" + name !in ["SERVER_ID", "SERVER_PORT", "SERVER_HOST"]
  {
    assert ("PORT_" + name)[0] == 'P';
  }

  lemma PortVarsAreOthers(ports: seq<PortSpec>, k: string)
    requires k in ["SERVER_ID", "SERVER_PORT", "SERVER_HOST"]
    ensures forall i: nat :: !LastNamed(ports, k, i)
  {
    forall i: nat
      ensures !LastNamed(ports, k, i)
    {
      if i < |ports| {
        PortVarIsOther(ToUpper(ports[i].name));
      }
    }
  }

  lemma NetworkEnvSays(b: Blueprint, host: string, ports: seq<PortSpec>, port: int, id: string, k: string)
    ensures NetworkSays(NetworkEnv(b.environment, host, ports, port, id), b, ports, host, port, id, k)
  {
    WithPortVarsSay(b.environment["SERVER_HOST" := host], ports, k);
    if k in ["SERVER_ID", "SERVER_PORT", "SERVER_HOST"] {
      PortVarsAreOthers(ports, k);
    }
    hide LastNamed, WithPortVars, SignedDecimal;
  }

  // ---------- the container that Docker is asked for ----------

  // In overlay mode the container has an address and the template's ports; in host mode the granted
  // ports, inside and outside.
  ghost predicate PortsAsAsked(ps: PoolSet, b: Blueprint, id: string, ip: string, ports: seq<PortSpec>) {
    if b.network != "" then ports == b.ports && ip != ""
    else
      && ip == "" && |ports| == |b.ports| && |HostGrant(ps, b.ports, id)| >= |ports|
      && forall i :: 0 <= i < |ports| ==>
           var n := HostGrant(ps, b.ports, id)[i];
           ports[i] == PortSpec(n, n, b.ports[i].protocol, b.ports[i].name, b.ports[i].range)
  }

  // The port that goes by SERVER_PORT.
  ghost predicate MainPort(ps: PoolSet, b: Blueprint, id: string, port: int) {
    if b.network != "" then port == if b.ports == [] then 5520 else b.ports[0].container
    else |HostGrant(ps, b.ports, id)| > 0 && port == HostGrant(ps, b.ports, id)[0]
  }

  predicate IsInt64Of(v: int, n: int) {
    -9223372036854775808 <= v <= 9223372036854775807 && (v - n) % 18446744073709551616 == 0
  }

  // Cores and megabytes of the request win over its cores and bytes, and these over the template;
  // megabytes pin the swap.
  predicate LimitsAsAsked(q: CreateRequest, b: Blueprint, req: ServerRequest) {
    match req.resources
    case None => q.cpuLimit == b.cpuLimit && q.memoryLimit == b.memoryLimit && q.memorySwap == b.memorySwap
    case Some(r) =>
      && q.cpuLimit == (if r.maxCpuCores > 0.0 then r.maxCpuCores else if r.cpuLimit > 0.0 then r.cpuLimit else b.cpuLimit)
      && (if r.maxRamMb > 0 then IsInt64Of(q.memoryLimit, r.maxRamMb * 1048576) && q.memorySwap == q.memoryLimit
          else q.memoryLimit == (if r.memoryLimit > 0 then r.memoryLimit else b.memoryLimit) && q.memorySwap == b.memorySwap)
  }

  // The heap in megabytes: as requested, or what 1536 leave of the memory.
  function Heap(req: ServerRequest): int {
    match req.resources
    case None => 0
    case Some(r) => if r.jvmHeapMb != 0 then r.jvmHeapMb else if r.maxRamMb > 0 then r.maxRamMb - 1536 else 0
  }

  // The caller's variable wins over the memory of the heap, that over the hook's, and this over the
  // network's and the template's.
  ghost predicate VariableAsAsked(q: CreateRequest, b: Blueprint, req: ServerRequest, hookEnv: map<string, string>, port: int, id: string,
                            k: string)
  {
    if k in req.env then k in q.environment && q.environment[k] == req.env[k]
    else if k == "MEMORY" && Heap(req) > 0 then k in q.environment && q.environment[k] == SignedDecimal(Heap(req)) + "M"
    else if k in hookEnv then k in q.environment && q.environment[k] == hookEnv[k]
    else NetworkSays(q.environment, b, q.ports, if b.network != "" then q.ip else "0.0.0.0", port, id, k)
  }

  ghost predicate AsAsked(q: CreateRequest, ps: PoolSet, b: Blueprint, req: ServerRequest, hookEnv: map<string, string>, id: string) {
    && q.name == id && q.network == b.network
    && PortsAsAsked(ps, b, id, q.ip, q.ports) && LimitsAsAsked(q, b, req)
    && exists port :: MainPort(ps, b, id, port) && forall k :: VariableAsAsked(q, b, req, hookEnv, port, id, k)
  }

  function HookEnv(preStart: string, o: Outcomes): map<string, string> {
    if preStart == "" || o.hook.None? then map[] else o.hook.value
  }

  lemma Int64Wraps(n: int)
    ensures IsInt64Of(Int64(n), n)
  {
  }

  lemma NetworkAsAsked(ps: PoolSet, ips: IpState, id: string, b: Blueprint)
    requires ips.Valid()
    ensures var net := AllocatedNetwork(ps, ips, id, b.network, b.ports, b.environment);
            net.Network? ==>
              && PortsAsAsked(ps, b, id, net.ip, net.ports) && MainPort(ps, b, id, net.port)
              && net.env == NetworkEnv(b.environment, if b.network != "" then net.ip else "0.0.0.0", net.ports, net.port, id)
  {
    hide AllocateEach, NetworkEnv, SetAllocated;
    if b.network != "" && IpAllocated(ips, id).1.Some? {
      AddressGivenBack(ips, id);
    }
  }

  lemma SameVariable(env: map<string, string>, after: map<string, string>, b: Blueprint, ports: seq<PortSpec>, host: string,
                     port: int, id: string, k: string)
    requires NetworkSays(env, b, ports, host, port, id, k) && (k in after <==> k in env) && (k in env ==> after[k] == env[k])
    ensures NetworkSays(after, b, ports, host, port, id, k)
  {
    hide LastNamed;
  }

  lemma EquippedAsAsked(draft: CreateRequest, ps: PoolSet, b: Blueprint, req: ServerRequest, hookEnv: map<string, string>,
                        port: int, id: string)
    requires draft.name == id && draft.network == b.network && PortsAsAsked(ps, b, id, draft.ip, draft.ports)
    requires draft.cpuLimit == b.cpuLimit && draft.memoryLimit == b.memoryLimit && draft.memorySwap == b.memorySwap
    requires MainPort(ps, b, id, port)
    requires draft.environment ==
             NetworkEnv(b.environment, if b.network != "" then draft.ip else "0.0.0.0", draft.ports, port, id)
    ensures AsAsked(Equipped(draft, hookEnv, req), ps, b, req, hookEnv, id)
  {
    var q := Equipped(draft, hookEnv, req);
    Int64Wraps(Override(req).maxRamMb * 1024 * 1024);
    hide Int64, PortsAsAsked, MainPort, NetworkEnv, NetworkSays, SignedDecimal;
    forall k
      ensures VariableAsAsked(q, b, req, hookEnv, port, id, k)
    {
      var host := if b.network != "" then draft.ip else "0.0.0.0";
      NetworkEnvSays(b, host, draft.ports, port, id, k);
      if k !in req.env && !(k == "MEMORY" && Heap(req) > 0) && k !in hookEnv {
        SameVariable(draft.environment, q.environment, b, draft.ports, host, port, id, k);
      }
    }
  }

  lemma HookedAsks(setup: Setup, l: Ledger, preStart: string, draft: CreateRequest, req: ServerRequest, id: string,
                   o: Outcomes, calls: seq<Call>, port: int)
    requires forall c :: c in calls ==> !c.CreateContainer?
    ensures forall c :: c in Hooked(setup, l, preStart, draft, req, id, o, calls, port).calls && c.CreateContainer? ==>
              c.request == Equipped(draft, HookEnv(preStart, o), req)
  {
    hide Equipped, Project, AdvertisedPorts, RolledBack, Settled, Resolve;
  }

  // The one container that Docker is asked for is as the template, the network, the hook and the
  // caller have it: its ports, its limits, and every variable.
  lemma ContainerAsAsked(setup: Setup, l: Ledger, preStart: string, b: Blueprint, req: ServerRequest, id: string,
                         o: Outcomes, calls: seq<Call>)
    requires l.ips.Valid() && forall c :: c in calls ==> !c.CreateContainer?
    ensures forall c :: c in Connected(setup, l, preStart, b, req, id, o, calls).calls && c.CreateContainer? ==>
              AsAsked(c.request, l.ports, b, req, HookEnv(preStart, o), id)
  {
    hide Hooked, AllocatedNetwork, AsAsked, Equipped, NetworkEnv;
    var net := AllocatedNetwork(l.ports, l.ips, id, b.network, b.ports, b.environment);
    NetworkAsAsked(l.ports, l.ips, id, b);
    if net.Network? {
      var draft := CreateRequest(id, b.network, net.ip, net.env, net.ports, b.cpuLimit, b.memoryLimit, b.memorySwap);
      HookedAsks(setup, l.(ports := net.ps, ips := net.ips), preStart, draft, req, id, o, calls, net.port);
      EquippedAsAsked(draft, l.ports, b, req, HookEnv(preStart, o), net.port, id);
    }
  }

  // ---------- what the reply shows ----------

  // Docker's server under the logical ID, which also names its world; the external host, if there is
  // one, hides the address.
  predicate Shows(r: PublicServer, s: Server, setup: Setup, id: string) {
    && r.id == s.id && r.name == id && r.worldName == id && r.nodeID == setup.nodeID && r.status == s.status
    && r.ip == (if setup.externalHost == "" then s.ip else setup.externalHost)
    && r.cpuLimit == s.cpuLimit && r.memoryLimit == s.memoryLimit
  }

  // The first of the ports that goes by this key: its name, or its number if it has none.
  predicate FirstKeyed(ports: seq<PortSpec>, k: string, i: nat) {
    && i < |ports| && k == (if ports[i].name == "" then SignedDecimal(ports[i].container) else ports[i].name)
    && forall j :: 0 <= j < i ==> k != if ports[j].name == "" then SignedDecimal(ports[j].container) else ports[j].name
  }

  // What Docker tells stays; the ports of the container, or its one port, are added where it tells nothing.
  ghost predicate PortShown(shown: map<string, int>, known: map<string, int>, ports: seq<PortSpec>, port: int, k: string) {
    if k in known then k in shown && shown[k] == known[k]
    else if ports == [] then (k in shown <==> k == SignedDecimal(port)) && (k in shown ==> shown[k] == port)
    else
      && (k in shown <==> exists i: nat :: FirstKeyed(ports, k, i))
      && (forall i: nat :: FirstKeyed(ports, k, i) ==> k in shown && shown[k] == ports[i].host)
  }

  ghost predicate PortsShown(shown: map<string, int>, known: map<string, int>, ports: seq<PortSpec>, port: int) {
    forall k :: PortShown(shown, known, ports, port, k)
  }

  lemma {:induction false} FirstOf(ports: seq<PortSpec>, k: string, j: nat) returns (first: nat)
    requires j < |ports| && k == PortKey(ports[j])
    ensures FirstKeyed(ports, k, first)
  {
    if i :| 0 <= i < j && k == PortKey(ports[i]) {
      first := FirstOf(ports, k, i);
    } else {
      first := j;
    }
  }

  lemma FirstKeyedStep(ports: seq<PortSpec>, k: string)
    requires ports != []
    ensures var n := |ports| - 1;
            forall i: nat :: FirstKeyed(ports, k, i) <==>
              FirstKeyed(ports[..n], k, i) || (i == n && k == PortKey(ports[n]) && forall j: nat :: !FirstKeyed(ports[..n], k, j))
  {
    var n := |ports| - 1;
    if j :| 0 <= j < n && k == PortKey(ports[j]) {
      var first := FirstOf(ports[..n], k, j);
    }
  }

  lemma {:induction false} AdvertisedShows(known: map<string, int>, ports: seq<PortSpec>, k: string)
    ensures var shown := Advertised(known, ports);
            if k in known then k in shown && shown[k] == known[k]
            else
              && (k in shown <==> exists i: nat :: FirstKeyed(ports, k, i))
              && (forall i: nat :: FirstKeyed(ports, k, i) ==> k in shown && shown[k] == ports[i].host)
  {
    if ports != [] {
      var n := |ports| - 1;
      AdvertisedShows(known, ports[..n], k);
      FirstKeyedStep(ports, k);
      hide SignedDecimal;
      if i: nat :| FirstKeyed(ports[..n], k, i) {
        assert FirstKeyed(ports, k, i);
      } else if k == PortKey(ports[n]) {
        assert FirstKeyed(ports, k, n);
      }
      assert forall i: nat :: FirstKeyed(ports[..n], k, i) ==> ports[i] == ports[..n][i];
    }
  }

  lemma PortsAreShown(known: map<string, int>, ports: seq<PortSpec>, port: int)
    ensures PortsShown(AdvertisedPorts(known, ports, port), known, ports, port)
  {
    forall k
      ensures PortShown(AdvertisedPorts(known, ports, port), known, ports, port, k)
    {
      AdvertisedShows(known, ports, k);
      hide SignedDecimal, FirstKeyed;
    }
  }

  // The reply of a new container, for the request that Docker was asked for last.
  ghost predicate ShowsNew(r: CreateResult, setup: Setup, id: string, s: Server, ps: PoolSet, b: Blueprint) {
    && r.reply.Created? && Shows(r.reply.server, s, setup, id)
    && r.calls != [] && r.calls[|r.calls| - 1].CreateContainer?
    && exists port :: MainPort(ps, b, id, port) &&
         PortsShown(r.reply.server.ports, s.ports, r.calls[|r.calls| - 1].request.ports, port)
  }

  predicate ShowsFound(r: CreateResult, setup: Setup, id: string, s: Server) {
    r.reply.Adopted? && Shows(r.reply.server, s, setup, id) && r.reply.server.ports == s.ports
  }

  lemma HookedReplies(setup: Setup, l: Ledger, preStart: string, draft: CreateRequest, b: Blueprint, req: ServerRequest,
                      id: string, o: Outcomes, calls: seq<Call>, port: int, ps: PoolSet)
    requires MainPort(ps, b, id, port)
    ensures var r := Hooked(setup, l, preStart, draft, req, id, o, calls, port);
            && (r.reply.Created? ==> o.create.Ok? && ShowsNew(r, setup, id, o.create.value, ps, b))
            && (r.reply.Adopted? ==> Resolve(id, o.after).Present? && ShowsFound(r, setup, id, Resolve(id, o.after).server))
  {
    var q := Equipped(draft, HookEnv(preStart, o), req);
    if o.create.Ok? {
      PortsAreShown(o.create.value.ports, q.ports, port);
    }
    hide PortsShown, MainPort, Resolve, RolledBack, Settled, CanFit, HeapEnv, AdvertisedPorts;
  }

  lemma ConnectedReplies(setup: Setup, l: Ledger, preStart: string, b: Blueprint, req: ServerRequest, id: string,
                         o: Outcomes, calls: seq<Call>)
    requires l.ips.Valid()
    ensures var r := Connected(setup, l, preStart, b, req, id, o, calls);
            && (r.reply.Created? ==> o.create.Ok? && ShowsNew(r, setup, id, o.create.value, l.ports, b))
            && (r.reply.Adopted? ==> Resolve(id, o.after).Present? && ShowsFound(r, setup, id, Resolve(id, o.after).server))
  {
    hide Hooked, AllocatedNetwork, ShowsNew, ShowsFound, MainPort;
    NetworkAsAsked(l.ports, l.ips, id, b);
    var net := AllocatedNetwork(l.ports, l.ips, id, b.network, b.ports, b.environment);
    if net.Network? {
      var draft := CreateRequest(id, b.network, net.ip, net.env, net.ports, b.cpuLimit, b.memoryLimit, b.memorySwap);
      HookedReplies(setup, l.(ports := net.ps, ips := net.ips), preStart, draft, b, req, id, o, calls, net.port, l.ports);
    }
  }

  // The logical ID: the caller's, or the template's name and the time.
  predicate IsLogicalID(req: ServerRequest, o: Outcomes, id: string) {
    if req.serverID != "" then id == req.serverID else id == req.templateName + "-" + Decimal(o.nanos)
  }

  // Every reply of a create shows a server of Docker's: the new one; or the one found before, or
  // after a lost race.
  lemma RepliesShow(setup: Setup, l: Ledger, req: ServerRequest, key: string, effect: string, o: Outcomes, freed: Option<string>)
    returns (id: string)
    requires l.ips.Valid()
    ensures IsLogicalID(req, o, id)
    ensures var r := CreateSpec(setup, l, req, key, effect, o, freed);
            match r.reply
            case Failed(_) => true
            case Created(_) =>
              && o.create.Ok? && HasTemplate(setup, req)
              && ShowsNew(r, setup, id, o.create.value, BaseLedger(setup, l, req, key, effect, o, freed).ports, Prepared(setup, req))
            case Adopted(_) =>
              || (req.serverID != "" && Resolve(id, o.before).Present? && ShowsFound(r, setup, id, Resolve(id, o.before).server))
              || (Resolve(id, o.after).Present? && ShowsFound(r, setup, id, Resolve(id, o.after).server))
  {
    id := EffectiveID(req, o);
    AdmittedOutcome(setup, l, req, key, effect, o, freed);
    hide Connected, ShowsNew, Resolve, FailedStatus;
    var admission := Admitted(setup, l, req, key, effect, o, freed);
    if admission.Proceed? && HasTemplate(setup, req) {
      ConnectedReplies(setup, admission.ledger, setup.templates[req.templateName].preStart, Prepared(setup, req), req, id, o,
                       admission.calls);
    }
  }

  // ---------- the calls in their order ----------

  // A lookup asks for the name and, if that is missing, in the scope.
  function LookupsOf(id: string, l: Lookup): seq<Call> {
    [Get(id)] + if l.get.Err? && l.get.error.notFound then [GetOwned(id)] else []
  }

  // From the template on: the hook if there is one, the container if it fits, and after a name
  // conflict the lookup again; each only if what comes before it went well.
  function AskedInOrder(calls: seq<Call>, preStart: string, id: string, o: Outcomes, room: bool, fits: bool, q: CreateRequest)
    : seq<Call>
  {
    var asks := room && (preStart == "" || o.hook.Some?) && fits;
    calls + (if room && preStart != "" then [Hook(preStart)] else []) +
    (if asks then [CreateContainer(q)] else []) +
    (if asks && o.create.Err? && o.create.error.nameConflict then LookupsOf(id, o.after) else [])
  }

  lemma HookedCalls(setup: Setup, l: Ledger, preStart: string, draft: CreateRequest, b: Blueprint, req: ServerRequest,
                    id: string, o: Outcomes, calls: seq<Call>, port: int)
    requires draft.cpuLimit == b.cpuLimit && draft.memoryLimit == b.memoryLimit
    ensures Hooked(setup, l, preStart, draft, req, id, o, calls, port).calls ==
            AskedInOrder(calls, preStart, id, o, true, CanFit(l.cap.alloc, FinalLimits(b, req), l.cap.budget),
                         Equipped(draft, HookEnv(preStart, o), req))
  {
    hide Project, AdvertisedPorts, RolledBack, Settled, Resolve, HeapEnv, FinalCPU, FinalMemory, FinalSwap;
    assert calls + [] == calls;
  }

  lemma ConnectedCalls(setup: Setup, l: Ledger, preStart: string, b: Blueprint, req: ServerRequest, id: string,
                       o: Outcomes, calls: seq<Call>)
    requires l.ips.Valid()
    ensures exists q :: Connected(setup, l, preStart, b, req, id, o, calls).calls ==
                        AskedInOrder(calls, preStart, id, o, NetworkHasRoom(l, b),
                                     CanFit(l.cap.alloc, FinalLimits(b, req), l.cap.budget), q)
  {
    hide Hooked, AllocatedNetwork, CanFit, FinalLimits, NetworkHasRoom, LookupsOf;
    NetworkAllocatedIff(l, b, id);
    var net := AllocatedNetwork(l.ports, l.ips, id, b.network, b.ports, b.environment);
    if net.Network? {
      var draft := CreateRequest(id, b.network, net.ip, net.env, net.ports, b.cpuLimit, b.memoryLimit, b.memorySwap);
      HookedCalls(setup, l.(ports := net.ps, ips := net.ips), preStart, draft, b, req, id, o, calls, net.port);
    } else {
      var fits := CanFit(l.cap.alloc, FinalLimits(b, req), l.cap.budget);
      assert AskedInOrder(calls, preStart, id, o, false, fits, CreateRequest("", "", "", map[], [], 0.0, 0, 0)) == calls;
    }
  }

  predicate SameLetters(s: string, lower: string) {
    |s| == |lower| && forall i :: 0 <= i < |s| ==>
      s[i] == lower[i] || (65 <= s[i] as int <= 90 && s[i] as int + 32 == lower[i] as int)
  }

  // The status of a runtime that may be replaced, in any letter case and with any space around it.
  predicate SaysFailed(status: string) {
    exists w :: w in ["stopped", "exited", "dead"] && SameLetters(TrimSpace(status), w)
  }

  lemma LowerIff(s: string, w: string)
    requires forall c :: c in w ==> 'a' <= c <= 'z'
    ensures ToLower(s) == w <==> SameLetters(s, w)
  {
    assert ToLower(s) == w <==> |s| == |w| && forall i :: 0 <= i < |s| ==> LowerChar(s[i]) == w[i];
    forall i | 0 <= i < |s| && |s| == |w|
      ensures LowerChar(s[i]) == w[i] <==> s[i] == w[i] || (65 <= s[i] as int <= 90 && s[i] as int + 32 == w[i] as int)
    {
      assert w[i] in w;
    }
  }

  lemma FailedStatusIff(status: string)
    ensures FailedStatus(status) <==> SaysFailed(status)
  {
    var s := TrimSpace(status);
    forall w | w in ["stopped", "exited", "dead"]
      ensures ToLower(s) == w <==> SameLetters(s, w)
    {
      LowerIff(s, w);
    }
  }

  // What the lookup of a requested ID leads to. An unclear answer is a 500; a runtime that has not
  // failed is adopted; a failed one is a conflict without the means and both tokens, a 500 if it
  // cannot be destroyed, and is retired otherwise. Only then, or with nothing found, does the create
  // go on, after just these calls.
  lemma AdmissionLeads(setup: Setup, l: Ledger, req: ServerRequest, key: string, effect: string, o: Outcomes, freed: Option<string>)
    requires l.ips.Valid()
    ensures var r := CreateSpec(setup, l, req, key, effect, o, freed);
            var found, lookups := Resolve(req.serverID, o.before), LookupsOf(req.serverID, o.before);
            if req.serverID == "" then Admitted(setup, l, req, key, effect, o, freed) == Proceed(l, [])
            else if found.Unclear? then r == CreateResult(l, Failed(500), lookups)
            else if found.Absent? then Admitted(setup, l, req, key, effect, o, freed) == Proceed(l, lookups)
            else if !SaysFailed(found.server.status) then r.ledger == l && r.reply.Adopted? && r.calls == lookups
            else if !(setup.canRecover && ValidToken(key) && ValidToken(effect)) then r == CreateResult(l, Failed(409), lookups)
            else if o.destroy.Some? && !o.destroy.value.notFound
            then r == CreateResult(l, Failed(500), lookups + [Destroy(found.server.id)])
            else Admitted(setup, l, req, key, effect, o, freed) ==
                 Proceed(Retired(l, found.server.id, false, req.serverID, freed), lookups + [Destroy(found.server.id)])
  {
    if Resolve(req.serverID, o.before).Present? {
      FailedStatusIff(Resolve(req.serverID, o.before).server.status);
    }
    hide Connected, Provisioned, Resolve, FailedStatus, SaysFailed, ValidToken, Retired, Project;
  }
}
