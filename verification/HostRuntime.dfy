// pulp-cell/host_agent_runtime.go: the engine behind the assignment client, which drives the
// ledgers, and the heartbeat.
module HostRuntime {
  import opened Text
  import opened Tokens
  import opened Ips
  import opened Docker
  import opened Creation
  import opened Rollback
  import Core = CreationCore
  import Agent = HostAgent

  // ---------- the engine ----------

  // What a payload decodes to.
  datatype Executable = Executable(templateName: string, environment: map<string, string>, cpuMillicores: int, memoryBytes: int)

  const REFUSED := Agent.EngineResult("", "", Some(Agent.EngineError("", None)))
  const PERMANENT := Agent.EngineResult("", "", Some(Agent.EngineError("", Some(false))))

  function RequestFor(inv: Agent.Invocation, spec: Executable): ServerRequest {
    ServerRequest(spec.templateName, inv.workloadID, spec.environment,
                  Some(NO_OVERRIDE.(cpuLimit := spec.cpuMillicores as real / 1000.0, memoryLimit := spec.memoryBytes)))
  }

  // Millicores are thousandths; cores and bytes are all that is overridden.
  lemma RequestIs(inv: Agent.Invocation, spec: Executable)
    ensures var req := RequestFor(inv, spec);
            && req.templateName == spec.templateName && req.serverID == inv.workloadID && req.env == spec.environment
            && req.resources.Some?
            && (var r := req.resources.value;
                && r.cpuLimit * 1000.0 == spec.cpuMillicores as real && r.memoryLimit == spec.memoryBytes
                && r.maxCpuCores == 0.0 && r.maxRamMb == 0 && r.jvmHeapMb == 0)
  {
  }

  predicate Addressed(localHost: string, inv: Agent.Invocation) {
    inv.hostID == localHost && inv.workloadID != ""
  }

  function EngineReply(reply: Reply): Agent.EngineResult {
    if reply.Failed? then REFUSED else Agent.EngineResult("running", reply.server.id, None)
  }

  // Deletion of a workload's runtime, once the lookup is settled.
  function EngineDeleted(l: Ledger, id: string, found: Resolved, destroy: Option<DockerError>, freed: Option<string>)
    : (Ledger, Agent.EngineResult)
  {
    match found
    case Unclear => (l, REFUSED)
    case Absent => (l, Agent.EngineResult("deleted", "", None))
    case Present(server) =>
      if DestroyFails(destroy) then (l, REFUSED)
      else (Retired(l, server.id, false, id, freed), Agent.EngineResult("deleted", "", None))
  }

  class HostAgentEngine {
    const localHost: string
    const create: Core.CreationCore

    constructor (localHost: string, create: Core.CreationCore)
      ensures this.localHost == localHost && this.create == create
    {
      this.localHost, this.create := localHost, create;
    }

    // spec is what the payload decodes to, if it does; the assignment key is both fencing tokens.
    method Create(inv: Agent.Invocation, spec: Option<Executable>, o: Outcomes)
      returns (r: Agent.EngineResult, calls: seq<Call>, freed: Option<string>)
      requires create.Valid() && create.Loaded()
      modifies create.capacity, create.ipp, create.portPools, create.portPools.fallback, create.portPools.pools.Values
      ensures create.Valid() && fresh(create.portPools.pools.Values - old(create.portPools.pools.Values))
      ensures create.Loaded() && create.Settings() == old(create.Settings())
      ensures inv.hostID != localHost || inv.workloadID == "" || spec.None? ==>
                && create.View() == old(create.View()) && r.error.Some?
                && r.error.value.retryable == if inv.hostID != localHost || inv.workloadID == "" then None else Some(false)
      ensures inv.hostID == localHost && inv.workloadID != "" && spec.Some? ==>
                var made := CreateSpec(old(create.Settings()), old(create.View()), RequestFor(inv, spec.value), inv.key, inv.key, o, freed);
                && create.View() == made.ledger && calls == made.calls
                && (if made.reply.Failed? then r.error.Some? && r.error.value.retryable == None
                    else r == Agent.EngineResult("running", made.reply.server.id, None))
    {
      hide CreateSpec;
      calls, freed := [], None;
      if !Addressed(localHost, inv) {
        return REFUSED, calls, freed;
      }
      if spec.None? {
        return PERMANENT, calls, freed;
      }
      var reply;
      reply, calls, freed := create.CreateFenced(RequestFor(inv, spec.value), inv.key, inv.key, o);
      r := EngineReply(reply);
    }

    method Delete(inv: Agent.Invocation, lookup: Lookup, destroy: Option<DockerError>)
      returns (r: Agent.EngineResult, freed: Option<string>)
      requires create.Valid()
      modifies create.capacity, create.ipp, create.portPools, create.portPools.fallback, create.portPools.pools.Values
      ensures create.Valid() && create.portPools.pools == old(create.portPools.pools)
      ensures inv.hostID != localHost || inv.workloadID == "" ==> create.View() == old(create.View()) && r.error.Some?
      ensures inv.hostID == localHost && inv.workloadID != "" ==>
                (create.View(), r) == EngineDeleted(old(create.View()), inv.workloadID, Resolve(inv.workloadID, lookup), destroy, freed)
      ensures inv.hostID == localHost && inv.workloadID != "" ==>
                match Resolve(inv.workloadID, lookup)
                case Unclear => create.View() == old(create.View()) && r.error.Some?
                case Absent => create.View() == old(create.View()) && r == Agent.EngineResult("deleted", "", None)
                case Present(server) =>
                  if destroy.Some? && !destroy.value.notFound then create.View() == old(create.View()) && r.error.Some?
                  else
                    && create.View() == Retired(old(create.View()), server.id, false, inv.workloadID, freed)
                    && r == Agent.EngineResult("deleted", "", None)
      ensures Addressed(localHost, inv) && Resolve(inv.workloadID, lookup).Present? && !DestroyFails(destroy) ==>
                Frees(old(create.ipp.View()), Resolve(inv.workloadID, lookup).server.id, freed)
    {
      freed := None;
      if !Addressed(localHost, inv) {
        return REFUSED, freed;
      }
      match Resolve(inv.workloadID, lookup)
      case Unclear => r := REFUSED;
      case Absent => r := Agent.EngineResult("deleted", "", None);
      case Present(server) =>
        var ok;
        ok, freed := Core.RetireServer(server.id, false, inv.workloadID, destroy, create.capacity, create.portPools, create.ipp);
        r := if ok then Agent.EngineResult("deleted", "", None) else REFUSED;
    }
  }

  // The assignment key holds slashes, which a fencing token may not.
  lemma AssignmentKeysAreNoTokens(cfg: Agent.Config, a: Agent.Action)
    ensures !ValidToken(Agent.InvocationFor(cfg, a).key)
  {
    var key := Agent.InvocationFor(cfg, a).key;
    assert key[10] == '/' && !TokenChar(key[10]);
  }

  lemma EmptyIsNoToken()
    ensures !ValidToken("")
  {
  }

  // So the recovery of a failed runtime is out of the host agent's reach: it is refused with a
  // conflict, nothing but lookups is asked of Docker, and the ledgers stay as they are. And every
  // create of the host agent is one without tokens.
  lemma HostAgentNeverRecovers(setup: Setup, l: Ledger, cfg: Agent.Config, a: Agent.Action, spec: Executable, o: Outcomes,
                               freed: Option<string>)
    requires l.ips.Valid()
    ensures var inv := Agent.InvocationFor(cfg, a);
            var r := CreateSpec(setup, l, RequestFor(inv, spec), inv.key, inv.key, o, freed);
            var found := Resolve(inv.workloadID, o.before);
            && r == CreateSpec(setup, l, RequestFor(inv, spec), "", "", o, None)
            && (inv.workloadID != "" && found.Present? && FailedStatus(found.server.status) ==>
                  r == CreateResult(l, Failed(409), LookupCalls(inv.workloadID, o.before)))
  {
    hide Provisioned, ValidToken, FailedStatus;
    AssignmentKeysAreNoTokens(cfg, a);
    EmptyIsNoToken();
  }

  // Create and delete of one workload through the host agent: all three ledgers are back.
  lemma DeleteUndoesCreate(setup: Setup, l: Ledger, cfg: Agent.Config, a: Agent.Action, spec: Executable, o: Outcomes,
                           found: Lookup, freed: Option<string>)
    requires l.ips.Valid() && a.desired.workloadID != ""
    requires var inv := Agent.InvocationFor(cfg, a);
             var r := CreateSpec(setup, l, RequestFor(inv, spec), inv.key, inv.key, o, None);
             && r.reply.Created? && Frees(r.ledger.ips, r.reply.server.id, freed)
             && Resolve(inv.workloadID, found).Present? && Resolve(inv.workloadID, found).server.id == r.reply.server.id
    requires OwnsNothing(l, a.desired.workloadID) && (o.create.Ok? ==> OwnsNothing(l, o.create.value.id))
    ensures var inv := Agent.InvocationFor(cfg, a);
            var r := CreateSpec(setup, l, RequestFor(inv, spec), inv.key, inv.key, o, None);
            Restored(l, EngineDeleted(r.ledger, inv.workloadID, Resolve(inv.workloadID, found), None, freed).0)
  {
    hide CreateSpec, OwnsNothing, Restored, FailedStatus, ValidToken;
    var inv := Agent.InvocationFor(cfg, a);
    AssignmentKeysAreNoTokens(cfg, a);
    CreateThenRetireRestores(setup, l, RequestFor(inv, spec), inv.key, inv.key, o, None, inv.workloadID, freed);
  }

  // ---------- the heartbeat ----------

  const GENERATIONS := 0x1_0000_0000_0000_0000

  datatype Pulse = Pulse(next: Agent.Instant, last: nat)

  // One step of the runtime at a reading of the clock, and the generation that it sends.
  function Beat(p: Pulse, interval: int, now: Agent.Instant): (Pulse, Option<nat>) {
    if now < p.next then (p, None)
    else
      var milli := Agent.Millis(now) % GENERATIONS;
      var generation := if milli <= p.last then (p.last + 1) % GENERATIONS else milli;
      (Pulse(now + interval, generation), Some(generation))
  }

  class HostAgentRuntime {
    const client: Agent.Client
    const interval: int
    var next: Agent.Instant
    var lastGeneration: nat

    constructor (client: Agent.Client, interval: int)
      ensures this.client == client && this.interval == interval && Pulse(next, lastGeneration) == Pulse(Agent.ZERO_TIME, 0)
    {
      this.client, this.interval, next, lastGeneration := client, interval, Agent.ZERO_TIME, 0;
    }

    // An observation that fails stops the step before any assignment is claimed, but uses up the
    // generation. beat is the heartbeat as it was sent, if it was.
    method Step(now: Agent.Instant)
      returns (observed: Option<nat>, beat: Option<Agent.Sent>, error: Option<Agent.Error>, trace: seq<Agent.Event>)
      requires client.IssuedInOrder()
      modifies this, client
      ensures client.IssuedInOrder()
      ensures (Pulse(next, lastGeneration), observed) == Beat(old(Pulse(next, lastGeneration)), interval, now)
      ensures now < old(next) ==> observed == None && next == old(next) && lastGeneration == old(lastGeneration)
      ensures now >= old(next) ==>
                var milli := now / 1_000_000 % 18446744073709551616;
                && next == now + interval && observed == Some(lastGeneration)
                && lastGeneration == if milli > old(lastGeneration) then milli else (old(lastGeneration) + 1) % 18446744073709551616
      ensures beat.Some? ==> observed.Some?
      ensures trace != [] ==> beat.Some? && beat.value.reply.Response? && 200 <= beat.value.reply.status < 300
      ensures observed.Some? && !(beat.Some? && Agent.Welcomed(beat.value.reply)) ==> error.Some?
      ensures Agent.Follow(client.cfg, trace).Some?
    {
      observed, beat, error, trace := None, None, None, [];
      if now < next {
        return;
      }
      next := now + interval;
      var generation := Agent.Millis(now) % GENERATIONS;
      if generation <= lastGeneration {
        generation := (lastGeneration + 1) % GENERATIONS;
      }
      lastGeneration, observed := generation, Some(generation);
      error, beat := client.Observe();
      if error.Some? {
        return;
      }
      var processed;
      processed, error, trace := client.Step();
    }
  }

  // What is sent over a sequence of clock readings: when, and which generation.
  function Beats(p: Pulse, interval: int, readings: seq<Agent.Instant>): seq<(Agent.Instant, nat)>
    decreases |readings|
  {
    if readings == [] then []
    else
      var (q, sent) := Beat(p, interval, readings[0]);
      (if sent.Some? then [(readings[0], sent.value)] else []) + Beats(q, interval, readings[1..])
  }

  lemma SuccessorIsHigher(last: nat)
    requires last < GENERATIONS
    ensures (last + 1) % GENERATIONS > last <==> last != GENERATIONS - 1
  {
  }

  // Whatever the clock does, also when it is set back: each heartbeat comes at least an interval
  // after the one before, and its generation is higher, until a generation is the largest uint64.
  lemma {:induction false} HeartbeatsIncrease(p: Pulse, interval: int, readings: seq<Agent.Instant>, i: nat)
    requires i < |Beats(p, interval, readings)|
    requires p.last < GENERATIONS && forall j :: 0 <= j < i ==> Beats(p, interval, readings)[j].1 != GENERATIONS - 1
    ensures var beats := Beats(p, interval, readings);
            && (if i == 0 then beats[0].0 >= p.next && (p.last != GENERATIONS - 1 ==> beats[0].1 > p.last)
                else beats[i].0 >= beats[i - 1].0 + interval && beats[i].1 > beats[i - 1].1)
    decreases |readings|
  {
    var (q, sent) := Beat(p, interval, readings[0]);
    var rest := Beats(q, interval, readings[1..]);
    if sent.None? {
      assert Beats(p, interval, readings) == rest;
      HeartbeatsIncrease(q, interval, readings[1..], i);
    } else if i > 0 {
      assert Beats(p, interval, readings)[0] == (readings[0], sent.value);
      assert forall j :: 0 <= j < i - 1 ==> rest[j] == Beats(p, interval, readings)[j + 1];
      HeartbeatsIncrease(q, interval, readings[1..], i - 1);
    } else {
      SuccessorIsHigher(p.last);
    }
  }
}
