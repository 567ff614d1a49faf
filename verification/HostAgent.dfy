// hostagent/client.go: the claim, execute, receipt, retry protocol of the assignment client.
module HostAgent {
  import opened Text

  // Nanoseconds since the Unix epoch.
  type Instant = int

  // The zero time.Time: the first of January of the year 1.
  const ZERO_TIME := -62135596800 * 1_000_000_000
  const SECOND := 1_000_000_000
  const MINUTE := 60 * SECOND
  const HOUR := 60 * MINUTE

  function Millis(t: Instant): int {
    t / 1_000_000
  }

  // ---------- configuration ----------

  datatype Principal = Principal(token: string, expires: Instant)

  // What parsing a base URL gives.
  datatype Parsed = Unparsable | Endpoint(scheme: string, host: string, hostname: string)

  // baseURL is None when the text is empty.
  datatype Config = Config(
    baseURL: Option<Parsed>, hostID: string, agentID: string, principals: seq<Principal>,
    lease: int, maxActions: int, retryDelay: int)

  datatype Construction = Made(cfg: Config) | Refused | Panics

  predicate Complete(cfg: Config, hasEngine: bool) {
    cfg.baseURL.Some? && cfg.hostID != "" && cfg.agentID != "" && cfg.principals != [] && hasEngine
  }

  // TLS, or plain HTTP to the machine itself.
  predicate Private(e: Parsed) {
    && e.Endpoint? && e.host != ""
    && (e.scheme == "https" || (e.scheme == "http" && e.hostname in ["127.0.0.1", "::1", "localhost"]))
  }

  // NewWithTransport: zero means the default; a value out of bounds is refused. The scheme is read
  // before the parse error is looked at, so a URL that does not parse is a nil dereference.
  function New(cfg: Config, hasEngine: bool, hasTransport: bool): (r: Construction)
    ensures r.Made? ==>
              1 <= r.cfg.maxActions <= 64 && SECOND <= r.cfg.lease <= 5 * MINUTE && SECOND <= r.cfg.retryDelay <= HOUR
              && r.cfg.lease == (if cfg.lease == 0 then 60_000_000_000 else cfg.lease)
              && r.cfg.maxActions == (if cfg.maxActions == 0 then 8 else cfg.maxActions)
              && r.cfg.retryDelay == (if cfg.retryDelay == 0 then 5_000_000_000 else cfg.retryDelay)
              && r.cfg == cfg.(lease := r.cfg.lease, maxActions := r.cfg.maxActions, retryDelay := r.cfg.retryDelay)
    ensures r.Made? <==>
              cfg.baseURL.Some? && cfg.hostID != "" && cfg.agentID != "" && cfg.principals != [] && hasEngine && hasTransport &&
              cfg.baseURL.value.Endpoint? && cfg.baseURL.value.host != "" &&
              (cfg.baseURL.value.scheme == "https" ||
               (cfg.baseURL.value.scheme == "http" && cfg.baseURL.value.hostname in ["127.0.0.1", "::1", "localhost"])) &&
              (cfg.maxActions == 0 || 1 <= cfg.maxActions <= 64) &&
              (cfg.lease == 0 || 1_000_000_000 <= cfg.lease <= 300_000_000_000) &&
              (cfg.retryDelay == 0 || 1_000_000_000 <= cfg.retryDelay <= 3_600_000_000_000)
    ensures r.Panics? <==>
              cfg.baseURL == Some(Unparsable) && cfg.hostID != "" && cfg.agentID != "" && cfg.principals != [] && hasEngine
  {
    if !Complete(cfg, hasEngine) then Refused
    else if cfg.baseURL.value.Unparsable? then Panics
    else if !Private(cfg.baseURL.value) then Refused
    else
      var lease := if cfg.lease == 0 then MINUTE else cfg.lease;
      var maxActions := if cfg.maxActions == 0 then 8 else cfg.maxActions;
      var retryDelay := if cfg.retryDelay == 0 then 5 * SECOND else cfg.retryDelay;
      if lease < SECOND || lease > 5 * MINUTE || maxActions < 1 || maxActions > 64 ||
         retryDelay < SECOND || retryDelay > HOUR || !hasTransport
      then Refused
      else Made(cfg.(lease := lease, maxActions := maxActions, retryDelay := retryDelay))
  }

  // ---------- assignments ----------

  function HexDigit(d: int): char
    requires 0 <= d < 16
  {
    if d < 10 then '0' + d as char else 'a' + (d - 10) as char
  }

  // The hexadecimal digest of a payload. The hash is taken to be injective, so the payload itself
  // is written out.
  function HexDigest(payload: seq<Byte>): string {
    if payload == [] then "" else [HexDigit(payload[0] / 16), HexDigit(payload[0] % 16)] + HexDigest(payload[1..])
  }

  datatype Desired = Desired(
    workloadID: string, hostID: string, generation: nat, operation: string, payload: seq<Byte>, payloadDigest: string)

  datatype Fence = Fence(leaseID: string, attempt: nat, generation: nat, payloadDigest: string, leaseExpiresMilli: int)

  datatype Action = Action(desired: Desired, fence: Fence)

  // validateAction
  predicate Valid(cfg: Config, a: Action, now: Instant) {
    && a.desired.hostID == cfg.hostID && a.desired.workloadID != "" && a.desired.generation != 0
    && a.fence.generation == a.desired.generation && a.fence.attempt != 0 && a.fence.leaseID != ""
    && a.fence.leaseExpiresMilli > Millis(now)
    && a.fence.payloadDigest == HexDigest(a.desired.payload) == a.desired.payloadDigest
  }

  // ---------- identities ----------

  function AssignmentKey(workload: string, generation: nat, attempt: nat, digest: string): string {
    "assignment/" + workload + "/" + Decimal(generation) + "/" + Decimal(attempt) + "/" + digest
  }

  function ReceiptID(workload: string, generation: nat, attempt: nat): string {
    "receipt/" + workload + "/" + Decimal(generation) + "/" + Decimal(attempt)
  }

  function RetryID(workload: string, generation: nat, attempt: nat): string {
    "retry/" + workload + "/" + Decimal(generation) + "/" + Decimal(attempt)
  }

  function CommandID(agent: string, kind: string, milli: int, sequence: nat): string {
    "agent/" + agent + "/" + kind + "/" + SignedDecimal(milli) + "/" + Decimal(sequence)
  }

  // ---------- messages ----------

  datatype Invocation = Invocation(
    hostID: string, agentID: string, workloadID: string, generation: nat, payload: seq<Byte>, key: string)

  // retryable is what a classified error says of itself.
  datatype EngineError = EngineError(text: string, retryable: Option<bool>)

  datatype EngineResult = EngineResult(state: string, containerID: string, error: Option<EngineError>)

  datatype Evidence = Evidence(serverID: string, hostID: string, containerID: string, state: string, completedMilli: int)

  datatype ReceiptMessage = ReceiptMessage(
    commandID: string, workloadID: string, leaseID: string, attempt: nat, generation: nat, payloadDigest: string,
    success: bool, observedState: string, detail: string, recordedMilli: int, evidence: Option<Evidence>)

  datatype RetryMessage = RetryMessage(commandID: string, workloadID: string, expectedAttempt: nat, retryMilli: int)

  // result is None when the body cannot be decoded; a decoded result may carry an action.
  datatype Response = TransportError | Response(status: int, result: Option<Option<Action>>)

  predicate Welcomed(r: Response) {
    r.Response? && 200 <= r.status < 300
  }

  predicate Ok(r: Response) {
    r.Response? && 200 <= r.status < 300 && r.result.Some?
  }

  // A post that was sent: when its credential was chosen, which one, and what came back.
  datatype Sent = Sent(at: Instant, token: string, reply: Response)

  datatype Event =
    | ClaimSent(commandID: string, now: Instant, leaseMilli: int, sent: Sent)
    | EngineRan(operation: string, inv: Invocation, result: EngineResult)
    | ReceiptSent(message: ReceiptMessage, sent: Sent)
    | RetrySent(retry: RetryMessage, sent: Sent)

  // ---------- the protocol, as an automaton over what leaves the client ----------

  const OPERATIONS := {"create", "start", "update", "stop", "delete"}

  datatype Phase =
    | Idle(done: nat)
    | Holding(done: nat, action: Action, now: Instant)
    | Executed(done: nat, action: Action, now: Instant, result: EngineResult)
    | Owing(done: nat, action: Action, now: Instant, error: EngineError)
    | Stopped(done: nat)
    | Broken(done: nat)

  predicate Usable(p: Principal, now: Instant) {
    p.token != "" && p.expires > now && p.expires > ZERO_TIME
  }

  // The token is that of the usable principal that expires last, the first one if several do.
  predicate Chosen(principals: seq<Principal>, now: Instant, token: string) {
    exists i :: 0 <= i < |principals| && Usable(principals[i], now) && token == principals[i].token &&
      (forall j :: 0 <= j < |principals| && Usable(principals[j], now) ==>
         principals[j].expires <= principals[i].expires && (j < i ==> principals[j].expires < principals[i].expires))
  }

  function StateOf(r: EngineResult): string {
    if r.state != "" then r.state else if r.error.None? then "applied" else "failed"
  }

  function Bounded(s: string, limit: nat): string {
    if |s| > limit then s[..limit] else s
  }

  function InvocationFor(cfg: Config, a: Action): Invocation {
    Invocation(cfg.hostID, cfg.agentID, a.desired.workloadID, a.desired.generation, a.desired.payload,
               AssignmentKey(a.desired.workloadID, a.fence.generation, a.fence.attempt, a.fence.payloadDigest))
  }

  // The receipt echoes the fence of the action and tells how the engine fared.
  predicate Echoes(cfg: Config, a: Action, now: Instant, r: EngineResult, m: ReceiptMessage) {
    && m.commandID == ReceiptID(a.desired.workloadID, a.fence.generation, a.fence.attempt)
    && m.workloadID == a.desired.workloadID && m.leaseID == a.fence.leaseID
    && m.attempt == a.fence.attempt && m.generation == a.fence.generation && m.payloadDigest == a.fence.payloadDigest
    && m.success == r.error.None? && m.observedState == StateOf(r)
    && m.detail == (if r.error.None? then "" else Bounded(r.error.value.text, 1024))
    && m.recordedMilli == Millis(now)
    && m.evidence == (if m.success && r.containerID != ""
                      then Some(Evidence(a.desired.workloadID, cfg.hostID, r.containerID, StateOf(r), Millis(now)))
                      else None)
  }

  function Delay(cfg: Config, e: EngineError): int {
    if e.retryable == Some(false) then HOUR else cfg.retryDelay
  }

  predicate AsksRetry(cfg: Config, a: Action, now: Instant, e: EngineError, m: RetryMessage) {
    && m.commandID == RetryID(a.desired.workloadID, a.fence.generation, a.fence.attempt)
    && m.workloadID == a.desired.workloadID && m.expectedAttempt == a.fence.attempt
    && m.retryMilli == Millis(now + Delay(cfg, e))
  }

  // The phase after an event, or None where the protocol does not allow the event.
  function Advance(cfg: Config, p: Phase, e: Event): Option<Phase> {
    match (p, e)
    case (Idle(n), ClaimSent(_, now, lease, sent)) =>
      if n >= cfg.maxActions || lease != Millis(cfg.lease) || !Chosen(cfg.principals, sent.at, sent.token) then None
      else if !Ok(sent.reply) then Some(Broken(n))
      else
        (match sent.reply.result.value
         case None => Some(Stopped(n))
         case Some(a) => if Valid(cfg, a, now) then Some(Holding(n + 1, a, now)) else Some(Broken(n)))
    case (Holding(n, a, now), EngineRan(op, inv, r)) =>
      if op == a.desired.operation && op in OPERATIONS && inv == InvocationFor(cfg, a) then Some(Executed(n, a, now, r))
      else None
    case (Executed(n, a, now, r), ReceiptSent(m, sent)) =>
      if !Echoes(cfg, a, now, r, m) || !Chosen(cfg.principals, sent.at, sent.token) then None
      else if !Ok(sent.reply) then Some(Broken(n))
      else if r.error.None? then Some(Idle(n))
      else Some(Owing(n, a, now, r.error.value))
    case (Owing(n, a, now, error), RetrySent(m, sent)) =>
      if !AsksRetry(cfg, a, now, error, m) || !Chosen(cfg.principals, sent.at, sent.token) then None
      else if Ok(sent.reply) then Some(Idle(n))
      else Some(Broken(n))
    case _ => None
  }

  // The phase that a trace leads to from the start, or None where it breaks the protocol.
  function Follow(cfg: Config, trace: seq<Event>): Option<Phase> {
    if trace == [] then Some(Idle(0))
    else
      match Follow(cfg, trace[..|trace| - 1])
      case None => None
      case Some(p) => Advance(cfg, p, trace[|trace| - 1])
  }

  lemma FollowStep(cfg: Config, trace: seq<Event>, e: Event)
    ensures Follow(cfg, trace + [e]) == match Follow(cfg, trace) case None => None case Some(p) => Advance(cfg, p, e)
  {
    assert (trace + [e])[..|trace|] == trace;
  }

  // The command IDs of the claims that were sent.
  function ClaimIDs(trace: seq<Event>): seq<string> {
    if trace == [] then []
    else
      ClaimIDs(trace[..|trace| - 1]) +
      (if trace[|trace| - 1].ClaimSent? then [trace[|trace| - 1].commandID] else [])
  }

  lemma ClaimIDsStep(trace: seq<Event>, e: Event)
    ensures ClaimIDs(trace + [e]) == ClaimIDs(trace) + (if e.ClaimSent? then [e.commandID] else [])
  {
    assert (trace + [e])[..|trace|] == trace;
  }

  // ---------- the client ----------

  // Everything the outside does: the readings of the clock, the replies to posts, the engine.
  datatype Script = Script(clock: nat -> Instant, reply: nat -> Response, engine: nat -> EngineResult)

  const SEQUENCES := 0x1_0000_0000_0000_0000

  lemma SequenceStep(n: nat)
    ensures (n % SEQUENCES + 1) % SEQUENCES == (n + 1) % SEQUENCES
  {
  }

  datatype Error = NoPrincipal | Rejected | InvalidAction | Unsupported

  class Client {
    const cfg: Config
    const script: Script
    var sequence: nat
    var readings: nat
    var replies: nat
    var engineCalls: nat
    // The command IDs made so far, and what they were made of.
    ghost var issued: seq<string>
    ghost var kinds: seq<string>
    ghost var times: seq<int>

    constructor (cfg: Config, script: Script)
      ensures this.cfg == cfg && this.script == script && IssuedInOrder() && issued == []
    {
      this.cfg, this.script := cfg, script;
      sequence, readings, replies, engineCalls := 0, 0, 0, 0;
      issued, kinds, times := [], [], [];
    }

    // The n-th command ID carries the number n, as a uint64.
    ghost predicate IssuedInOrder()
      reads this
    {
      && sequence == |issued| % SEQUENCES && |kinds| == |times| == |issued|
      && forall i :: 0 <= i < |issued| ==> issued[i] == CommandID(cfg.agentID, kinds[i], times[i], (i + 1) % SEQUENCES)
    }

    method Now() returns (t: Instant)
      modifies this`readings
      ensures readings == old(readings) + 1
    {
      t := script.clock(readings);
      readings := readings + 1;
    }

    method Command(kind: string) returns (id: string)
      requires IssuedInOrder()
      modifies this`readings, this`sequence, this`issued, this`kinds, this`times
      ensures IssuedInOrder() && issued == old(issued) + [id]
    {
      hide CommandID;
      SequenceStep(|issued|);
      ghost var made := |issued|;
      sequence := (sequence + 1) % SEQUENCES;
      var t := Now();
      id := CommandID(cfg.agentID, kind, Millis(t), sequence);
      assert sequence == (made + 1) % SEQUENCES;
      issued, kinds, times := issued + [id], kinds + [kind], times + [Millis(t)];
    }

    method Credential(now: Instant) returns (token: string)
      ensures token == "" <==> forall p :: p in cfg.principals ==> !Usable(p, now)
      ensures token != "" ==> Chosen(cfg.principals, now, token)
    {
      var selected := Principal("", ZERO_TIME);
      ghost var best := -1;
      for i := 0 to |cfg.principals|
        invariant -1 <= best < i
        invariant best == -1 ==> selected == Principal("", ZERO_TIME) &&
                                 forall j :: 0 <= j < i ==> !Usable(cfg.principals[j], now)
        invariant best >= 0 ==> selected == cfg.principals[best] && Usable(selected, now) &&
                                forall j :: 0 <= j < i && Usable(cfg.principals[j], now) ==>
                                  cfg.principals[j].expires <= selected.expires &&
                                  (j < best ==> cfg.principals[j].expires < selected.expires)
      {
        var candidate := cfg.principals[i];
        if candidate.token != "" && candidate.expires > now && candidate.expires > selected.expires {
          selected, best := candidate, i;
        }
      }
      token := selected.token;
    }

    // Sends nothing, and returns None, when no principal is usable.
    method Post() returns (sent: Option<Sent>)
      modifies this`readings, this`replies
      ensures sent.Some? ==> Chosen(cfg.principals, sent.value.at, sent.value.token)
    {
      var now := Now();
      var token := Credential(now);
      if token == "" {
        return None;
      }
      sent := Some(Sent(now, token, script.reply(replies)));
      replies := replies + 1;
    }

    method CallEngine(a: Action) returns (r: Option<EngineResult>)
      modifies this`engineCalls
      ensures r.Some? <==> a.desired.operation in OPERATIONS
    {
      if a.desired.operation !in OPERATIONS {
        return None;
      }
      r := Some(script.engine(engineCalls));
      engineCalls := engineCalls + 1;
    }

    method ReceiptFor(a: Action, now: Instant, r: EngineResult) returns (m: ReceiptMessage)
      ensures Echoes(cfg, a, now, r, m)
    {
      var success := r.error.None?;
      var state, detail, evidence := r.state, "", None;
      if state == "" {
        state := if success then "applied" else "failed";
      }
      if r.error.Some? {
        detail := Bounded(r.error.value.text, 1024);
      }
      if success && r.containerID != "" {
        evidence := Some(Evidence(a.desired.workloadID, cfg.hostID, r.containerID, state, Millis(now)));
      }
      m := ReceiptMessage(ReceiptID(a.desired.workloadID, a.fence.generation, a.fence.attempt), a.desired.workloadID,
                          a.fence.leaseID, a.fence.attempt, a.fence.generation, a.fence.payloadDigest,
                          success, state, detail, Millis(now), evidence);
    }

    method PostRetry(a: Action, now: Instant, e: EngineError, n: nat, sofar: seq<Event>)
      returns (error: Option<Error>, trace: seq<Event>)
      requires Follow(cfg, sofar) == Some(Owing(n, a, now, e))
      modifies this`readings, this`replies
      ensures Follow(cfg, trace).Some? && Follow(cfg, trace).value.done == n && sofar <= trace
      ensures error == None <==> Follow(cfg, trace) == Some(Idle(n))
      ensures !Follow(cfg, trace).value.Stopped? && ClaimIDs(trace) == ClaimIDs(sofar)
    {
      var delay := cfg.retryDelay;
      if e.retryable == Some(false) {
        delay := HOUR;
      }
      var m := RetryMessage(RetryID(a.desired.workloadID, a.fence.generation, a.fence.attempt), a.desired.workloadID,
                            a.fence.attempt, Millis(now + delay));
      var sent := Post();
      if sent.None? {
        return Some(NoPrincipal), sofar;
      }
      ClaimIDsStep(sofar, RetrySent(m, sent.value));
      FollowStep(cfg, sofar, RetrySent(m, sent.value));
      trace := sofar + [RetrySent(m, sent.value)];
      error := if Ok(sent.value.reply) then None else Some(Rejected);
    }

    // One action that was claimed: the engine, the receipt, and the retry that an engine error calls for.
    method ExecuteAndSettle(a: Action, now: Instant, n: nat, sofar: seq<Event>)
      returns (error: Option<Error>, trace: seq<Event>)
      requires Follow(cfg, sofar) == Some(Holding(n, a, now))
      modifies this`readings, this`replies, this`engineCalls
      ensures Follow(cfg, trace).Some? && Follow(cfg, trace).value.done == n && sofar <= trace
      ensures error == None <==> Follow(cfg, trace) == Some(Idle(n))
      ensures !Follow(cfg, trace).value.Stopped? && ClaimIDs(trace) == ClaimIDs(sofar)
    {
      trace := sofar;
      var r := CallEngine(a);
      if r.None? {
        return Some(Unsupported), trace;
      }
      ClaimIDsStep(trace, EngineRan(a.desired.operation, InvocationFor(cfg, a), r.value));
      FollowStep(cfg, trace, EngineRan(a.desired.operation, InvocationFor(cfg, a), r.value));
      trace := trace + [EngineRan(a.desired.operation, InvocationFor(cfg, a), r.value)];
      var m := ReceiptFor(a, now, r.value);
      var sent := Post();
      if sent.None? {
        return Some(NoPrincipal), trace;
      }
      ClaimIDsStep(trace, ReceiptSent(m, sent.value));
      FollowStep(cfg, trace, ReceiptSent(m, sent.value));
      trace := trace + [ReceiptSent(m, sent.value)];
      if !Ok(sent.value.reply) {
        return Some(Rejected), trace;
      }
      if r.value.error.None? {
        return None, trace;
      }
      error, trace := PostRetry(a, now, r.value.error.value, n, trace);
    }

    method Claim(now: Instant, n: nat, sofar: seq<Event>)
      returns (action: Option<Action>, error: Option<Error>, trace: seq<Event>, ghost id: string)
      requires IssuedInOrder() && Follow(cfg, sofar) == Some(Idle(n)) && n < cfg.maxActions
      modifies this
      ensures IssuedInOrder() && issued == old(issued) + [id]
      ensures ClaimIDs(trace) == if error == Some(NoPrincipal) then ClaimIDs(sofar) else ClaimIDs(sofar) + [id]
      ensures Follow(cfg, trace) == Some(match (action, error)
                                         case (Some(a), _) => Holding(n + 1, a, now)
                                         case (None, None) => Stopped(n)
                                         case (None, Some(e)) => if e == NoPrincipal then Idle(n) else Broken(n))
      ensures action.Some? ==> error == None && Valid(cfg, action.value, now)
    {
      action, error, trace := None, None, sofar;
      var command := Command("claim");
      id := command;
      var sent := Post();
      if sent.None? {
        error := Some(NoPrincipal);
        return;
      }
      var claim := ClaimSent(command, now, Millis(cfg.lease), sent.value);
      ClaimIDsStep(trace, claim);
      FollowStep(cfg, trace, claim);
      trace := trace + [claim];
      if !Ok(sent.value.reply) {
        error := Some(Rejected);
        return;
      }
      action := sent.value.reply.result.value;
      if action.Some? && !Valid(cfg, action.value, now) {
        action, error := None, Some(InvalidAction);
      }
    }

    // One pass of the loop.
    method Pass(n: nat, sofar: seq<Event>)
      returns (empty: bool, processed: nat, error: Option<Error>, trace: seq<Event>, ghost id: string)
      requires IssuedInOrder() && Follow(cfg, sofar) == Some(Idle(n)) && n < cfg.maxActions
      modifies this
      ensures IssuedInOrder() && issued == old(issued) + [id] && n <= processed <= n + 1
      ensures ClaimIDs(trace) == ClaimIDs(sofar) + [id] || (error.Some? && ClaimIDs(trace) == ClaimIDs(sofar))
      ensures Follow(cfg, trace).Some? && Follow(cfg, trace).value.done == processed
      ensures empty <==> Follow(cfg, trace) == Some(Stopped(processed))
      ensures error == None <==> empty || (processed == n + 1 && Follow(cfg, trace) == Some(Idle(n + 1)))
    {
      var now := Now();
      var action;
      action, error, trace, id := Claim(now, n, sofar);
      empty, processed := error == None && action == None, n;
      if action.Some? {
        processed := n + 1;
        error, trace := ExecuteAndSettle(action.value, now, processed, trace);
      }
    }

    // Every trace follows the protocol. Without an error it ends in an empty claim or at the bound;
    // with one, it does not. Its claims carry the command IDs that were issued for it, in order; at
    // most the last one issued was not sent.
    method Step() returns (processed: nat, error: Option<Error>, trace: seq<Event>)
      requires IssuedInOrder()
      modifies this
      ensures IssuedInOrder() && old(issued) <= issued
      ensures ClaimIDs(trace) <= issued[|old(issued)|..] && |issued| - |old(issued)| <= |ClaimIDs(trace)| + 1
      ensures Follow(cfg, trace).Some? && Follow(cfg, trace).value.done == processed
      ensures cfg.maxActions >= 0 ==> processed <= cfg.maxActions
      ensures error == None <==>
              Follow(cfg, trace) == Some(Stopped(processed)) ||
              (processed >= cfg.maxActions && Follow(cfg, trace) == Some(Idle(processed)))
    {
      processed, error, trace := 0, None, [];
      assert Follow(cfg, []) == Some(Idle(0)) && ClaimIDs([]) == [];
      hide *;
      ghost var start := issued;
      while processed < cfg.maxActions
        invariant IssuedInOrder() && start == old(issued) && issued == start + ClaimIDs(trace)
        invariant Follow(cfg, trace) == Some(Idle(processed)) && error == None
        invariant cfg.maxActions >= 0 ==> processed <= cfg.maxActions
      {
        var empty;
        ghost var id, sent := "", ClaimIDs(trace);
        empty, processed, error, trace, id := Pass(processed, trace);
        assert issued == start + (sent + [id]) && issued[|start|..] == sent + [id];
        if empty || error.Some? {
          return;
        }
      }
    }

    // Observe, as the runtime calls it: the command ID is made here. Only the status of the reply
    // counts.
    method Observe() returns (error: Option<Error>, sent: Option<Sent>)
      requires IssuedInOrder()
      modifies this
      ensures IssuedInOrder() && |issued| == |old(issued)| + 1 && old(issued) <= issued
      ensures sent.Some? ==> Chosen(cfg.principals, sent.value.at, sent.value.token)
      ensures error == None <==> sent.Some? && Welcomed(sent.value.reply)
    {
      var id := Command("observe");
      sent := Post();
      error := if sent.None? then Some(NoPrincipal) else if Welcomed(sent.value.reply) then None else Some(Rejected);
    }
  }
}
