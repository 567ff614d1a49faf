// What the messages of a step hold, field by field, and which assignments reach the engine.
module HostAgentFields {
  import opened Text
  import opened HostAgent
  import opened HostAgentRuns

  // An instant in whole milliseconds, rounded down.
  predicate InMillis(milli: int, t: Instant) {
    milli * 1_000_000 <= t < (milli + 1) * 1_000_000
  }

  lemma MillisIs(t: Instant)
    ensures InMillis(Millis(t), t)
  {
  }

  lemma NotExpiredIff(expiresMilli: int, now: Instant)
    ensures expiresMilli > Millis(now) <==> expiresMilli * 1_000_000 > now
  {
    MillisIs(now);
  }

  // The answer to a claim is an action.
  predicate Brings(e: Event, a: Action) {
    e.ClaimSent? && e.sent.reply.Response? && 200 <= e.sent.reply.status < 300 && e.sent.reply.result == Some(Some(a))
  }

  // For this host, of one generation and attempt, under a lease that has not expired when it was
  // claimed, and with the digest of its payload in both places.
  predicate Fenced(a: Action, hostID: string, now: Instant) {
    && a.desired.hostID == hostID && a.desired.workloadID != "" && a.fence.leaseID != ""
    && a.desired.generation != 0 && a.fence.generation == a.desired.generation && a.fence.attempt != 0
    && a.fence.leaseExpiresMilli * 1_000_000 > now
    && a.fence.payloadDigest == HexDigest(a.desired.payload) && a.desired.payloadDigest == HexDigest(a.desired.payload)
  }

  lemma ValidIsFenced(cfg: Config, a: Action, now: Instant)
    ensures Valid(cfg, a, now) <==> Fenced(a, cfg.hostID, now)
  {
    NotExpiredIff(a.fence.leaseExpiresMilli, now);
  }

  // The engine runs nothing but such an action, the one that was claimed just before, and by one of
  // its five operations.
  lemma EngineRunsFencedActions(cfg: Config, trace: seq<Event>, i: nat) returns (a: Action)
    requires Follow(cfg, trace).Some? && cfg.maxActions >= 0 && i < |trace| && trace[i].EngineRan?
    ensures i >= 1 && Brings(trace[i - 1], a)
    ensures a.desired.hostID == cfg.hostID && a.desired.workloadID != "" && a.fence.leaseID != ""
    ensures a.desired.generation != 0 && a.fence.generation == a.desired.generation && a.fence.attempt != 0
    ensures a.fence.leaseExpiresMilli > Millis(trace[i - 1].now) && a.fence.leaseExpiresMilli * 1_000_000 > trace[i - 1].now
    ensures a.fence.payloadDigest == HexDigest(a.desired.payload) && a.desired.payloadDigest == HexDigest(a.desired.payload)
    ensures trace[i].operation == a.desired.operation && trace[i].operation in ["create", "start", "update", "stop", "delete"]
    ensures trace[i].inv ==
            Invocation(cfg.hostID, cfg.agentID, a.desired.workloadID, a.desired.generation, a.desired.payload,
                       "assignment/" + a.desired.workloadID + "/" + Decimal(a.fence.generation) + "/" + Decimal(a.fence.attempt) +
                       "/" + a.fence.payloadDigest)
  {
    EventsInPlace(cfg, trace, i);
    a := ActionOf(trace[i - 1], cfg);
    ValidIsFenced(cfg, a, trace[i - 1].now);
    var p := AdvancesAt(cfg, trace, i);
    hide HexDigest, Decimal;
  }

  // And such an action is not refused: the claim leaves it with the client, to be executed.
  lemma FencedActionsAreHeld(cfg: Config, trace: seq<Event>, a: Action)
    requires Follow(cfg, trace).Some? && trace != [] && Brings(trace[|trace| - 1], a)
    ensures match Follow(cfg, trace).value
            case Holding(_, held, now) => held == a && now == trace[|trace| - 1].now && Fenced(a, cfg.hostID, now)
            case Broken(_) => !Fenced(a, cfg.hostID, trace[|trace| - 1].now)
            case _ => false
  {
    ValidIsFenced(cfg, a, trace[|trace| - 1].now);
    hide HexDigest, Valid, Fenced;
  }

  // ---------- receipts and retries ----------

  // A receipt tells workload and fence of the action, and how its run went: the state the engine
  // gave, or else "applied" or "failed"; at most 1024 characters of its error; and evidence exactly
  // for a success with a container.
  lemma ReceiptsTell(cfg: Config, trace: seq<Event>, i: nat) returns (a: Action)
    requires Follow(cfg, trace).Some? && cfg.maxActions >= 0 && i < |trace| && trace[i].ReceiptSent?
    ensures i >= 2 && Brings(trace[i - 2], a) && trace[i - 1].EngineRan?
    ensures var m, r := trace[i].message, trace[i - 1].result;
            && m.commandID == "receipt/" + a.desired.workloadID + "/" + Decimal(a.fence.generation) + "/" + Decimal(a.fence.attempt)
            && m.workloadID == a.desired.workloadID && m.leaseID == a.fence.leaseID && m.attempt == a.fence.attempt
            && m.generation == a.fence.generation && m.payloadDigest == a.fence.payloadDigest
            && m.success == r.error.None?
            && m.observedState == (if r.state != "" then r.state else if r.error.None? then "applied" else "failed")
            && (r.error.None? ==> m.detail == "")
            && (r.error.Some? ==> m.detail <= r.error.value.text && |m.detail| == if |r.error.value.text| > 1024 then 1024
                                                                                   else |r.error.value.text|)
            && InMillis(m.recordedMilli, trace[i - 2].now)
            && (m.evidence.Some? <==> r.error.None? && r.containerID != "")
            && (m.evidence.Some? ==>
                  m.evidence.value == Evidence(a.desired.workloadID, cfg.hostID, r.containerID, m.observedState, m.recordedMilli))
  {
    EventsInPlace(cfg, trace, i);
    a := ActionOf(trace[i - 2], cfg);
    MillisIs(trace[i - 2].now);
    hide HexDigest, Decimal, Valid, Follow, InPlace, Advance;
  }

  // A retry names the attempt that failed, and a time an hour on for an error that says it cannot be
  // retried, and the configured delay on for any other.
  lemma RetriesAsk(cfg: Config, trace: seq<Event>, i: nat) returns (a: Action)
    requires Follow(cfg, trace).Some? && cfg.maxActions >= 0 && i < |trace| && trace[i].RetrySent?
    ensures i >= 3 && Brings(trace[i - 3], a) && trace[i - 2].EngineRan? && trace[i - 2].result.error.Some?
    ensures var m := trace[i].retry;
            && m.commandID == "retry/" + a.desired.workloadID + "/" + Decimal(a.fence.generation) + "/" + Decimal(a.fence.attempt)
            && m.workloadID == a.desired.workloadID && m.expectedAttempt == a.fence.attempt
            && InMillis(m.retryMilli, trace[i - 3].now +
                                      if trace[i - 2].result.error.value.retryable == Some(false) then 3600 * 1_000_000_000
                                      else cfg.retryDelay)
  {
    EventsInPlace(cfg, trace, i);
    a := ActionOf(trace[i - 3], cfg);
    MillisIs(trace[i - 3].now + Delay(cfg, trace[i - 2].result.error.value));
    hide HexDigest, Decimal, Valid, Follow, InPlace, Advance, Echoes;
  }

  // ---------- posts ----------

  // The token of a post belongs to a principal that has not expired when it is sent, and no such
  // principal expires later.
  lemma PostsAreAuthorized(cfg: Config, trace: seq<Event>, i: nat, sent: Sent)
    requires Follow(cfg, trace).Some? && cfg.maxActions >= 0 && i < |trace| && SentOf(trace[i]) == Some(sent)
    ensures sent.token != ""
    ensures exists j :: 0 <= j < |cfg.principals| && cfg.principals[j].token == sent.token && cfg.principals[j].expires > sent.at &&
              forall k :: 0 <= k < |cfg.principals| && cfg.principals[k].token != "" && cfg.principals[k].expires > sent.at ==>
                cfg.principals[k].expires <= cfg.principals[j].expires || cfg.principals[k].expires <= -62135596800_000_000_000
  {
    PostsUseLatestCredential(cfg, trace, i);
    hide Follow;
  }

  // A claim asks for the configured lease.
  lemma ClaimsAskForTheLease(cfg: Config, trace: seq<Event>, i: nat)
    requires Follow(cfg, trace).Some? && cfg.maxActions >= 0 && i < |trace| && trace[i].ClaimSent?
    ensures InMillis(trace[i].leaseMilli, cfg.lease)
  {
    var p := AdvancesAt(cfg, trace, i);
    MillisIs(cfg.lease);
  }

  // The command IDs of a client, as text.
  lemma CommandIDsRead(c: Client, i: nat)
    requires c.IssuedInOrder() && i < |c.issued|
    ensures c.issued[i] == "agent/" + c.cfg.agentID + "/" + c.kinds[i] + "/" + SignedDecimal(c.times[i]) + "/" +
                           Decimal((i + 1) % 18446744073709551616)
  {
  }

  // ---------- digests ----------

  lemma HexDigitReads(d: int)
    requires 0 <= d < 16
    ensures HexDigit(d) == "0123456789abcdef"[d]
  {
  }

  // A digest is lower-case hexadecimal, two digits a byte, the upper half first.
  lemma {:induction false} HexDigestReads(payload: seq<Byte>, i: nat)
    requires i < |payload|
    ensures |HexDigest(payload)| == 2 * |payload|
    ensures HexDigest(payload)[2 * i] == "0123456789abcdef"[payload[i] / 16]
    ensures HexDigest(payload)[2 * i + 1] == "0123456789abcdef"[payload[i] % 16]
  {
    if i == 0 {
      HexDigitReads(payload[0] / 16);
      HexDigitReads(payload[0] % 16);
    }
    if |payload| > 1 {
      HexDigestReads(payload[1..], if i == 0 then 0 else i - 1);
    }
  }

  lemma HexDigitsDiffer(d: int, e: int)
    requires 0 <= d < 16 && 0 <= e < 16 && HexDigit(d) == HexDigit(e)
    ensures d == e
  {
  }

  // Different payloads have different digests.
  lemma {:induction false} HexDigestInjective(a: seq<Byte>, b: seq<Byte>)
    requires HexDigest(a) == HexDigest(b)
    ensures a == b
  {
    if a != [] && b != [] {
      var da, db := HexDigest(a), HexDigest(b);
      assert da[2..] == HexDigest(a[1..]) && db[2..] == HexDigest(b[1..]);
      HexDigestInjective(a[1..], b[1..]);
      HexDigitsDiffer(a[0] / 16, b[0] / 16);
      HexDigitsDiffer(a[0] % 16, b[0] % 16);
      assert da[0] == HexDigit(a[0] / 16) && da[1] == HexDigit(a[0] % 16);
      assert db[0] == HexDigit(b[0] / 16) && db[1] == HexDigit(b[0] % 16);
      assert a == [a[0]] + a[1..] && b == [b[0]] + b[1..];
    }
  }
}
