// What the protocol automaton says of every trace, and why the identity strings are unambiguous.
module HostAgentRuns {
  import opened Text
  import opened HostAgent

  // ---------- the shape of a trace ----------

  // A claim that was answered with a valid action.
  predicate Claims(e: Event, cfg: Config) {
    && e.ClaimSent? && Ok(e.sent.reply) && e.sent.reply.result.value.Some?
    && Valid(cfg, e.sent.reply.result.value.value, e.now)
  }

  function ActionOf(e: Event, cfg: Config): Action
    requires Claims(e, cfg)
  {
    e.sent.reply.result.value.value
  }

  // The engine ran the action that was claimed.
  predicate Runs(claim: Event, run: Event, cfg: Config) {
    && Claims(claim, cfg) && run.EngineRan?
    && run.operation == ActionOf(claim, cfg).desired.operation && run.inv == InvocationFor(cfg, ActionOf(claim, cfg))
  }

  // The receipt is for this run of that action.
  predicate Reports(claim: Event, run: Event, receipt: Event, cfg: Config) {
    && Runs(claim, run, cfg) && receipt.ReceiptSent?
    && Echoes(cfg, ActionOf(claim, cfg), claim.now, run.result, receipt.message)
  }

  // The run failed, its receipt was accepted, and the retry is asked for that action.
  predicate Retries(claim: Event, run: Event, receipt: Event, retry: Event, cfg: Config) {
    && Reports(claim, run, receipt, cfg) && Ok(receipt.sent.reply) && run.result.error.Some? && retry.RetrySent?
    && AsksRetry(cfg, ActionOf(claim, cfg), claim.now, run.result.error.value, retry.retry)
  }

  // The trace ends with a block that is through: claim, successful run, accepted receipt; or claim,
  // failed run, accepted receipt, accepted retry.
  predicate Closes(cfg: Config, t: seq<Event>) {
    var n := |t|;
    || (n >= 3 && Reports(t[n - 3], t[n - 2], t[n - 1], cfg) && Ok(t[n - 1].sent.reply) && t[n - 2].result.error.None?)
    || (n >= 4 && Retries(t[n - 4], t[n - 3], t[n - 2], t[n - 1], cfg) && Ok(t[n - 1].sent.reply))
  }

  // The last events of a trace tell the phase it is in.
  predicate Tells(cfg: Config, t: seq<Event>, p: Phase) {
    var n := |t|;
    match p
    case Idle(_) => n == 0 || Closes(cfg, t)
    case Holding(_, a, now) => n >= 1 && Claims(t[n - 1], cfg) && ActionOf(t[n - 1], cfg) == a && t[n - 1].now == now
    case Executed(_, a, now, r) =>
      n >= 2 && Runs(t[n - 2], t[n - 1], cfg) && ActionOf(t[n - 2], cfg) == a && t[n - 2].now == now && t[n - 1].result == r
    case Owing(_, a, now, e) =>
      n >= 3 && Reports(t[n - 3], t[n - 2], t[n - 1], cfg) && ActionOf(t[n - 3], cfg) == a && t[n - 3].now == now &&
      Ok(t[n - 1].sent.reply) && t[n - 2].result.error == Some(e)
    case Stopped(_) => n >= 1 && t[n - 1].ClaimSent? && Ok(t[n - 1].sent.reply) && t[n - 1].sent.reply.result.value == None
    case Broken(_) => n >= 1
  }

  function EngineRuns(trace: seq<Event>): nat {
    if trace == [] then 0 else EngineRuns(trace[..|trace| - 1]) + (if trace[|trace| - 1].EngineRan? then 1 else 0)
  }

  // One event on.
  lemma AdvanceTells(cfg: Config, trace: seq<Event>, p: Phase, e: Event)
    requires Tells(cfg, trace, p) && Advance(cfg, p, e).Some?
    ensures Tells(cfg, trace + [e], Advance(cfg, p, e).value)
  {
    hide Echoes, AsksRetry, InvocationFor, Valid, Chosen;
  }

  // Every trace that follows the protocol: the phase is told by its last events, the engine ran
  // once for each action that was claimed (but for one that has just been), and the number of
  // actions keeps to the bound.
  lemma {:induction false} TraceShape(cfg: Config, trace: seq<Event>)
    requires Follow(cfg, trace).Some? && cfg.maxActions >= 0
    ensures var p := Follow(cfg, trace).value;
            && Tells(cfg, trace, p) && p.done <= cfg.maxActions
            && EngineRuns(trace) == (if p.Holding? then p.done - 1 else p.done)
            && (p.Holding? ==> p.done >= 1)
  {
    if trace != [] {
      var before, e := trace[..|trace| - 1], trace[|trace| - 1];
      TraceShape(cfg, before);
      AdvanceTells(cfg, before, Follow(cfg, before).value, e);
      assert before + [e] == trace;
    }
  }

  lemma {:induction false} PrefixFollows(cfg: Config, trace: seq<Event>, i: nat)
    requires Follow(cfg, trace).Some? && i <= |trace|
    ensures Follow(cfg, trace[..i]).Some?
  {
    if i == |trace| {
      assert trace[..i] == trace;
    } else {
      PrefixFollows(cfg, trace[..|trace| - 1], i);
      assert trace[..|trace| - 1][..i] == trace[..i];
    }
  }

  // Every event is in its place: the engine runs the action just claimed, a receipt reports the run
  // just before it, and a retry is asked for a failed run whose receipt was just accepted.
  predicate InPlace(cfg: Config, t: seq<Event>, i: nat)
    requires i < |t|
  {
    match t[i]
    case ClaimSent(_, _, _, _) => i == 0 || Closes(cfg, t[..i])
    case EngineRan(_, _, _) => i >= 1 && Runs(t[i - 1], t[i], cfg)
    case ReceiptSent(_, _) => i >= 2 && Reports(t[i - 2], t[i - 1], t[i], cfg)
    case RetrySent(_, _) => i >= 3 && Retries(t[i - 3], t[i - 2], t[i - 1], t[i], cfg)
  }

  lemma AdvancesAt(cfg: Config, trace: seq<Event>, i: nat) returns (p: Phase)
    requires Follow(cfg, trace).Some? && cfg.maxActions >= 0 && i < |trace|
    ensures Follow(cfg, trace[..i]) == Some(p) && Advance(cfg, p, trace[i]).Some? && Tells(cfg, trace[..i], p)
    ensures Follow(cfg, trace[..i + 1]) == Advance(cfg, p, trace[i])
  {
    hide Tells, Advance;
    PrefixFollows(cfg, trace, i);
    PrefixFollows(cfg, trace, i + 1);
    assert trace[..i + 1][..i] == trace[..i] && trace[..i + 1][i] == trace[i];
    TraceShape(cfg, trace[..i]);
    p := Follow(cfg, trace[..i]).value;
  }

  lemma AdvanceInPlace(cfg: Config, t: seq<Event>, p: Phase, e: Event)
    requires Tells(cfg, t, p) && Advance(cfg, p, e).Some?
    ensures InPlace(cfg, t + [e], |t|)
  {
    hide Echoes, AsksRetry, InvocationFor, Valid, Chosen;
    assert (t + [e])[..|t|] == t;
  }

  lemma EventsInPlace(cfg: Config, trace: seq<Event>, i: nat)
    requires Follow(cfg, trace).Some? && cfg.maxActions >= 0 && i < |trace|
    ensures InPlace(cfg, trace, i)
  {
    hide Echoes, AsksRetry, InvocationFor, Valid, Chosen, Follow, Advance;
    var t := trace[..i];
    var p := AdvancesAt(cfg, trace, i);
    AdvanceInPlace(cfg, t, p, trace[i]);
    assert (t + [trace[i]])[..i] == t;
  }

  // And the other way round: once the receipt of a failed run has been accepted, whatever is sent
  // next is the retry.
  lemma RetryFollowsFailure(cfg: Config, trace: seq<Event>, i: nat)
    requires Follow(cfg, trace).Some? && cfg.maxActions >= 0 && i + 1 < |trace|
    requires trace[i].ReceiptSent? && Ok(trace[i].sent.reply) && !trace[i].message.success
    ensures trace[i + 1].RetrySent?
  {
    var p := AdvancesAt(cfg, trace, i);
    var q := AdvancesAt(cfg, trace, i + 1);
  }

  // ---------- identities ----------

  predicate Plain(s: string) {
    '/' !in s
  }

  lemma {:induction false} DecimalPlain(n: nat)
    ensures Plain(Decimal(n)) && Plain(SignedDecimal(n))
  {
    if n >= 10 {
      DecimalPlain(n / 10);
    }
  }

  lemma {:induction false} HexDigestPlain(payload: seq<Byte>)
    ensures Plain(HexDigest(payload))
  {
    if payload != [] {
      HexDigestPlain(payload[1..]);
    }
  }

  // A prefix, a name of any kind, and two numbers.
  function Numbered(prefix: string, name: string, generation: nat, attempt: nat): string {
    prefix + name + "/" + Decimal(generation) + "/" + Decimal(attempt)
  }

  lemma NumberedInjective(prefix: string, n1: string, g1: nat, a1: nat, n2: string, g2: nat, a2: nat)
    requires Numbered(prefix, n1, g1, a1) == Numbered(prefix, n2, g2, a2)
    ensures n1 == n2 && g1 == g2 && a1 == a2
  {
    DecimalPlain(g1);
    DecimalPlain(g2);
    DecimalPlain(a1);
    DecimalPlain(a2);
    SplitAtLast(prefix + n1 + "/" + Decimal(g1), Decimal(a1), prefix + n2 + "/" + Decimal(g2), Decimal(a2), '/');
    SplitAtLast(prefix + n1, Decimal(g1), prefix + n2, Decimal(g2), '/');
    DecimalInjective(a1, a2);
    DecimalInjective(g1, g2);
    assert (prefix + n1)[|prefix|..] == n1 && (prefix + n2)[|prefix|..] == n2;
  }

  // Even when workload IDs contain slashes.
  lemma ReceiptIDInjective(w1: string, g1: nat, a1: nat, w2: string, g2: nat, a2: nat)
    ensures ReceiptID(w1, g1, a1) == ReceiptID(w2, g2, a2) <==> w1 == w2 && g1 == g2 && a1 == a2
    ensures RetryID(w1, g1, a1) == RetryID(w2, g2, a2) <==> w1 == w2 && g1 == g2 && a1 == a2
    ensures ReceiptID(w1, g1, a1) != RetryID(w2, g2, a2)
  {
    if ReceiptID(w1, g1, a1) == ReceiptID(w2, g2, a2) {
      NumberedInjective("receipt/", w1, g1, a1, w2, g2, a2);
    }
    if RetryID(w1, g1, a1) == RetryID(w2, g2, a2) {
      NumberedInjective("retry/", w1, g1, a1, w2, g2, a2);
    }
    assert ReceiptID(w1, g1, a1)[2] == 'c' && RetryID(w2, g2, a2)[2] == 't';
  }

  // The key under which the engine works on a validated action: workload, generation, attempt and
  // payload.
  lemma AssignmentKeyInjective(cfg: Config, a: Action, b: Action, t: Instant, u: Instant)
    requires Valid(cfg, a, t) && Valid(cfg, b, u)
    ensures InvocationFor(cfg, a).key == InvocationFor(cfg, b).key <==>
            a.desired.workloadID == b.desired.workloadID && a.fence.generation == b.fence.generation &&
            a.fence.attempt == b.fence.attempt && a.fence.payloadDigest == b.fence.payloadDigest
  {
    var d1, d2 := a.fence.payloadDigest, b.fence.payloadDigest;
    var w1, w2 := a.desired.workloadID, b.desired.workloadID;
    var g1, g2, n1, n2 := a.fence.generation, b.fence.generation, a.fence.attempt, b.fence.attempt;
    if InvocationFor(cfg, a).key == InvocationFor(cfg, b).key {
      HexDigestPlain(a.desired.payload);
      HexDigestPlain(b.desired.payload);
      SplitAtLast(Numbered("assignment/", w1, g1, n1), d1, Numbered("assignment/", w2, g2, n2), d2, '/');
      NumberedInjective("assignment/", w1, g1, n1, w2, g2, n2);
    }
  }

  lemma CommandIDDetermines(agent: string, k1: string, t1: int, s1: nat, k2: string, t2: int, s2: nat)
    requires CommandID(agent, k1, t1, s1) == CommandID(agent, k2, t2, s2)
    ensures s1 == s2
  {
    DecimalPlain(s1);
    DecimalPlain(s2);
    SplitAtLast("agent/" + agent + "/" + k1 + "/" + SignedDecimal(t1), Decimal(s1),
                "agent/" + agent + "/" + k2 + "/" + SignedDecimal(t2), Decimal(s2), '/');
    DecimalInjective(s1, s2);
  }

  lemma SequenceNumbersDiffer(i: nat, j: nat)
    requires i < j < SEQUENCES
    ensures (i + 1) % SEQUENCES != (j + 1) % SEQUENCES
  {
    assert (i + 1) % SEQUENCES == i + 1;
  }

  // The claim and observe IDs of one client never repeat, whatever its clock does, before the
  // 64-bit counter comes round.
  lemma CommandIDsNeverRepeat(c: Client, i: nat, j: nat)
    requires c.IssuedInOrder() && i < j < |c.issued| <= SEQUENCES
    ensures c.issued[i] != c.issued[j]
  {
    SequenceNumbersDiffer(i, j);
    hide CommandID;
    if c.issued[i] == c.issued[j] {
      CommandIDDetermines(c.cfg.agentID, c.kinds[i], c.times[i], (i + 1) % SEQUENCES, c.kinds[j], c.times[j], (j + 1) % SEQUENCES);
    }
  }

  // So the claims of one step carry different IDs, none of which the client has issued before the
  // step: claims are what Step says they are, k being the number of IDs issued before it.
  lemma ClaimsOfAStepAreNew(c: Client, k: nat, trace: seq<Event>, i: nat)
    requires c.IssuedInOrder() && k <= |c.issued| <= SEQUENCES && ClaimIDs(trace) <= c.issued[k..]
    requires i < |ClaimIDs(trace)|
    ensures forall j :: 0 <= j < i ==> ClaimIDs(trace)[j] != ClaimIDs(trace)[i]
    ensures forall j :: 0 <= j < k ==> c.issued[j] != ClaimIDs(trace)[i]
  {
    hide ClaimIDs;
    var ids := ClaimIDs(trace);
    assert forall j :: 0 <= j < |ids| ==> ids[j] == c.issued[k..][j] == c.issued[k + j];
    forall j | 0 <= j < k + i
      ensures c.issued[j] != c.issued[k + i]
    {
      CommandIDsNeverRepeat(c, j, k + i);
    }
    forall j | 0 <= j < i
      ensures ids[j] != ids[i]
    {
      assert ids[j] == c.issued[k + j];
    }
  }

  // ---------- credentials ----------

  function SentOf(e: Event): Option<Sent> {
    match e
    case ClaimSent(_, _, _, sent) => Some(sent)
    case EngineRan(_, _, _) => None
    case ReceiptSent(_, sent) => Some(sent)
    case RetrySent(_, sent) => Some(sent)
  }

  // Every post of a trace was made with the usable credential that expires last.
  lemma PostsUseLatestCredential(cfg: Config, trace: seq<Event>, i: nat)
    requires Follow(cfg, trace).Some? && cfg.maxActions >= 0 && i < |trace| && SentOf(trace[i]).Some?
    ensures Chosen(cfg.principals, SentOf(trace[i]).value.at, SentOf(trace[i]).value.token)
  {
    var p := AdvancesAt(cfg, trace, i);
  }
}
